/** What the root package and the zl/ sub-package share: the Key names and
    the Output table of zl/options.go, the version and caller-encoder
    choices, the repository caller URL rewrite, the signal exit-code rule,
    the filtering of enrichment fields by omitted keys, and the sink table. */
module ZlCommon {
  import opened Wrappers
  import opened GoStrings
  import opened Zap

  /** Key is a Go string type: any string can be passed where a Key is expected. */
  type Key = string

  const MessageKey: Key := "message"
  const LevelKey: Key := "level"
  const TimeKey: Key := "time"
  const NameKey: Key := "name"
  const CallerKey: Key := "caller"
  const FunctionKey: Key := "function"
  const StacktraceKey: Key := "stacktrace"
  const VersionKey: Key := "version"
  const HostnameKey: Key := "hostname"

  /** The initial console allow-list entry. */
  const ConsoleFieldDefault: string := "console"

  /** The encoder slot a key clears, as the switch over omitted (or ignored)
      keys does; `nameKey` is the key that names the logger-name slot. Keys
      outside the switch clear nothing. */
  function SlotOf(k: Key, nameKey: Key): Option<Slot>
  {
    if k == MessageKey then Some(MessageSlot)
    else if k == LevelKey then Some(LevelSlot)
    else if k == TimeKey then Some(TimeSlot)
    else if k == nameKey then Some(NameSlot)
    else if k == CallerKey then Some(CallerSlot)
    else if k == FunctionKey then Some(FunctionSlot)
    else if k == StacktraceKey then Some(StacktraceSlot)
    else None
  }

  /** Some key of `keys` clears slot `s`. */
  ghost predicate Clears(keys: seq<Key>, nameKey: Key, s: Slot)
  {
    exists k :: k in keys && SlotOf(k, nameKey) == Some(s)
  }

  lemma ClearsStep(keys: seq<Key>, nameKey: Key, i: nat, s: Slot)
    requires i < |keys|
    ensures Clears(keys[..i + 1], nameKey, s) <==>
            Clears(keys[..i], nameKey, s) || SlotOf(keys[i], nameKey) == Some(s)
  {
    assert keys[..i + 1] == keys[..i] + [keys[i]];
  }

  // ---------------------------------------------------------------- Output

  /** The routing mode. */
  datatype Output = PrettyOutput | ConsoleAndFileOutput | ConsoleOutput | FileOutput

  /** outputStrings, indexed by the mode's integer value. */
  const OutputStrings: seq<string> := ["Pretty", "ConsoleAndFile", "Console", "File"]

  /** The integer value of a mode (iota order). */
  function OutputIndex(o: Output): (i: nat)
    ensures i < |OutputStrings|
  {
    match o
    case PrettyOutput => 0
    case ConsoleAndFileOutput => 1
    case ConsoleOutput => 2
    case FileOutput => 3
  }

  function OutputAt(i: nat): (o: Output)
    requires i < |OutputStrings|
    ensures OutputIndex(o) == i
  {
    if i == 0 then PrettyOutput
    else if i == 1 then ConsoleAndFileOutput
    else if i == 2 then ConsoleOutput
    else FileOutput
  }

  /** Output.String. */
  function OutputString(o: Output): (name: string)
    ensures o == PrettyOutput ==> name == "Pretty"
    ensures o == ConsoleAndFileOutput ==> name == "ConsoleAndFile"
    ensures o == ConsoleOutput ==> name == "Console"
    ensures o == FileOutput ==> name == "File"
  {
    OutputStrings[OutputIndex(o)]
  }

  /** The first table entry at or after `i` equal to `s`. */
  function LookupOutput(s: string, i: nat): (r: Option<Output>)
    ensures r.Some? ==> i <= OutputIndex(r.value) && OutputString(r.value) == s
    ensures r.Some? ==> forall j :: i <= j < OutputIndex(r.value) ==> OutputStrings[j] != s
    ensures r.None? ==> forall j :: i <= j < |OutputStrings| ==> OutputStrings[j] != s
    decreases |OutputStrings| - i
  {
    if i >= |OutputStrings| then None
    else if OutputStrings[i] == s then Some(OutputAt(i))
    else LookupOutput(s, i + 1)
  }

  /** The mode SetOutputTypeByString selects, or None when it is fatal:
      the empty string selects the zero mode, PrettyOutput. */
  function ParseOutput(s: string): (r: Option<Output>)
    ensures r.None? <==> s != "" && forall o: Output :: OutputString(o) != s
    ensures r.Some? ==> (s == "" && r.value == PrettyOutput) || OutputString(r.value) == s
  {
    if s == "" then Some(PrettyOutput)
    else
      var r := LookupOutput(s, 0);
      assert r.None? ==> forall o: Output :: OutputString(o) != s by {
        if r.None? {
          forall o: Output ensures OutputString(o) != s {
            assert OutputStrings[OutputIndex(o)] != s;
          }
        }
      }
      r
  }

  /** Parsing a mode's name gives the mode back. */
  lemma OutputRoundTrip(o: Output)
    ensures ParseOutput(OutputString(o)) == Some(o)
  {
    var r := LookupOutput(OutputString(o), 0);
    assert OutputString(o) != "";
    assert r.Some?;
    assert OutputIndex(r.value) <= OutputIndex(o);
    assert OutputStrings[OutputIndex(r.value)] == OutputStrings[OutputIndex(o)];
  }

  /** Different modes have different names. */
  lemma OutputStringInjective(a: Output, b: Output)
    ensures OutputString(a) == OutputString(b) ==> a == b
  {
  }

  // ---------------------------------------------------------------- version and caller

  /** GetVersion: the explicit version if set, otherwise the output of
      `git rev-parse --short HEAD` without its trailing newlines when the
      command succeeds (`git`), otherwise "undefined". */
  function GetVersion(version: string, git: Option<string>): (v: string)
    ensures version != "" ==> v == version
    ensures version == "" && git.Some? ==>
      v <= git.value && (v == [] || v[|v| - 1] != '\n') &&
      forall i :: |v| <= i < |git.value| ==> git.value[i] == '\n'
    ensures version == "" && git.None? ==> v == "undefined"
  {
    if version != "" then version
    else match git
      case Some(out) => TrimRightNewlines(out)
      case None => "undefined"
  }

  /** getCallerEncoder: the configured encoder, else zap's short file:line form. */
  function GetCallerEncoder(callerEncoder: Option<CallerEncoder>): (e: CallerEncoder)
    ensures callerEncoder.Some? ==> e == callerEncoder.value
    ensures callerEncoder.None? ==> e.ShortCallerEncoder?
  {
    match callerEncoder
    case Some(c) => c
    case None => ShortCallerEncoder
  }

  /** fmt.Sprintf(urlFormat, revisionOrTag) for a format whose one verb is %s. */
  function FormatUrl(urlFormat: string, revisionOrTag: string): (url: string)
    ensures forall i: nat :: FirstMatch(urlFormat, "%s", i) ==>
              url == urlFormat[..i] + revisionOrTag + urlFormat[i + 2..]
    ensures (forall j: nat :: !MatchAt(urlFormat, "%s", j)) ==>
              url == urlFormat + "%!(EXTRA string=" + revisionOrTag + ")"
  {
    if IndexOf(urlFormat, "%s").Some? then ReplaceFirst(urlFormat, "%s", revisionOrTag)
    else urlFormat + "%!(EXTRA string=" + revisionOrTag + ")"
  }

  /** What the encoder built by buildRepositoryCallerEncoder writes for a
      caller: the first occurrence of `dir` in the file path replaced by
      `url`, then "#L" and the line number. */
  function RepositoryCaller(dir: string, url: string, file: string, line: int): (text: string)
    ensures forall i: nat :: FirstMatch(file, dir, i) ==>
              text == file[..i] + url + file[i + |dir|..] + "#L" + Itoa(line)
    ensures (forall j: nat :: !MatchAt(file, dir, j)) ==> text == file + "#L" + Itoa(line)
  {
    ReplaceFirst(file, dir, url) + "#L" + Itoa(line)
  }

  /** A file under the source root becomes the repository URL followed by its relative path. */
  lemma {:induction false} RepositoryCallerUnderRoot(dir: string, url: string, file: string, line: int)
    requires dir <= file
    ensures RepositoryCaller(dir, url, file, line) == url + file[|dir|..] + "#L" + Itoa(line)
  {
    ReplaceFirstAtStart(file, dir, url);
  }


  // ---------------------------------------------------------------- signals

  /** The signals SyncWhenStop subscribes to. */
  datatype Signal = Interrupt | Terminated

  /** os.Signal.String for syscall.SIGINT and syscall.SIGTERM. */
  function SignalName(sig: Signal): string
  {
    match sig
    case Interrupt => "interrupt"
    case Terminated => "terminated"
  }

  /** The conventional signal numbers. */
  function SignalNumber(sig: Signal): nat
  {
    match sig
    case Interrupt => 2
    case Terminated => 15
  }

  /** The exit status of the signal handler, 128 plus a code chosen from the
      signal's name: 2 for "interrupt", 15 for "terminated", 0 otherwise. */
  function SignalExitCode(name: string): (code: int)
    ensures name != "interrupt" && name != "terminated" ==> code == 128
    ensures 128 <= code <= 143
  {
    var sigCode := if name == "interrupt" then 2 else if name == "terminated" then 15 else 0;
    128 + sigCode
  }

  /** The handler exits with the shell's convention for death by signal: 130 and 143. */
  lemma SignalExitCodeIsShellConvention(sig: Signal)
    ensures SignalExitCode(SignalName(sig)) == 128 + SignalNumber(sig)
    ensures SignalExitCode(SignalName(Interrupt)) == 130
    ensures SignalExitCode(SignalName(Terminated)) == 143
  {
  }

  // ---------------------------------------------------------------- enrichment

  /** `f` is encoded under a key listed in `omit`. */
  predicate OmittedBy(f: Field, omit: seq<Key>)
  {
    KeyOf(f).Some? && KeyOf(f).value in omit
  }

  /** The fields of `fields` whose key is not omitted, in their order. */
  function Unomitted(fields: seq<Field>, omit: seq<Key>): (r: seq<Field>)
    ensures forall f :: f in r <==> f in fields && !OmittedBy(f, omit)
    ensures |r| <= |fields|
    ensures forall i :: 0 <= i < |r| ==> !OmittedBy(r[i], omit)
  {
    if fields == [] then []
    else (if OmittedBy(fields[0], omit) then [] else [fields[0]]) + Unomitted(fields[1..], omit)
  }

  /** Filtering keeps the relative order: filtering a concatenation is
      concatenating the filtered parts. */
  lemma {:induction false} UnomittedAppend(a: seq<Field>, b: seq<Field>, omit: seq<Key>)
    ensures Unomitted(a + b, omit) == Unomitted(a, omit) + Unomitted(b, omit)
  {
    if a != [] {
      assert (a + b)[0] == a[0];
      assert (a + b)[1..] == a[1..] + b;
      UnomittedAppend(a[1..], b, omit);
    } else {
      assert a + b == b;
    }
  }

  lemma UnomittedCons(f: Field, rest: seq<Field>, omit: seq<Key>)
    ensures Unomitted([f] + rest, omit) == (if OmittedBy(f, omit) then [] else [f]) + Unomitted(rest, omit)
  {
    assert ([f] + rest)[1..] == rest;
  }

  // ---------------------------------------------------------------- sinks

  /** The sink table: Pretty and File write to the rotating file only,
      ConsoleAndFile to the console and then the file, Console to the
      console only. */
  predicate Routes(mode: Output, console: Sink, rotator: RotatorConfig, syncers: seq<Sink>)
  {
    && |syncers| == (if mode == ConsoleAndFileOutput then 2 else 1)
    && (Rotator(rotator) in syncers <==> mode != ConsoleOutput)
    && (console in syncers <==> mode == ConsoleAndFileOutput || mode == ConsoleOutput)
    && (|syncers| == 2 ==> syncers[0] == console)
  }

  /** The table fixes the sink list: two lists that both follow it are equal. */
  lemma RoutesDetermineSinks(mode: Output, console: Sink, rotator: RotatorConfig, a: seq<Sink>, b: seq<Sink>)
    requires !console.Rotator?
    requires Routes(mode, console, rotator, a) && Routes(mode, console, rotator, b)
    ensures a == b
  {
    if mode == ConsoleAndFileOutput {
      assert a[1] == Rotator(rotator) && b[1] == Rotator(rotator);
    }
  }

  /** Console mode never writes to the file and File mode never to the console. */
  lemma RoutesSeparateConsoleAndFile(console: Sink, rotator: RotatorConfig, syncers: seq<Sink>)
    ensures Routes(ConsoleOutput, console, rotator, syncers) ==> Rotator(rotator) !in syncers
    ensures Routes(FileOutput, console, rotator, syncers) ==> console !in syncers
  {
  }
}
