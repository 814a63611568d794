/** The older zl/ sub-package (zl/zl.go and zl/options.go): its own globals,
    Init returning the zap handle, the std-log flag choice, an encoder with
    ignored keys cleared, a console sink that is always stderr, no pid field,
    a Sync that always logs before flushing, and the option setters. */
module ZlLegacy {
  import opened Wrappers
  import opened GoStrings
  import opened Zap
  import opened ZlCommon

  /** The flags of Go's standard logger that Init chooses between. */
  datatype LogFlag = Ldate | Ltime | Lshortfile

  /** The standard logger's flags before Init (Go's LstdFlags). */
  const StdFlags: set<LogFlag> := {Ldate, Ltime}

  /** Init's choice: file and line always; date and time only when the time
      key is not ignored. */
  function StdLogFlags(ignoreKeys: seq<Key>): (flags: set<LogFlag>)
    ensures Lshortfile in flags
    ensures Ldate in flags <==> TimeKey !in ignoreKeys
    ensures Ltime in flags <==> TimeKey !in ignoreKeys
    ensures flags <= {Ldate, Ltime, Lshortfile}
  {
    if TimeKey in ignoreKeys then {Lshortfile} else {Ldate, Ltime, Lshortfile}
  }

  /** The text log.Fatalf is given after the rejected string. */
  const InvalidOutputText := " is invalid type. can use (SimpleConsoleAndFile, ConsoleAndFile, Console, File)"
  const InvalidLevelText := " is invalid level. can use (DEBUG,INFO,WARN,ERROR,FATAL)"

  /** The name the fatal message advertises for the default mode is not in
      the table: SetOutputTypeByString rejects it. */
  lemma AdvertisedPrettyNameRejected()
    ensures ParseOutput("SimpleConsoleAndFile") == None
    ensures ParseOutput("Pretty") == Some(PrettyOutput)
  {
    OutputRoundTrip(PrettyOutput);
  }

  /** The encoder configuration initZapLogger starts from, before setIgnoreKeys. */
  function DefaultEncoder(encodeCaller: CallerEncoder): EncoderConfig
  {
    EncoderConfig(MessageKey, LevelKey, TimeKey, NameKey, CallerKey, FunctionKey, StacktraceKey,
                  CapitalLevelEncoder, encodeCaller)
  }

  /** setIgnoreKeys: every ignored key among message, level, time, name,
      caller, function and stacktrace sets exactly its encoder key to "";
      every other encoder key keeps its value. */
  method ClearIgnoredKeys(enc: EncoderConfig, ignoreKeys: seq<Key>) returns (r: EncoderConfig)
    ensures forall s: Slot :: r.Get(s) == if Clears(ignoreKeys, NameKey, s) then OmitKey else enc.Get(s)
    ensures r.encodeLevel == enc.encodeLevel && r.encodeCaller == enc.encodeCaller
  {
    r := enc;
    for i := 0 to |ignoreKeys|
      invariant forall s: Slot :: r.Get(s) == if Clears(ignoreKeys[..i], NameKey, s) then OmitKey else enc.Get(s)
      invariant r.encodeLevel == enc.encodeLevel && r.encodeCaller == enc.encodeCaller
    {
      var k := ignoreKeys[i];
      if k == MessageKey {
        r := r.(messageKey := "");
      } else if k == LevelKey {
        r := r.(levelKey := "");
      } else if k == TimeKey {
        r := r.(timeKey := "");
      } else if k == NameKey {
        r := r.(nameKey := "");
      } else if k == CallerKey {
        r := r.(callerKey := "");
      } else if k == FunctionKey {
        r := r.(functionKey := "");
      } else if k == StacktraceKey {
        r := r.(stacktraceKey := "");
      }
      forall s: Slot
        ensures r.Get(s) == if Clears(ignoreKeys[..i + 1], NameKey, s) then OmitKey else enc.Get(s)
      {
        ClearsStep(ignoreKeys, NameKey, i, s);
      }
    }
    assert ignoreKeys[..|ignoreKeys|] == ignoreKeys;
  }

  /** getSyncers: as in the root package, with stderr as the console. */
  method GetSyncers(outputType: Output, rotation: RotatorConfig) returns (syncers: seq<Sink>)
    ensures Routes(outputType, Stderr, rotation, syncers)
  {
    syncers := [];
    match outputType
    case PrettyOutput | FileOutput =>
      syncers := syncers + [Rotator(rotation)];
    case ConsoleAndFileOutput =>
      syncers := syncers + [Stderr, Rotator(rotation)];
    case ConsoleOutput =>
      syncers := syncers + [Stderr];
  }

  /** Whatever the mode, the sub-package never writes to stdout. */
  lemma NeverStdout(mode: Output, rotation: RotatorConfig, syncers: seq<Sink>)
    requires Routes(mode, Stderr, rotation, syncers)
    ensures Stdout !in syncers
  {
  }

  /** The enrichment fields of the sub-package: version then hostname. */
  function AdditionalFields(ignoreKeys: seq<Key>, version: string, host: string): seq<Field>
  {
    Unomitted([StringField(VersionKey, version), StringField(HostnameKey, host)], ignoreKeys)
  }

  /** Version comes before hostname, each present exactly when not ignored,
      and there is never a pid or any other field. */
  lemma AdditionalFieldsShape(ignoreKeys: seq<Key>, version: string, host: string)
    ensures var r := AdditionalFields(ignoreKeys, version, host);
      && (StringField(VersionKey, version) in r <==> VersionKey !in ignoreKeys)
      && (StringField(HostnameKey, host) in r <==> HostnameKey !in ignoreKeys)
      && (forall f :: f in r ==> f == StringField(VersionKey, version) || f == StringField(HostnameKey, host))
      && (VersionKey !in ignoreKeys ==> r[0] == StringField(VersionKey, version))
      && (HostnameKey !in ignoreKeys ==> r[|r| - 1] == StringField(HostnameKey, host))
  {
    var v, h := StringField(VersionKey, version), StringField(HostnameKey, host);
    UnomittedCons(v, [h], ignoreKeys);
    UnomittedCons(h, [], ignoreKeys);
  }

  /** The text of the INIT_LOGGER record. */
  function InitMessage(level: Level, mode: Output, fileName: string): (text: string)
    ensures "Level: " + CapitalString(level) + ", Output: " + OutputString(mode) + ", FileName: " <= text
    ensures EndsWith(text, ", FileName: " + fileName)
    ensures |text| == |"Level: " + CapitalString(level) + ", Output: " + OutputString(mode) + ", FileName: "| + |fileName|
  {
    "Level: " + CapitalString(level) + ", Output: " + OutputString(mode) + ", FileName: " + fileName
  }

  /** What Sync hands on: a FLUSH_LOG_BUFFER record at Info level, zap's
      Sync, and the sync error to the standard logger if there is one. */
  function FlushEmissions(zapLogger: ZapLogger, syncError: Option<string>): seq<Emission>
  {
    [ZapEntry(zapLogger, InfoLevel, "FLUSH_LOG_BUFFER", []), ZapSync(zapLogger)]
    + (if syncError.Some? then [StdLog(syncError.value)] else [])
  }

  /** The setting globals of the sub-package, which the option setters write. */
  datatype Settings = Settings(
    outputType: Output, version: string, logLevel: Level, callerEncoder: Option<CallerEncoder>,
    consoleFields: seq<string>, ignoreKeys: seq<Key>, isStdOut: bool,
    fileName: string, maxSize: int, maxAge: int, maxBackups: int, localTime: bool, compress: bool)
  {
    /** The settings newRotator reads. */
    function Rotation(): RotatorConfig
    {
      RotatorConfig(fileName, maxSize, maxAge, maxBackups, localTime, compress)
    }
  }

  const DefaultSettings := Settings(PrettyOutput, "", InfoLevel, None, [ConsoleFieldDefault], [], false,
                                    "", 0, 0, 0, false, false)

  /** `z` is the zap logger initZapLogger builds from settings `s`. */
  ghost predicate IsZapLoggerFor(s: Settings, z: ZapLogger, git: Option<string>, host: string)
  {
    && (forall slot: Slot :: z.encoder.Get(slot) ==
          if Clears(s.ignoreKeys, NameKey, slot) then OmitKey else DefaultEncoder(ShortCallerEncoder).Get(slot))
    && z.encoder.encodeLevel == CapitalLevelEncoder
    && z.encoder.encodeCaller == GetCallerEncoder(s.callerEncoder)
    && Routes(s.outputType, Stderr, s.Rotation(), z.sinks)
    && z.minLevel == s.logLevel && z.callerSkip == 0 && z.stacktraceLevel == ErrorLevel
    && z.fields == AdditionalFields(s.ignoreKeys, GetVersion(s.version, git), host)
    && z.names == []
  }

  /** The package globals of the sub-package. */
  class Globals {
    var initialized: bool  // the sync.Once guarding Init
    var zapLogger: Option<ZapLogger>
    var settings: Settings
    /** The flags of Go's standard logger. */
    var logFlags: set<LogFlag>
    /** SyncWhenStop has started its signal-waiting goroutine. */
    var watchingSignals: bool
    /** What the package has handed to zap and the standard logger, in order. */
    var emitted: seq<Emission>

    /** Init has run exactly when there is a zap logger. */
    ghost predicate Valid()
      reads this
    {
      initialized <==> zapLogger.Some?
    }

    /** The package's initial state. */
    constructor ()
      ensures Valid() && !initialized && settings == DefaultSettings && logFlags == StdFlags
      ensures !watchingSignals && emitted == []
    {
      initialized, zapLogger := false, None;
      settings := DefaultSettings;
      logFlags := StdFlags;
      watchingSignals, emitted := false, [];
    }

    /** Init: the body runs only when the guard is clear. It sets the
        standard logger's flags, builds the zap logger and writes one
        INIT_LOGGER record at Info level. Every call returns the handle the
        first call built. */
    method Init(git: Option<string>, host: string) returns (h: ZapLogger)
      requires Valid()
      modifies this`initialized, this`zapLogger, this`logFlags, this`emitted
      ensures Valid() && initialized && h == zapLogger.value
      ensures old(initialized) ==>
        zapLogger == old(zapLogger) && logFlags == old(logFlags) && emitted == old(emitted)
      ensures !old(initialized) ==> logFlags == StdLogFlags(settings.ignoreKeys)
      ensures !old(initialized) ==> IsZapLoggerFor(settings, h, git, host)
      ensures !old(initialized) ==>
        emitted == old(emitted) + [ZapEntry(h, InfoLevel, "INIT_LOGGER",
                                            [ConsoleField(InitMessage(settings.logLevel, settings.outputType, settings.fileName))])]
    {
      if !initialized {
        initialized := true;
        logFlags := StdLogFlags(settings.ignoreKeys);
        var z := InitZapLogger(git, host);
        zapLogger := Some(z);
        Info("INIT_LOGGER", [ConsoleField(InitMessage(settings.logLevel, settings.outputType, settings.fileName))]);
      }
      h := zapLogger.value;
    }

    /** initZapLogger: the encoder with ignored keys cleared, the sinks of
        the mode, the minimum level and the enrichment fields. */
    method InitZapLogger(git: Option<string>, host: string) returns (z: ZapLogger)
      ensures IsZapLoggerFor(settings, z, git, host)
    {
      var enc := DefaultEncoder(GetCallerEncoder(settings.callerEncoder));
      enc := ClearIgnoredKeys(enc, settings.ignoreKeys);
      var sinks := GetSyncers(settings.outputType, settings.Rotation());
      var fields := GetAdditionalFields(git, host);
      z := ZapLogger(enc, sinks, settings.logLevel, 0, ErrorLevel, fields, []);
    }

    /** getAdditionalFields: version then hostname, each unless ignored. */
    method GetAdditionalFields(git: Option<string>, host: string) returns (fields: seq<Field>)
      ensures fields == AdditionalFields(settings.ignoreKeys, GetVersion(settings.version, git), host)
    {
      var v, h := StringField(VersionKey, GetVersion(settings.version, git)), StringField(HostnameKey, host);
      UnomittedCons(v, [h], settings.ignoreKeys);
      UnomittedCons(h, [], settings.ignoreKeys);
      fields := [];
      if VersionKey !in settings.ignoreKeys {
        fields := fields + [v];
      }
      if HostnameKey !in settings.ignoreKeys {
        fields := fields + [h];
      }
    }

    /** The package's Info: an Info-level record through the zap logger. */
    method Info(message: string, fields: seq<Field>)
      requires Valid() && initialized
      modifies this`emitted
      ensures emitted == old(emitted) + [ZapEntry(zapLogger.value, InfoLevel, message, fields)]
    {
      emitted := emitted + [ZapEntry(zapLogger.value, InfoLevel, message, fields)];
    }

    /** Sync: whatever the mode, FLUSH_LOG_BUFFER at Info level, then zap's
        Sync, then the sync error to the standard logger. */
    method Sync(syncError: Option<string>)
      requires Valid() && initialized
      modifies this`emitted
      ensures emitted == old(emitted) + FlushEmissions(zapLogger.value, syncError)
    {
      Info("FLUSH_LOG_BUFFER", []);
      emitted := emitted + [ZapSync(zapLogger.value)];
      if syncError.Some? {
        emitted := emitted + [StdLog(syncError.value)];
      }
    }

    /** SyncWhenStop: starts the signal handler, whatever the mode. */
    method SyncWhenStop()
      modifies this`watchingSignals
      ensures watchingSignals
    {
      watchingSignals := true;
    }

    /** The handler started by SyncWhenStop, once a signal arrives: a
        GOT_SIGNAL_<NAME> record at Info level, Sync, and the exit status. */
    method OnSignal(sig: Signal, syncError: Option<string>) returns (exitCode: int)
      requires Valid() && initialized && watchingSignals
      modifies this`emitted
      ensures exitCode == 128 + SignalNumber(sig)
      ensures emitted == old(emitted)
        + [ZapEntry(zapLogger.value, InfoLevel, "GOT_SIGNAL_" + ToUpper(SignalName(sig)), [])]
        + FlushEmissions(zapLogger.value, syncError)
    {
      var name := SignalName(sig);
      Info("GOT_SIGNAL_" + ToUpper(name), []);
      Sync(syncError);
      exitCode := SignalExitCode(name);
      SignalExitCodeIsShellConvention(sig);
    }

    // ------------------------------------------------------------ zl/options.go setters

    method SetOutput(option: Output)
      modifies this`settings
      ensures settings == old(settings).(outputType := option)
    {
      settings := settings.(outputType := option);
    }

    /** SetOutputTypeByString: "" selects Pretty, a name of the table selects
        its mode, and anything else is fatal and changes no setting. */
    method SetOutputTypeByString(outputTypeStr: string)
      modifies this`settings, this`emitted
      ensures ParseOutput(outputTypeStr).Some? ==>
        settings == old(settings).(outputType := ParseOutput(outputTypeStr).value) && emitted == old(emitted)
      ensures ParseOutput(outputTypeStr).None? ==>
        settings == old(settings) && emitted == old(emitted) + [StdLogFatal(outputTypeStr + InvalidOutputText)]
    {
      if outputTypeStr == "" {
        SetOutput(PrettyOutput);
        return;
      }
      for i := 0 to |OutputStrings|
        invariant settings == old(settings) && emitted == old(emitted)
        invariant forall j :: 0 <= j < i ==> OutputStrings[j] != outputTypeStr
      {
        if outputTypeStr == OutputStrings[i] {
          OutputStringInjective(ParseOutput(outputTypeStr).value, OutputAt(i));
          SetOutput(OutputAt(i));
          return;
        }
      }
      emitted := emitted + [StdLogFatal(outputTypeStr + InvalidOutputText)];
    }

    method SetLevel(option: Level)
      modifies this`settings
      ensures settings == old(settings).(logLevel := option)
    {
      settings := settings.(logLevel := option);
    }

    /** SetLogLevelByString: `parsed` is what zap's level parser makes of
        `levelStr`; a failed parse is fatal and changes no setting. */
    method SetLogLevelByString(levelStr: string, parsed: Option<Level>)
      modifies this`settings, this`emitted
      ensures parsed.Some? ==> settings == old(settings).(logLevel := parsed.value) && emitted == old(emitted)
      ensures parsed.None? ==>
        settings == old(settings) && emitted == old(emitted) + [StdLogFatal(levelStr + InvalidLevelText)]
    {
      if parsed.None? {
        emitted := emitted + [StdLogFatal(levelStr + InvalidLevelText)];
        return;
      }
      SetLevel(parsed.value);
    }

    /** SetRepositoryCallerEncoder: nothing when the revision or the source
        root is empty; otherwise the repository encoder with the formatted URL. */
    method SetRepositoryCallerEncoder(urlFormat: string, revisionOrTag: string, srcRootDir: string)
      modifies this`settings
      ensures revisionOrTag == "" || srcRootDir == "" ==> settings == old(settings)
      ensures revisionOrTag != "" && srcRootDir != "" ==>
        settings == old(settings).(callerEncoder :=
          Some(RepositoryCallerEncoder(srcRootDir, FormatUrl(urlFormat, revisionOrTag))))
    {
      if revisionOrTag == "" || srcRootDir == "" {
        return;
      }
      var url := FormatUrl(urlFormat, revisionOrTag);
      settings := settings.(callerEncoder := Some(RepositoryCallerEncoder(srcRootDir, url)));
    }

    method SetVersion(revisionOrTag: string)
      modifies this`settings
      ensures settings == old(settings).(version := revisionOrTag)
    {
      settings := settings.(version := revisionOrTag);
    }

    /** AddConsoleFields appends, keeping the existing entries in order. */
    method AddConsoleFields(fieldKey: seq<string>)
      modifies this`settings
      ensures settings == old(settings).(consoleFields := old(settings.consoleFields) + fieldKey)
      ensures settings.consoleFields[..|old(settings.consoleFields)|] == old(settings.consoleFields)
    {
      settings := settings.(consoleFields := settings.consoleFields + fieldKey);
    }

    /** SetIgnoreKeys replaces the whole list. */
    method SetIgnoreKeys(key: seq<Key>)
      modifies this`settings
      ensures settings == old(settings).(ignoreKeys := key)
    {
      settings := settings.(ignoreKeys := key);
    }

    /** SetStdout: stored, but getSyncers of this package never reads it. */
    method SetStdout()
      modifies this`settings
      ensures settings == old(settings).(isStdOut := true)
    {
      settings := settings.(isStdOut := true);
    }

    method SetFileName(val: string)
      modifies this`settings
      ensures settings == old(settings).(fileName := val)
    {
      settings := settings.(fileName := val);
    }

    method SetMaxSize(val: int)
      modifies this`settings
      ensures settings == old(settings).(maxSize := val)
    {
      settings := settings.(maxSize := val);
    }

    method SetMaxAge(val: int)
      modifies this`settings
      ensures settings == old(settings).(maxAge := val)
    {
      settings := settings.(maxAge := val);
    }

    method SetMaxBackups(val: int)
      modifies this`settings
      ensures settings == old(settings).(maxBackups := val)
    {
      settings := settings.(maxBackups := val);
    }

    method SetLocalTime(val: bool)
      modifies this`settings
      ensures settings == old(settings).(localTime := val)
    {
      settings := settings.(localTime := val);
    }

    method SetCompress(val: bool)
      modifies this`settings
      ensures settings == old(settings).(compress := val)
    {
      settings := settings.(compress := val);
    }
  }

  /** Two calls of Init return the same handle: the second call's git
      output and hostname are never consulted. */
  method InitTwice(git1: Option<string>, host1: string, git2: Option<string>, host2: string)
    returns (h1: ZapLogger, h2: ZapLogger)
    ensures h1 == h2
    ensures h1.fields == AdditionalFields([], GetVersion("", git1), host1)
  {
    var g := new Globals();
    h1 := g.Init(git1, host1);
    h2 := g.Init(git2, host2);
  }

  /** SetStdout does not reach the sinks of the sub-package. */
  method StdoutIgnored(git: Option<string>, host: string) returns (h: ZapLogger)
    ensures Stdout !in h.sinks
  {
    var g := new Globals();
    g.SetStdout();
    g.SetOutput(ConsoleOutput);
    h := g.Init(git, host);
    NeverStdout(ConsoleOutput, g.settings.Rotation(), h.sinks);
  }
}
