/** The root package (zl.go, and the package-level functions of logger.go):
    the process-wide settings as one Globals object, the once-guarded Init,
    the encoder and sink builder, the enrichment fields, Sync and the signal
    handler, and Cleanup. Emission is recorded in `emitted`. */
module Zl {
  import opened Wrappers
  import opened GoStrings
  import opened Zap
  import opened ZlCommon
  import opened Facade

  /** Keys of the root package beyond those of zl/options.go; their string
      values are defined in a file that is not part of this model. */
  const LoggerKey: Key := "logger"
  const PIDKey: Key := "pid"

  /** encodeLevel: the Python / Cloud Logging severity names; a level missing
      from its map (DPanic, Panic) gets Go's zero string. */
  function EncodeLevel(l: Level): (tag: string)
    ensures tag == "" <==> l == DPanicLevel || l == PanicLevel
    ensures tag == CapitalString(l) <==> l == DebugLevel || l == InfoLevel || l == ErrorLevel
    ensures l == WarnLevel ==> tag == "WARNING"
    ensures l == FatalLevel ==> tag == "CRITICAL"
  {
    match l
    case DebugLevel => "DEBUG"
    case InfoLevel => "INFO"
    case WarnLevel => "WARNING"
    case ErrorLevel => "ERROR"
    case FatalLevel => "CRITICAL"
    case DPanicLevel => ""
    case PanicLevel => ""
  }

  /** Distinct levels of the facade get distinct labels. */
  lemma EncodeLevelInjective(a: Level, b: Level)
    requires EncodeLevel(a) != ""
    ensures EncodeLevel(a) == EncodeLevel(b) ==> a == b
  {
  }

  /** getConsoleOutput. */
  function GetConsoleOutput(isStdOut: bool): (w: Sink)
    ensures w == Stdout <==> isStdOut
    ensures w == Stderr <==> !isStdOut
  {
    if isStdOut then Stdout else Stderr
  }

  /** getSyncers: the sink list of a mode, built by appending. */
  method GetSyncers(outputType: Output, isStdOut: bool, rotation: RotatorConfig) returns (syncers: seq<Sink>)
    ensures Routes(outputType, GetConsoleOutput(isStdOut), rotation, syncers)
  {
    syncers := [];
    match outputType
    case PrettyOutput | FileOutput =>
      syncers := syncers + [Rotator(rotation)];
    case ConsoleAndFileOutput =>
      syncers := syncers + [GetConsoleOutput(isStdOut), Rotator(rotation)];
    case ConsoleOutput =>
      syncers := syncers + [GetConsoleOutput(isStdOut)];
  }

  /** The encoder configuration newZapLogger starts from, before setOmitKeys. */
  function DefaultEncoder(encodeCaller: CallerEncoder): EncoderConfig
  {
    EncoderConfig(MessageKey, LevelKey, TimeKey, LoggerKey, CallerKey, FunctionKey, StacktraceKey,
                  SeverityLevelEncoder, encodeCaller)
  }

  /** setOmitKeys: every omitted key among message, level, time, logger,
      caller, function and stacktrace sets exactly its encoder key to
      OmitKey; every other encoder key keeps its value, and other keys
      (version, hostname, pid, unknown strings) change nothing. */
  method SetOmitKeys(enc: EncoderConfig, omitKeys: seq<Key>) returns (r: EncoderConfig)
    ensures forall s: Slot :: r.Get(s) == if Clears(omitKeys, LoggerKey, s) then OmitKey else enc.Get(s)
    ensures r.encodeLevel == enc.encodeLevel && r.encodeCaller == enc.encodeCaller
  {
    r := enc;
    for i := 0 to |omitKeys|
      invariant forall s: Slot :: r.Get(s) == if Clears(omitKeys[..i], LoggerKey, s) then OmitKey else enc.Get(s)
      invariant r.encodeLevel == enc.encodeLevel && r.encodeCaller == enc.encodeCaller
    {
      var k := omitKeys[i];
      if k == MessageKey {
        r := r.(messageKey := OmitKey);
      } else if k == LevelKey {
        r := r.(levelKey := OmitKey);
      } else if k == TimeKey {
        r := r.(timeKey := OmitKey);
      } else if k == LoggerKey {
        r := r.(nameKey := OmitKey);
      } else if k == CallerKey {
        r := r.(callerKey := OmitKey);
      } else if k == FunctionKey {
        r := r.(functionKey := OmitKey);
      } else if k == StacktraceKey {
        r := r.(stacktraceKey := OmitKey);
      }
      forall s: Slot
        ensures r.Get(s) == if Clears(omitKeys[..i + 1], LoggerKey, s) then OmitKey else enc.Get(s)
      {
        ClearsStep(omitKeys, LoggerKey, i, s);
      }
    }
    assert omitKeys[..|omitKeys|] == omitKeys;
  }

  /** The enrichment fields: version, hostname and pid, in that order, each
      kept only when its key is not omitted. */
  function AdditionalFields(omitKeys: seq<Key>, version: string, host: string, pid: int): seq<Field>
  {
    Unomitted([StringField(VersionKey, version), StringField(HostnameKey, host), IntField(PIDKey, pid)], omitKeys)
  }

  /** Each enrichment field is present exactly when its key is not omitted,
      version comes first and pid last. */
  lemma AdditionalFieldsShape(omitKeys: seq<Key>, version: string, host: string, pid: int)
    ensures var r := AdditionalFields(omitKeys, version, host, pid);
      && (StringField(VersionKey, version) in r <==> VersionKey !in omitKeys)
      && (StringField(HostnameKey, host) in r <==> HostnameKey !in omitKeys)
      && (IntField(PIDKey, pid) in r <==> PIDKey !in omitKeys)
      && |r| == (if VersionKey in omitKeys then 0 else 1) + (if HostnameKey in omitKeys then 0 else 1)
                + (if PIDKey in omitKeys then 0 else 1)
      && (VersionKey !in omitKeys ==> r[0] == StringField(VersionKey, version))
      && (PIDKey !in omitKeys ==> r[|r| - 1] == IntField(PIDKey, pid))
  {
    var v, h, p := StringField(VersionKey, version), StringField(HostnameKey, host), IntField(PIDKey, pid);
    UnomittedCons(v, [h, p], omitKeys);
    UnomittedCons(h, [p], omitKeys);
    UnomittedCons(p, [], omitKeys);
  }

  /** What checkInit hands log.Fatal when there is no zap logger. */
  const NotInitializedText := "The logger is not initialized. Init() must be called."

  /** The modes whose Sync and SyncWhenStop do anything. */
  predicate Buffered(o: Output)
  {
    o == PrettyOutput || o == FileOutput
  }

  /** The text of the INIT_LOGGER record; ", PID: n" only when the pid global is set. */
  function InitMessage(level: Level, mode: Output, fileName: string, pid: int): (text: string)
    ensures "Severity: " + CapitalString(level) + ", Output: " + OutputString(mode) + ", FileName: " <= text
    ensures pid != 0 ==> EndsWith(text, ", PID: " + Itoa(pid))
    ensures pid == 0 ==> EndsWith(text, ", FileName: " + fileName)
    ensures var prefix := "Severity: " + CapitalString(level) + ", Output: " + OutputString(mode) + ", FileName: ";
      && |text| == |prefix| + |fileName| + (if pid != 0 then |", PID: " + Itoa(pid)| else 0)
      && text[|prefix|..|prefix| + |fileName|] == fileName
  {
    "Severity: " + CapitalString(level) + ", Output: " + OutputString(mode) + ", FileName: " + fileName
    + (if pid != 0 then ", PID: " + Itoa(pid) else "")
  }

  /** What a buffered Sync hands on: zap's Sync, the sync error to the
      standard logger if there is one, then the renderer's trace print. */
  function FlushEmissions(zapLogger: ZapLogger, pretty: Option<PrettyRenderer>, syncError: Option<string>): seq<Emission>
  {
    [ZapSync(zapLogger)]
    + (if syncError.Some? then [StdLog(syncError.value)] else [])
    + (if pretty.Some? then [PrettyTraces] else [])
  }

  predicate IsInitRecord(e: Emission)
  {
    e.ZapEntry? && e.message == "INIT_LOGGER"
  }

  /** The number of INIT_LOGGER records written through zap. */
  function CountInit(t: seq<Emission>): nat
  {
    if t == [] then 0 else CountInit(t[..|t| - 1]) + (if IsInitRecord(t[|t| - 1]) then 1 else 0)
  }

  lemma {:induction false} CountInitAppend(a: seq<Emission>, b: seq<Emission>)
    ensures CountInit(a + b) == CountInit(a) + CountInit(b)
  {
    if b == [] {
      assert a + b == a;
    } else {
      CountInitAppend(a, b[..|b| - 1]);
      assert (a + b)[..|a + b| - 1] == a + b[..|b| - 1];
    }
  }

  /** The setting globals of the root package, which the option setters
      write and newZapLogger and Init read. */
  datatype Settings = Settings(
    outputType: Output, version: string, severityLevel: Level, callerEncoder: Option<CallerEncoder>,
    consoleFields: seq<string>, omitKeys: seq<Key>, isStdOut: bool, separator: string,
    fileName: string, maxSize: int, maxBackups: int, maxAge: int, localTime: bool, compress: bool)
  {
    /** The settings newRotator reads. */
    function Rotation(): RotatorConfig
    {
      RotatorConfig(fileName, maxSize, maxAge, maxBackups, localTime, compress)
    }
  }

  /** The initial value of every setting (and what Cleanup restores). */
  const DefaultSettings := Settings(PrettyOutput, "", InfoLevel, None, [ConsoleFieldDefault], [], false, " : ",
                                    "", 0, 0, 0, false, false)

  /** `z` is the zap logger newZapLogger builds from settings `s`, given the
      git output, the hostname and the process id. */
  ghost predicate IsZapLoggerFor(s: Settings, z: ZapLogger, git: Option<string>, host: string, procId: int)
  {
    && (forall slot: Slot :: z.encoder.Get(slot) ==
          if Clears(s.omitKeys, LoggerKey, slot) then OmitKey else DefaultEncoder(ShortCallerEncoder).Get(slot))
    && z.encoder.encodeLevel == SeverityLevelEncoder
    && z.encoder.encodeCaller == GetCallerEncoder(s.callerEncoder)
    && Routes(s.outputType, GetConsoleOutput(s.isStdOut), s.Rotation(), z.sinks)
    && z.minLevel == s.severityLevel && z.callerSkip == 1 && z.stacktraceLevel == ErrorLevel
    && z.fields == AdditionalFields(s.omitKeys, GetVersion(s.version, git), host, procId)
    && z.names == []
  }

  /** One package-level emission adds one INIT_LOGGER record exactly when
      its message is INIT_LOGGER. */
  lemma CountInitPackage(before: seq<Emission>, pretty: Option<PrettyRenderer>, z: ZapLogger, level: Level,
                         message: string, call: Call, fields: seq<Field>)
    ensures CountInit(before + PackageEmissions(pretty, z, level, message, call, fields))
         == CountInit(before) + (if message == "INIT_LOGGER" then 1 else 0)
  {
    var rendered := PrettyCall(pretty, level, message, call, fields);
    var entry := [ZapEntry(z, level, message, CallFields(fields, call))];
    CountInitAppend(before, rendered + entry);
    CountInitAppend(rendered, entry);
    assert CountInit(rendered) == 0 by {
      if rendered != [] {
        assert rendered[..0] == [];
      }
    }
    assert entry[..0] == [];
  }

  /** The package globals of the root package. */
  class Globals {
    var initialized: bool  // the sync.Once guarding Init
    var pretty: Option<PrettyRenderer>
    var zapLogger: Option<ZapLogger>
    var settings: Settings
    var pid: int
    /** SyncWhenStop has started its signal-waiting goroutine. */
    var watchingSignals: bool
    /** What the package has handed to the renderer, zap and the standard logger, in order. */
    var emitted: seq<Emission>

    /** Init has run exactly when there is a zap logger; before it there is no renderer. */
    ghost predicate Valid()
      reads this
    {
      (initialized <==> zapLogger.Some?) && (!initialized ==> pretty.None?)
    }

    /** The package's initial state. */
    constructor ()
      ensures Valid() && !initialized && settings == DefaultSettings
      ensures pid == 0 && !watchingSignals && emitted == []
    {
      initialized, pretty, zapLogger := false, None, None;
      settings := DefaultSettings;
      pid := 0;
      watchingSignals, emitted := false, [];
    }

    /** Init: the body runs only when the guard is clear. It creates the
        renderer in Pretty mode only, builds the zap logger, and writes one
        INIT_LOGGER record at Debug level. A second call changes nothing. */
    method Init(git: Option<string>, host: string, procId: int)
      requires Valid() && procId > 0
      modifies this`initialized, this`pretty, this`zapLogger, this`pid, this`emitted
      ensures Valid() && initialized
      ensures old(initialized) ==>
        pretty == old(pretty) && zapLogger == old(zapLogger) && pid == old(pid) && emitted == old(emitted)
      ensures !old(initialized) ==> pretty == (if settings.outputType == PrettyOutput then Some(NewPrettyLogger()) else None)
      ensures !old(initialized) ==> IsZapLoggerFor(settings, zapLogger.value, git, host, procId)
      ensures !old(initialized) ==> pid == (if PIDKey in settings.omitKeys then old(pid) else procId)
      ensures !old(initialized) ==>
        emitted == old(emitted) + PackageEmissions(pretty, zapLogger.value, DebugLevel, "INIT_LOGGER", Plain,
                                                   [ConsoleField(InitMessage(settings.severityLevel, settings.outputType, settings.fileName, pid))])
      ensures CountInit(emitted) == CountInit(old(emitted)) + (if old(initialized) then 0 else 1)
    {
      if initialized {
        return;
      }
      RunInit(git, host, procId);
      CountInitPackage(old(emitted), pretty, zapLogger.value, DebugLevel, "INIT_LOGGER", Plain,
                       [ConsoleField(InitMessage(settings.severityLevel, settings.outputType, settings.fileName, pid))]);
    }

    /** The function Init's once-guard runs. */
    method RunInit(git: Option<string>, host: string, procId: int)
      requires Valid() && !initialized && procId > 0
      modifies this`initialized, this`pretty, this`zapLogger, this`pid, this`emitted
      ensures Valid() && initialized
      ensures pretty == (if settings.outputType == PrettyOutput then Some(NewPrettyLogger()) else None)
      ensures IsZapLoggerFor(settings, zapLogger.value, git, host, procId)
      ensures pid == (if PIDKey in settings.omitKeys then old(pid) else procId)
      ensures emitted == old(emitted) + PackageEmissions(pretty, zapLogger.value, DebugLevel, "INIT_LOGGER", Plain,
                                                         [ConsoleField(InitMessage(settings.severityLevel, settings.outputType, settings.fileName, pid))])
    {
      initialized := true;
      if settings.outputType == PrettyOutput {
        pretty := Some(NewPrettyLogger());
      }
      var z := NewZapLogger(git, host, procId);
      zapLogger := Some(z);
      Debug("INIT_LOGGER", [ConsoleField(InitMessage(settings.severityLevel, settings.outputType, settings.fileName, pid))]);
    }

    /** newZapLogger: the encoder with omitted keys cleared, the sinks of the
        mode, the minimum level, and the enrichment fields. */
    method NewZapLogger(git: Option<string>, host: string, procId: int) returns (z: ZapLogger)
      modifies this`pid
      ensures pid == (if PIDKey in settings.omitKeys then old(pid) else procId)
      ensures IsZapLoggerFor(settings, z, git, host, procId)
    {
      var enc := DefaultEncoder(GetCallerEncoder(settings.callerEncoder));
      enc := SetOmitKeys(enc, settings.omitKeys);
      var sinks := GetSyncers(settings.outputType, settings.isStdOut, settings.Rotation());
      var fields := GetAdditionalFields(git, host, procId);
      z := ZapLogger(enc, sinks, settings.severityLevel, 1, ErrorLevel, fields, []);
    }

    /** getAdditionalFields: appends version, hostname and pid unless omitted,
        and records the process id in the pid global only when pid is kept. */
    method GetAdditionalFields(git: Option<string>, host: string, procId: int) returns (fields: seq<Field>)
      modifies this`pid
      ensures fields == AdditionalFields(settings.omitKeys, GetVersion(settings.version, git), host, procId)
      ensures pid == (if PIDKey in settings.omitKeys then old(pid) else procId)
    {
      var v, h, p := StringField(VersionKey, GetVersion(settings.version, git)), StringField(HostnameKey, host), IntField(PIDKey, procId);
      UnomittedCons(v, [h, p], settings.omitKeys);
      UnomittedCons(h, [p], settings.omitKeys);
      UnomittedCons(p, [], settings.omitKeys);
      fields := [];
      if VersionKey !in settings.omitKeys {
        fields := fields + [v];
      }
      if HostnameKey !in settings.omitKeys {
        fields := fields + [h];
      }
      if PIDKey !in settings.omitKeys {
        pid := procId;
        fields := fields + [IntField(PIDKey, pid)];
      }
    }

    /** Sync: nothing unless the mode is Pretty or File; then zap's Sync, the
        sync error to the standard logger, and the renderer's traces. */
    method Sync(syncError: Option<string>)
      requires Valid()
      requires Buffered(settings.outputType) ==> initialized
      modifies this`emitted
      ensures !Buffered(settings.outputType) ==> emitted == old(emitted)
      ensures Buffered(settings.outputType) ==> emitted == old(emitted) + FlushEmissions(zapLogger.value, pretty, syncError)
    {
      if settings.outputType != PrettyOutput && settings.outputType != FileOutput {
        return;
      }
      emitted := emitted + [ZapSync(zapLogger.value)];
      if syncError.Some? {
        emitted := emitted + [StdLog(syncError.value)];
      }
      if pretty.Some? {
        emitted := emitted + [PrettyTraces];
      }
    }

    /** SyncWhenStop: starts the signal handler only in Pretty or File mode. */
    method SyncWhenStop()
      modifies this`watchingSignals
      ensures watchingSignals == (old(watchingSignals) || Buffered(settings.outputType))
    {
      if settings.outputType != PrettyOutput && settings.outputType != FileOutput {
        return;
      }
      watchingSignals := true;
    }

    /** The handler started by SyncWhenStop, once a signal arrives. Its
        Debug call passes through checkInit: when there is no zap logger
        (a signal before Init, or after Cleanup) log.Fatal ends the process
        with status 1. Otherwise a GOT_SIGNAL_<NAME> record at Debug level,
        Sync, and the exit status 128 plus the signal number. */
    method OnSignal(sig: Signal, syncError: Option<string>) returns (exitCode: int)
      requires Valid() && watchingSignals
      modifies this`emitted
      ensures !initialized ==> exitCode == 1 && emitted == old(emitted) + [StdLogFatal(NotInitializedText)]
      ensures initialized ==> exitCode == 128 + SignalNumber(sig)
      ensures initialized ==>
        emitted == old(emitted)
          + PackageEmissions(pretty, zapLogger.value, DebugLevel, "GOT_SIGNAL_" + ToUpper(SignalName(sig)), Plain, [])
          + (if Buffered(settings.outputType) then FlushEmissions(zapLogger.value, pretty, syncError) else [])
    {
      var name := SignalName(sig);
      if zapLogger.None? {
        emitted := emitted + [StdLogFatal(NotInitializedText)];
        exitCode := 1;
        return;
      }
      Debug("GOT_SIGNAL_" + ToUpper(name), []);
      Sync(syncError);
      exitCode := SignalExitCode(name);
      SignalExitCodeIsShellConvention(sig);
    }

    /** Cleanup: every setting back to its initial value, the guard cleared
        and the logger and renderer dropped. The pid global, the signal
        handler and what was already written are not touched. */
    method Cleanup()
      modifies this`initialized, this`pretty, this`zapLogger, this`settings
      ensures Valid() && !initialized && settings == DefaultSettings
    {
      initialized := false;
      pretty := None;
      zapLogger := None;
      settings := DefaultSettings;
    }

    // ------------------------------------------------ package-level functions of logger.go
    // checkInit ends the process when there is no zap logger: every one of
    // them requires that Init has run.

    /** logger: checkInit, render if there is a renderer, return the zap logger. */
    method Render(message: string, level: Level, fields: seq<Field>) returns (z: ZapLogger)
      requires Valid() && initialized
      modifies this`emitted
      ensures z == zapLogger.value
      ensures emitted == old(emitted) + PrettyCall(pretty, level, message, Plain, fields)
    {
      emitted := emitted + PrettyCall(pretty, level, message, Plain, fields);
      z := zapLogger.value;
    }

    /** loggerErr: as Render, with the error handed to the renderer apart. */
    method RenderErr(message: string, level: Level, err: GoError, fields: seq<Field>) returns (z: ZapLogger)
      requires Valid() && initialized
      modifies this`emitted
      ensures z == zapLogger.value
      ensures emitted == old(emitted) + PrettyCall(pretty, level, message, WithError(err), fields)
    {
      emitted := emitted + PrettyCall(pretty, level, message, WithError(err), fields);
      z := zapLogger.value;
    }

    /** iLogger: as Render, but returning the internal logger (a global
        defined outside this model, passed in). */
    method RenderInternal(message: string, level: Level, fields: seq<Field>, internalLogger: ZapLogger)
      returns (z: ZapLogger)
      requires Valid() && initialized
      modifies this`emitted
      ensures z == internalLogger
      ensures emitted == old(emitted) + PrettyCall(pretty, level, message, Plain, fields)
    {
      emitted := emitted + PrettyCall(pretty, level, message, Plain, fields);
      z := internalLogger;
    }

    method Debug(message: string, fields: seq<Field>)
      requires Valid() && initialized
      modifies this`emitted
      ensures emitted == old(emitted) + PackageEmissions(pretty, zapLogger.value, DebugLevel, message, Plain, fields)
    {
      var z := Render(message, DebugLevel, fields);
      emitted := emitted + [ZapEntry(z, DebugLevel, message, fields)];
    }

    method Info(message: string, fields: seq<Field>)
      requires Valid() && initialized
      modifies this`emitted
      ensures emitted == old(emitted) + PackageEmissions(pretty, zapLogger.value, InfoLevel, message, Plain, fields)
    {
      var z := Render(message, InfoLevel, fields);
      emitted := emitted + [ZapEntry(z, InfoLevel, message, fields)];
    }

    method Warn(message: string, fields: seq<Field>)
      requires Valid() && initialized
      modifies this`emitted
      ensures emitted == old(emitted) + PackageEmissions(pretty, zapLogger.value, WarnLevel, message, Plain, fields)
    {
      var z := Render(message, WarnLevel, fields);
      emitted := emitted + [ZapEntry(z, WarnLevel, message, fields)];
    }

    method Error(message: string, fields: seq<Field>)
      requires Valid() && initialized
      modifies this`emitted
      ensures emitted == old(emitted) + PackageEmissions(pretty, zapLogger.value, ErrorLevel, message, Plain, fields)
    {
      var z := Render(message, ErrorLevel, fields);
      emitted := emitted + [ZapEntry(z, ErrorLevel, message, fields)];
    }

    /** Fatal: zap's Fatal, after which zap ends the process. */
    method Fatal(message: string, fields: seq<Field>)
      requires Valid() && initialized
      modifies this`emitted
      ensures emitted == old(emitted) + PackageEmissions(pretty, zapLogger.value, FatalLevel, message, Plain, fields)
    {
      var z := Render(message, FatalLevel, fields);
      emitted := emitted + [ZapEntry(z, FatalLevel, message, fields)];
    }

    method DebugErr(message: string, err: GoError, fields: seq<Field>)
      requires Valid() && initialized
      modifies this`emitted
      ensures emitted == old(emitted) + PackageEmissions(pretty, zapLogger.value, DebugLevel, message, WithError(err), fields)
    {
      var z := RenderErr(message, DebugLevel, err, fields);
      emitted := emitted + [ZapEntry(z, DebugLevel, message, fields + [ZapError(err)])];
    }

    method InfoErr(message: string, err: GoError, fields: seq<Field>)
      requires Valid() && initialized
      modifies this`emitted
      ensures emitted == old(emitted) + PackageEmissions(pretty, zapLogger.value, InfoLevel, message, WithError(err), fields)
    {
      var z := RenderErr(message, InfoLevel, err, fields);
      emitted := emitted + [ZapEntry(z, InfoLevel, message, fields + [ZapError(err)])];
    }

    method WarnErr(message: string, err: GoError, fields: seq<Field>)
      requires Valid() && initialized
      modifies this`emitted
      ensures emitted == old(emitted) + PackageEmissions(pretty, zapLogger.value, WarnLevel, message, WithError(err), fields)
    {
      var z := RenderErr(message, WarnLevel, err, fields);
      emitted := emitted + [ZapEntry(z, WarnLevel, message, fields + [ZapError(err)])];
    }

    method ErrorErr(message: string, err: GoError, fields: seq<Field>)
      requires Valid() && initialized
      modifies this`emitted
      ensures emitted == old(emitted) + PackageEmissions(pretty, zapLogger.value, ErrorLevel, message, WithError(err), fields)
    {
      var z := RenderErr(message, ErrorLevel, err, fields);
      emitted := emitted + [ZapEntry(z, ErrorLevel, message, fields + [ZapError(err)])];
    }

    /** Err: the same emission as ErrorErr. */
    method Err(message: string, err: GoError, fields: seq<Field>)
      requires Valid() && initialized
      modifies this`emitted
      ensures emitted == old(emitted) + PackageEmissions(pretty, zapLogger.value, ErrorLevel, message, WithError(err), fields)
    {
      var z := RenderErr(message, ErrorLevel, err, fields);
      emitted := emitted + [ZapEntry(z, ErrorLevel, message, fields + [ZapError(err)])];
    }

    /** ErrRet: one Error-level emission with the error field, and the error
        returned unchanged. */
    method ErrRet(message: string, err: GoError, fields: seq<Field>) returns (r: GoError)
      requires Valid() && initialized
      modifies this`emitted
      ensures r == err
      ensures emitted == old(emitted) + PackageEmissions(pretty, zapLogger.value, ErrorLevel, message, WithError(err), fields)
    {
      var z := RenderErr(message, ErrorLevel, err, fields);
      emitted := emitted + [ZapEntry(z, ErrorLevel, message, fields + [ZapError(err)])];
      r := err;
    }

    /** FatalErr: zap's Fatal with the error field. */
    method FatalErr(message: string, err: GoError, fields: seq<Field>)
      requires Valid() && initialized
      modifies this`emitted
      ensures emitted == old(emitted) + PackageEmissions(pretty, zapLogger.value, FatalLevel, message, WithError(err), fields)
    {
      var z := RenderErr(message, FatalLevel, err, fields);
      emitted := emitted + [ZapEntry(z, FatalLevel, message, fields + [ZapError(err)])];
    }

    /** Dump: checkInit, then the renderer's dump of the values (shown as text). */
    method Dump(values: seq<string>)
      requires Valid() && initialized
      modifies this`emitted
      ensures emitted == old(emitted) + (if pretty.Some? then [PrettyDump(values)] else [])
    {
      if pretty.Some? {
        emitted := emitted + [PrettyDump(values)];
      }
    }

    /** iDebug: a Debug emission through the internal logger. */
    method IDebug(message: string, fields: seq<Field>, internalLogger: ZapLogger)
      requires Valid() && initialized
      modifies this`emitted
      ensures emitted == old(emitted) + PackageEmissions(pretty, internalLogger, DebugLevel, message, Plain, fields)
    {
      var z := RenderInternal(message, DebugLevel, fields, internalLogger);
      emitted := emitted + [ZapEntry(z, DebugLevel, message, fields)];
    }
  }

  /** Cleanup leaves the pid global alone: after Init, Cleanup, omitting the
      pid key and Init again, the INIT_LOGGER record still reports the first
      process id, although the zap logger no longer carries a pid field. */
  method PidSurvivesCleanup(git: Option<string>, host: string, procId: int) returns (last: Emission)
    requires procId > 0
    ensures last.ZapEntry? && last.message == "INIT_LOGGER"
    ensures last.fields == [ConsoleField(InitMessage(InfoLevel, PrettyOutput, "", procId))]
    ensures forall f :: f in last.logger.fields ==> f != IntField(PIDKey, procId)
  {
    var g := new Globals();
    g.Init(git, host, procId);
    g.Cleanup();
    g.settings := g.settings.(omitKeys := [PIDKey]);
    g.Init(git, host, procId);
    last := g.emitted[|g.emitted| - 1];
  }
}
