/** The logger facade of logger.go: how the call fields, the error field and
    a Logger's persistent fields are merged, which level reaches the pretty
    renderer and which reaches zap, and the Logger class whose methods hand a
    record to the pretty renderer and then to zap. The package-level
    functions of logger.go read the package globals and are methods of
    Zl.Globals. */
module Facade {
  import opened Wrappers
  import opened Zap

  /** A plain emission, or one of the *Err family carrying an error. */
  datatype Call = Plain | WithError(err: GoError)

  /** The fields a package-level function gives zap: the call fields, then
      zap.Error(err) for the *Err family. */
  function CallFields(fields: seq<Field>, call: Call): seq<Field>
  {
    match call
    case Plain => fields
    case WithError(err) => fields + [ZapError(err)]
  }

  /** What `logger` / `loggerErr` hand the pretty renderer: nothing when there
      is none, otherwise log or logWithError with the requested level. */
  function PrettyCall(pretty: Option<PrettyRenderer>, level: Level, message: string,
                      call: Call, fields: seq<Field>): seq<Emission>
  {
    match pretty
    case None => []
    case Some(p) =>
      if call.Plain? then [PrettyLog(p.prefix, level, message, fields)]
      else [PrettyLogWithError(p.prefix, level, message, call.err, fields)]
  }

  /** The zap method a Logger method calls: Logger.Error and Logger.Fatal call
      zap's Warn; every other Logger method calls the method of its own level. */
  function LoggerZapLevel(level: Level, call: Call): (zapLevel: Level)
    ensures zapLevel == FatalLevel <==> level == FatalLevel && call.WithError?
    ensures zapLevel == level || (call.Plain? && zapLevel == WarnLevel)
    ensures call.WithError? ==> zapLevel == level
    ensures level != ErrorLevel && level != FatalLevel ==> zapLevel == level
    ensures call.Plain? && (level == ErrorLevel || level == FatalLevel) ==> zapLevel == WarnLevel
  {
    if call.Plain? && (level == ErrorLevel || level == FatalLevel) then WarnLevel else level
  }

  /** The field list of a Logger method: call fields, then the error field,
      then the logger's persistent fields. */
  function MergedFields(fields: seq<Field>, call: Call, persistent: seq<Field>): (merged: seq<Field>)
    ensures |merged| == |fields| + |persistent| + (if call.WithError? then 1 else 0)
    ensures merged[..|fields|] == fields
    ensures merged[|merged| - |persistent|..] == persistent
    ensures call.WithError? ==> merged[|fields|] == ZapError(call.err)
  {
    match call
    case Plain => fields + persistent
    case WithError(err) => fields + [ZapError(err)] + persistent
  }

  /** What one Logger method hands its collaborators, in order. */
  function LoggerEmissions(pretty: Option<PrettyRenderer>, zapLogger: ZapLogger, persistent: seq<Field>,
                           level: Level, message: string, call: Call, fields: seq<Field>): seq<Emission>
  {
    var merged := MergedFields(fields, call, persistent);
    PrettyCall(pretty, level, message, call, merged) + [ZapEntry(zapLogger, LoggerZapLevel(level, call), message, merged)]
  }

  /** What one package-level function hands its collaborators, in order: the
      pretty renderer gets the call fields (and the error apart), zap gets the
      call fields followed by the error field, at the same level. */
  function PackageEmissions(pretty: Option<PrettyRenderer>, zapLogger: ZapLogger,
                            level: Level, message: string, call: Call, fields: seq<Field>): seq<Emission>
  {
    PrettyCall(pretty, level, message, call, fields) + [ZapEntry(zapLogger, level, message, CallFields(fields, call))]
  }

  /** A Logger method hands zap exactly: the call fields, then the error field
      (for the *Err family), then the persistent fields; the pretty renderer
      gets the same list. */
  lemma LoggerFieldOrder(pretty: Option<PrettyRenderer>, zapLogger: ZapLogger, persistent: seq<Field>,
                         level: Level, message: string, call: Call, fields: seq<Field>)
    ensures var r := LoggerEmissions(pretty, zapLogger, persistent, level, message, call, fields);
      var z := r[|r| - 1].fields;
      && |z| == |fields| + |persistent| + (if call.WithError? then 1 else 0)
      && z[..|fields|] == fields
      && z[|z| - |persistent|..] == persistent
      && (call.WithError? ==> z[|fields|] == ZapError(call.err))
      && (pretty.Some? ==> r[0].fields == z)
  {
  }

  /** Only FatalErr reaches zap's Fatal (which ends the process): Logger.Fatal
      and Logger.Error are written by zap at Warn level, while the pretty
      renderer still sees Fatal and Error. */
  lemma LoggerFatalOnlyWithError(pretty: Option<PrettyRenderer>, zapLogger: ZapLogger, persistent: seq<Field>,
                                 level: Level, message: string, call: Call, fields: seq<Field>)
    ensures var r := LoggerEmissions(pretty, zapLogger, persistent, level, message, call, fields);
      && (r[|r| - 1].level == FatalLevel <==> level == FatalLevel && call.WithError?)
      && (call.Plain? && (level == ErrorLevel || level == FatalLevel) ==> r[|r| - 1].level == WarnLevel)
      && (pretty.Some? ==> r[0].level == level)
  {
  }

  /** The renderer is asked first, zap last, and the renderer only when there is one. */
  lemma PrettyBeforeZap(pretty: Option<PrettyRenderer>, zapLogger: ZapLogger, persistent: seq<Field>,
                        level: Level, message: string, call: Call, fields: seq<Field>)
    ensures var r := LoggerEmissions(pretty, zapLogger, persistent, level, message, call, fields);
      |r| == (if pretty.Some? then 2 else 1) && r[|r| - 1].ZapEntry? && (pretty.Some? ==> IsPretty(r[0]))
    ensures var r := PackageEmissions(pretty, zapLogger, level, message, call, fields);
      |r| == (if pretty.Some? then 2 else 1) && r[|r| - 1].ZapEntry? && (pretty.Some? ==> IsPretty(r[0]))
  {
  }

  /** A package-level *Err function gives zap the call fields plus the error
      field, but gives the renderer the call fields and the error apart. */
  lemma PackageErrorSplit(pretty: Option<PrettyRenderer>, zapLogger: ZapLogger,
                          level: Level, message: string, err: GoError, fields: seq<Field>)
    ensures var r := PackageEmissions(pretty, zapLogger, level, message, WithError(err), fields);
      && r[|r| - 1] == ZapEntry(zapLogger, level, message, fields + [ZapError(err)])
      && (pretty.Some? ==> r[0] == PrettyLogWithError(pretty.value.prefix, level, message, err, fields))
  {
  }

  /** A logger created with New: its own pretty renderer, a zap logger and
      persistent fields attached to every emission. */
  class Logger {
    var pretty: Option<PrettyRenderer>
    var zapLogger: ZapLogger
    var fields: seq<Field>
    /** What this logger has handed to its pretty renderer and to zap, in order. */
    var emitted: seq<Emission>

    /** New: a fresh pretty renderer, the zap logger that the package's
        newLogger builds (its definition is not part of this model, so it is a
        parameter) and the given persistent fields. */
    constructor New(zapLogger: ZapLogger, fields: seq<Field>)
      ensures pretty == Some(NewPrettyLogger())
      ensures this.zapLogger == zapLogger && this.fields == fields && emitted == []
    {
      pretty := Some(NewPrettyLogger());
      this.zapLogger := zapLogger;
      this.fields := fields;
      emitted := [];
    }

    /** Named changes this logger and returns it: the renderer's prefix becomes
        "name | ", zap gets one more name, the persistent fields stay. */
    method Named(loggerName: string) returns (r: Logger)
      modifies this`pretty, this`zapLogger
      ensures r == this
      ensures pretty == (if old(pretty).Some? then Some(old(pretty).value.(prefix := loggerName + " | ")) else None)
      ensures zapLogger == old(zapLogger).Named(loggerName)
    {
      if pretty.Some? {
        pretty := Some(pretty.value.(prefix := loggerName + " | "));
      }
      zapLogger := zapLogger.Named(loggerName);
      r := this;
    }

    /** logger: render with the pretty renderer if there is one, and return the zap logger. */
    method Render(message: string, level: Level, fields: seq<Field>) returns (z: ZapLogger)
      modifies this`emitted
      ensures z == zapLogger
      ensures emitted == old(emitted) + PrettyCall(pretty, level, message, Plain, fields)
    {
      emitted := emitted + PrettyCall(pretty, level, message, Plain, fields);
      z := zapLogger;
    }

    /** loggerErr: as Render, with the error handed to the renderer apart. */
    method RenderErr(message: string, level: Level, err: GoError, fields: seq<Field>) returns (z: ZapLogger)
      modifies this`emitted
      ensures z == zapLogger
      ensures emitted == old(emitted) + PrettyCall(pretty, level, message, WithError(err), fields)
    {
      emitted := emitted + PrettyCall(pretty, level, message, WithError(err), fields);
      z := zapLogger;
    }

    method Debug(message: string, fields: seq<Field>)
      modifies this`emitted
      ensures emitted == old(emitted) + LoggerEmissions(pretty, zapLogger, this.fields, DebugLevel, message, Plain, fields)
    {
      var merged := fields + this.fields;
      var z := Render(message, DebugLevel, merged);
      emitted := emitted + [ZapEntry(z, DebugLevel, message, merged)];
    }

    method Info(message: string, fields: seq<Field>)
      modifies this`emitted
      ensures emitted == old(emitted) + LoggerEmissions(pretty, zapLogger, this.fields, InfoLevel, message, Plain, fields)
    {
      var merged := fields + this.fields;
      var z := Render(message, InfoLevel, merged);
      emitted := emitted + [ZapEntry(z, InfoLevel, message, merged)];
    }

    method Warn(message: string, fields: seq<Field>)
      modifies this`emitted
      ensures emitted == old(emitted) + LoggerEmissions(pretty, zapLogger, this.fields, WarnLevel, message, Plain, fields)
    {
      var merged := fields + this.fields;
      var z := Render(message, WarnLevel, merged);
      emitted := emitted + [ZapEntry(z, WarnLevel, message, merged)];
    }

    /** Error: the renderer sees ErrorLevel, zap is called with Warn. */
    method Error(message: string, fields: seq<Field>)
      modifies this`emitted
      ensures emitted == old(emitted) + LoggerEmissions(pretty, zapLogger, this.fields, ErrorLevel, message, Plain, fields)
    {
      var merged := fields + this.fields;
      var z := Render(message, ErrorLevel, merged);
      emitted := emitted + [ZapEntry(z, WarnLevel, message, merged)];
    }

    /** Fatal: the renderer sees FatalLevel, zap is called with Warn, so the process goes on. */
    method Fatal(message: string, fields: seq<Field>)
      modifies this`emitted
      ensures emitted == old(emitted) + LoggerEmissions(pretty, zapLogger, this.fields, FatalLevel, message, Plain, fields)
    {
      var merged := fields + this.fields;
      var z := Render(message, FatalLevel, merged);
      emitted := emitted + [ZapEntry(z, WarnLevel, message, merged)];
    }

    method DebugErr(message: string, err: GoError, fields: seq<Field>)
      modifies this`emitted
      ensures emitted == old(emitted) + LoggerEmissions(pretty, zapLogger, this.fields, DebugLevel, message, WithError(err), fields)
    {
      var merged := fields + [ZapError(err)] + this.fields;
      var z := RenderErr(message, DebugLevel, err, merged);
      emitted := emitted + [ZapEntry(z, DebugLevel, message, merged)];
    }

    method InfoErr(message: string, err: GoError, fields: seq<Field>)
      modifies this`emitted
      ensures emitted == old(emitted) + LoggerEmissions(pretty, zapLogger, this.fields, InfoLevel, message, WithError(err), fields)
    {
      var merged := fields + [ZapError(err)] + this.fields;
      var z := RenderErr(message, InfoLevel, err, merged);
      emitted := emitted + [ZapEntry(z, InfoLevel, message, merged)];
    }

    method WarnErr(message: string, err: GoError, fields: seq<Field>)
      modifies this`emitted
      ensures emitted == old(emitted) + LoggerEmissions(pretty, zapLogger, this.fields, WarnLevel, message, WithError(err), fields)
    {
      var merged := fields + [ZapError(err)] + this.fields;
      var z := RenderErr(message, WarnLevel, err, merged);
      emitted := emitted + [ZapEntry(z, WarnLevel, message, merged)];
    }

    method ErrorErr(message: string, err: GoError, fields: seq<Field>)
      modifies this`emitted
      ensures emitted == old(emitted) + LoggerEmissions(pretty, zapLogger, this.fields, ErrorLevel, message, WithError(err), fields)
    {
      var merged := fields + [ZapError(err)] + this.fields;
      var z := RenderErr(message, ErrorLevel, err, merged);
      emitted := emitted + [ZapEntry(z, ErrorLevel, message, merged)];
    }

    /** Err: the same emission as ErrorErr. */
    method Err(message: string, err: GoError, fields: seq<Field>)
      modifies this`emitted
      ensures emitted == old(emitted) + LoggerEmissions(pretty, zapLogger, this.fields, ErrorLevel, message, WithError(err), fields)
    {
      var merged := fields + [ZapError(err)] + this.fields;
      var z := RenderErr(message, ErrorLevel, err, merged);
      emitted := emitted + [ZapEntry(z, ErrorLevel, message, merged)];
    }

    /** ErrRet: logs like ErrorErr and returns the error it was given. */
    method ErrRet(message: string, err: GoError, fields: seq<Field>) returns (r: GoError)
      modifies this`emitted
      ensures r == err
      ensures emitted == old(emitted) + LoggerEmissions(pretty, zapLogger, this.fields, ErrorLevel, message, WithError(err), fields)
    {
      var merged := fields + [ZapError(err)] + this.fields;
      var z := RenderErr(message, ErrorLevel, err, merged);
      emitted := emitted + [ZapEntry(z, ErrorLevel, message, merged)];
      r := err;
    }

    /** FatalErr: the one Logger method that calls zap's Fatal. */
    method FatalErr(message: string, err: GoError, fields: seq<Field>)
      modifies this`emitted
      ensures emitted == old(emitted) + LoggerEmissions(pretty, zapLogger, this.fields, FatalLevel, message, WithError(err), fields)
    {
      var merged := fields + [ZapError(err)] + this.fields;
      var z := RenderErr(message, FatalLevel, err, merged);
      emitted := emitted + [ZapEntry(z, FatalLevel, message, merged)];
    }
  }
}
