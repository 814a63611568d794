/** The collaborators the zl logger hands data to, as opaque values: zap's
    levels, fields, encoder configuration and logger handle, the rotating
    file writer, the pretty console renderer and the standard library `log`
    package. The model records what is handed to them (an Emission), never
    what they then do with it. */
module Zap {
  import opened Wrappers

  /** zapcore.Level, in increasing severity. */
  datatype Level = DebugLevel | InfoLevel | WarnLevel | ErrorLevel | DPanicLevel | PanicLevel | FatalLevel

  /** zapcore.Level.CapitalString, also what zapcore.CapitalLevelEncoder writes. */
  function CapitalString(l: Level): string
  {
    match l
    case DebugLevel => "DEBUG"
    case InfoLevel => "INFO"
    case WarnLevel => "WARN"
    case ErrorLevel => "ERROR"
    case DPanicLevel => "DPANIC"
    case PanicLevel => "PANIC"
    case FatalLevel => "FATAL"
  }

  /** A Go `error` value; NilError is the nil interface. */
  datatype GoError = NilError | ErrorValue(message: string)

  /** A zap.Field as the logger builds or forwards it. */
  datatype Field =
    | StringField(key: string, str: string)  // zap.String
    | IntField(key: string, num: int)        // zap.Int
    | ErrorField(key: string, err: GoError)  // zap.NamedError, built by zap.Error for a non-nil error
    | ConsoleField(text: string)             // the package's Console(...) helper, kept as its argument
    | SkipField                              // zap.Skip, what zap.Error(nil) returns
    | AnyField(key: string, repr: string)    // any other caller-supplied field

  /** The key under which a field is encoded, when the model knows it. */
  function KeyOf(f: Field): Option<string>
  {
    match f
    case StringField(k, _) => Some(k)
    case IntField(k, _) => Some(k)
    case ErrorField(k, _) => Some(k)
    case AnyField(k, _) => Some(k)
    case ConsoleField(_) => None
    case SkipField => None
  }

  /** zap.Error: the field "error" carrying the error, or no field at all for nil. */
  function ZapError(err: GoError): (f: Field)
    ensures f.SkipField? <==> err.NilError?
    ensures err.ErrorValue? ==> f == ErrorField("error", err)
  {
    if err.NilError? then SkipField else ErrorField("error", err)
  }

  /** The seven named keys of zapcore.EncoderConfig. */
  datatype Slot = MessageSlot | LevelSlot | TimeSlot | NameSlot | CallerSlot | FunctionSlot | StacktraceSlot

  /** zapcore.OmitKey: a key set to it is dropped from every record. */
  const OmitKey: string := ""

  /** The level renderer: zapcore.CapitalLevelEncoder, or the root package's own encodeLevel. */
  datatype LevelEncoder = CapitalLevelEncoder | SeverityLevelEncoder

  /** The caller renderer: zapcore.ShortCallerEncoder, or one built by
      buildRepositoryCallerEncoder from a source root and a repository URL. */
  datatype CallerEncoder = ShortCallerEncoder | RepositoryCallerEncoder(dir: string, url: string)

  /** zapcore.EncoderConfig; the time and duration encoders are the same
      constants in both packages and are left out. */
  datatype EncoderConfig = EncoderConfig(
    messageKey: string, levelKey: string, timeKey: string, nameKey: string,
    callerKey: string, functionKey: string, stacktraceKey: string,
    encodeLevel: LevelEncoder, encodeCaller: CallerEncoder)
  {
    function Get(s: Slot): string
    {
      match s
      case MessageSlot => messageKey
      case LevelSlot => levelKey
      case TimeSlot => timeKey
      case NameSlot => nameKey
      case CallerSlot => callerKey
      case FunctionSlot => functionKey
      case StacktraceSlot => stacktraceKey
    }
  }

  /** The settings the rotating file writer is built from. */
  datatype RotatorConfig = RotatorConfig(
    fileName: string, maxSize: int, maxAge: int, maxBackups: int, localTime: bool, compress: bool)

  /** A write syncer: standard output, standard error, or a rotating file. */
  datatype Sink = Stdout | Stderr | Rotator(config: RotatorConfig)

  /** A *zap.Logger, as the record of everything it was built from: the
      encoder, the sinks in order, the minimum level, the caller skip, the
      level from which stack traces are captured, the fields added with With,
      and the names added with Named. */
  datatype ZapLogger = ZapLogger(
    encoder: EncoderConfig, sinks: seq<Sink>, minLevel: Level, callerSkip: nat,
    stacktraceLevel: Level, fields: seq<Field>, names: seq<string>)
  {
    /** zap.Logger.Named: a logger with one more name segment. */
    function Named(name: string): ZapLogger
    {
      this.(names := names + [name])
    }
  }

  /** The pretty console renderer; only its line prefix is visible to the model. */
  datatype PrettyRenderer = PrettyRenderer(prefix: string)

  /** newPrettyLogger, whose definition is not part of this model. */
  function NewPrettyLogger(): PrettyRenderer
  {
    PrettyRenderer("")
  }

  /** One request handed to a collaborator. */
  datatype Emission =
    | PrettyLog(prefix: string, level: Level, message: string, fields: seq<Field>)
    | PrettyLogWithError(prefix: string, level: Level, message: string, err: GoError, fields: seq<Field>)
    | PrettyDump(values: seq<string>)
    | PrettyTraces
    | ZapEntry(logger: ZapLogger, level: Level, message: string, fields: seq<Field>)
    | ZapSync(logger: ZapLogger)
    | StdLog(text: string)       // log.Print / log.Println
    | StdLogFatal(text: string)  // log.Fatalf, after which the process exits

  predicate IsPretty(e: Emission)
  {
    e.PrettyLog? || e.PrettyLogWithError? || e.PrettyDump? || e.PrettyTraces?
  }
}
