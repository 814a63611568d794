# zl — a verified model of the zap-lightning logging wrapper

zap-lightning (package `zl`) wraps zap to give Go programs structured JSON
logs. It adds a coloured "pretty" console view in development. The package
keeps its configuration in package globals. `Init` turns them once into a
zap logger whose encoder, sinks and enrichment fields (version, hostname,
pid) come from those settings. Every emission goes to the pretty renderer
first and to zap second. A `Logger` made with `New` carries persistent
fields that are appended to every call. The repository has two versions of
the package:

- the root package (`zl.go`, `logger.go`);
- the older `zl/` sub-package (`zl/zl.go`, `zl/options.go`).

This project models both.

Modules:

- `Wrappers`: `Option`.
- `GoStrings`: the Go string functions the package relies on: `strings.Replace(s, old, new, 1)`, `strings.TrimRight(s, "\n")`, ASCII `strings.ToUpper`, and `%d` formatting.
- `Zap`: zap and the other collaborators, as opaque values. These are levels, fields, the encoder configuration, sinks, the logger handle, and the pretty renderer. It also defines the `Emission` records: what is handed to the renderer, to zap or to Go's standard logger.
- `ZlCommon`: what both package versions share. This is the key names, the output-mode table and its parser, the version fallback, the caller-encoder choice and the repository caller URL, the signal exit status, the enrichment-field filter, and the predicate `Routes` that says which sinks a mode gets.
- `Facade`: the field merging and level routing of `logger.go`, and the `Logger` class.
- `Zl`: the root package's globals as a class, `Globals`. It holds the once-guarded `Init`, the zap-logger builder, `Sync`, the signal handler, `Cleanup` and the package-level functions of `logger.go`. Every one of those functions requires that `Init` has run, as `checkInit` demands.
- `ZlLegacy`: the `zl/` sub-package's globals as a class, with its `Init`, builder, `Sync`, signal handler and the option setters of `zl/options.go`.

Each globals object and each `Logger` keeps an `emitted` sequence. It is the
ordered record of what was handed to the pretty renderer, to zap and to the
standard logger, so both order and content can be stated. The setting globals
of each package are grouped in one `Settings` value. Each setter replaces
exactly one component of it, and `Cleanup` restores `DefaultSettings`.
External facts are parameters of the operations that use them:

- the output of `git rev-parse --short HEAD`, an `Option`;
- the hostname;
- the process id;
- the result of zap's level parser;
- the error zap's `Sync` reports;
- the signal received.

## Model

| member | source | states |
|---|---|---|
| GoStrings.ReplaceFirst | zl/options.go:118 | `strings.Replace(s, old, new, 1)`. With no occurrence the string is unchanged. Otherwise the first occurrence, and only that one, is replaced. An empty target inserts the replacement at the front. |
| GoStrings.ReplaceFirstAtStart | zl/options.go:118 | When the target is a prefix, the replacement takes the place of that prefix. |
| GoStrings.TrimRightNewlines | zl.go:145 | `strings.TrimRight(out, "\n")`. The result is a prefix of the input, and everything removed is newlines. The result does not end in a newline. |
| GoStrings.ToUpper | zl.go:183 | Same length, and every character upper-cased position by position. |
| GoStrings.NatToDecimal | zl.go:48 | The decimal text of a number is non-empty, made of digits only, and has no leading zero. |
| GoStrings.DecimalRoundTrip | zl.go:48 | Reading back the decimal text of `n` gives `n`. |
| GoStrings.Itoa | zl.go:48 | `%d` of an int is non-empty and starts with '-' exactly when the number is negative. |
| GoStrings.ItoaValue | zl.go:48 | After the optional minus sign, `%d` writes only digits, and they denote the absolute value of the number. |
| ZlCommon.ParseOutput | zl/options.go:74-90 | The string-to-mode lookup: `""` gives Pretty and a table name gives its mode. The result is absent exactly when the string is non-empty and names no mode. |
| ZlCommon.OutputString | zl/options.go:58-67 | `Output.String`: Pretty, ConsoleAndFile, Console and File by mode. |
| ZlCommon.OutputRoundTrip | zl/options.go:58-67 | Parsing `o.String()` gives back `o` for every mode. |
| ZlCommon.OutputStringInjective | zl/options.go:58-63 | Distinct modes have distinct names. |
| ZlCommon.GetVersion | zl.go:140-149 | The explicit version if non-empty. Otherwise the git output with trailing newlines trimmed, if git succeeded. Otherwise "undefined". |
| ZlCommon.GetCallerEncoder | zl.go:198-203 | The configured caller encoder if there is one, otherwise the short caller encoder. |
| ZlCommon.FormatUrl | zl/options.go:111 | `fmt.Sprintf(urlFormat, rev)`. The first "%s" is replaced by the revision. A format without "%s" gets Go's "%!(EXTRA string=rev)" suffix. |
| ZlCommon.RepositoryCaller | zl/options.go:115-121 | What the repository encoder writes. The file's first occurrence of the source root is replaced by the URL, followed by "#L" and the line. A file without the root is written unchanged, followed by "#L" and the line. |
| ZlCommon.RepositoryCallerUnderRoot | zl/options.go:115-121 | For a file under the source root, the root prefix becomes the URL. |
| ZlCommon.SignalExitCode | zl.go:175-185 | The exit status for a signal name lies in 128..143 and is 128 for any name other than interrupt and terminated. |
| ZlCommon.SignalExitCodeIsShellConvention | zl/zl.go:141-151 | The exit status is 128 plus the signal number: 130 for interrupt and 143 for terminated. |
| ZlCommon.Unomitted | zl.go:124-136 | The enrichment filter keeps exactly the fields whose key is not omitted, and nothing longer than its input. |
| ZlCommon.UnomittedAppend | zl.go:124-136 | The filter keeps the order: filtering a concatenation gives the filtered parts, concatenated. |
| ZlCommon.RoutesDetermineSinks | zl.go:205-215 | The routing rule fixes the sink list completely, order included. |
| ZlCommon.RoutesSeparateConsoleAndFile | zl.go:205-215 | Console mode never writes to the file and File mode never writes to the console. |
| Facade.MergedFields | logger.go:36-92 | A Logger method's field list has the call fields first, then zap.Error(err) for the `*Err` methods, then the persistent fields, and nothing else. |
| Facade.LoggerZapLevel | logger.go:37-93 | The zap level a Logger method uses is Fatal only for FatalErr. Plain Error and Fatal become Warn. Every other method, plain or with an error, keeps its level. |
| Facade.LoggerFieldOrder | logger.go:35-94 | A Logger method hands zap the call fields, then the error field (for the `*Err` methods), then the persistent fields. The renderer gets the same list. |
| Facade.LoggerFatalOnlyWithError | logger.go:50-94 | Only `FatalErr` (lines 91-94) reaches zap at Fatal level. `Error` and `Fatal` (lines 50-58) reach zap at Warn, while the renderer sees the requested level. |
| Facade.PrettyBeforeZap | logger.go:96-108 | The renderer is called before zap, and only when there is a renderer. |
| Facade.PackageErrorSplit | logger.go:136-169 | A package-level `*Err` function gives zap the call fields plus the error field. It gives the renderer the call fields and the error separately. |
| Facade.Logger.New | logger.go:19-25 | A new Logger has a renderer, the given zap logger and the given persistent fields. |
| Facade.Logger.Named | logger.go:27-33 | Returns the same receiver. The renderer prefix becomes "name \| " when there is a renderer, and zap gets the name. The persistent fields are outside the frame, so they stay unchanged. |
| Facade.Logger.Render | logger.go:96-101 | Renders a plain record when there is a renderer and returns the logger's zap handle. |
| Facade.Logger.RenderErr | logger.go:103-108 | Renders a record with its error when there is a renderer and returns the zap handle. |
| Facade.Logger.Debug | logger.go:35-38 | Appends the renderer record and the zap Debug record with the call fields followed by the persistent fields. |
| Facade.Logger.Info | logger.go:40-43 | As Debug, at Info. |
| Facade.Logger.Warn | logger.go:45-48 | As Debug, at Warn. |
| Facade.Logger.Error | logger.go:50-53 | Renderer at Error, zap at Warn. |
| Facade.Logger.Fatal | logger.go:55-58 | Renderer at Fatal, zap at Warn, so the process does not end. |
| Facade.Logger.DebugErr | logger.go:60-63 | Call fields, the error field, then the persistent fields, at Debug for both. |
| Facade.Logger.InfoErr | logger.go:65-68 | As DebugErr, at Info. |
| Facade.Logger.WarnErr | logger.go:70-73 | As DebugErr, at Warn. |
| Facade.Logger.ErrorErr | logger.go:75-78 | As DebugErr, at Error. |
| Facade.Logger.Err | logger.go:80-83 | The same emission as ErrorErr. |
| Facade.Logger.ErrRet | logger.go:85-89 | An Error-level emission with the error field, returning exactly the given error. |
| Facade.Logger.FatalErr | logger.go:91-94 | As DebugErr, at Fatal for zap. |
| Zl.EncodeLevel | zl.go:89-101 | A level's label is empty exactly for DPanic and Panic. It equals zap's capital name exactly for Debug, Info and Error; Warn and Fatal get the other labels ("WARNING", "CRITICAL"). |
| Zl.EncodeLevelInjective | zl.go:93-99 | Levels with a label have distinct labels. |
| Zl.GetConsoleOutput | zl.go:217-223 | The console is stdout exactly when `isStdOut`, otherwise stderr. |
| Zl.GetSyncers | zl.go:205-215 | Pretty and File give the rotator only, ConsoleAndFile gives console then rotator, and Console gives the console only. |
| Zl.SetOmitKeys | zl.go:103-122 | Each omitted key among message, level, time, logger, caller, function and stacktrace clears exactly its encoder key to OmitKey. Every other encoder key and both encoders keep their values. |
| Zl.AdditionalFieldsShape | zl.go:124-136 | Version, hostname and pid are each present exactly when not omitted, version first and pid last. |
| Zl.InitMessage | zl.go:46-56 | The INIT_LOGGER text is exactly the severity, the output mode and the file name, followed by ", PID: n" only when the pid global is set. A length equation rules out any other text. |
| Zl.Globals.constructor | zl.go:24-37 | The initial globals: the default settings, no logger, no renderer, pid 0. |
| Zl.Globals.Init | zl.go:40-58 | A second call changes nothing. A first call does four things. It creates a renderer exactly in Pretty mode. It builds the zap logger from the settings. It sets pid only when pid is not omitted. It writes one Debug INIT_LOGGER record whose text carries ", PID: n" only when pid is set. The INIT_LOGGER count rises by one on a first call and by zero otherwise. |
| Zl.Globals.RunInit | zl.go:41-57 | The once-guarded body. It creates a renderer exactly in Pretty mode, builds the zap logger, sets pid unless omitted, and writes the Debug INIT_LOGGER record with the settings and the pid suffix. |
| Zl.CountInitPackage | zl.go:50-56 | One package-level emission adds an INIT_LOGGER record exactly when its message is INIT_LOGGER. |
| Zl.Globals.NewZapLogger | zl.go:61-87 | The zap logger has the cleared encoder, the routed sinks, the severity level, caller skip 1, stack traces from Error, and the enrichment fields. |
| Zl.Globals.GetAdditionalFields | zl.go:124-136 | Returns the filtered enrichment fields and sets pid exactly when pid is not omitted. |
| Zl.Globals.Sync | zl.go:153-161 | Outside Pretty and File, nothing. Otherwise zap's Sync, the sync error to the standard logger, then the renderer's traces. |
| Zl.Globals.SyncWhenStop | zl.go:164-171 | The signal handler starts only in Pretty or File mode. |
| Zl.Globals.OnSignal | zl.go:170-186 | Without a zap logger (a signal before Init or after Cleanup), checkInit's log.Fatal ends the process with status 1. Otherwise a GOT_SIGNAL_<NAME> Debug record, then Sync, and the exit status is 128 plus the signal number. |
| Zl.Globals.Cleanup | zl.go:226-245 | Every setting back to its default, the once-guard cleared, and no logger or renderer. |
| Zl.Globals.Render | logger.go:181-185 | Renders when there is a renderer and returns the package zap logger. |
| Zl.Globals.RenderErr | logger.go:197-201 | The same, with the error handed to the renderer separately. |
| Zl.Globals.RenderInternal | logger.go:191-195 | Renders and returns the internal logger. |
| Zl.Globals.Debug | logger.go:110-113 | Renderer record, then the zap Debug record with exactly the call fields. |
| Zl.Globals.Info | logger.go:115-118 | As Debug, at Info. |
| Zl.Globals.Warn | logger.go:120-123 | As Debug, at Warn. |
| Zl.Globals.Error | logger.go:125-128 | As Debug, at Error. |
| Zl.Globals.Fatal | logger.go:130-133 | As Debug, at Fatal. |
| Zl.Globals.DebugErr | logger.go:135-138 | Renderer gets the fields and error separately. zap gets the fields plus the error field. |
| Zl.Globals.InfoErr | logger.go:140-143 | As DebugErr, at Info. |
| Zl.Globals.WarnErr | logger.go:145-148 | As DebugErr, at Warn. |
| Zl.Globals.ErrorErr | logger.go:150-153 | As DebugErr, at Error. |
| Zl.Globals.Err | logger.go:155-158 | The same emission as ErrorErr. |
| Zl.Globals.ErrRet | logger.go:160-164 | An Error-level emission, returning exactly the given error. |
| Zl.Globals.FatalErr | logger.go:166-169 | As DebugErr, at Fatal. |
| Zl.Globals.Dump | logger.go:176-179 | After the init check, a dump record when there is a renderer, nothing otherwise. |
| Zl.Globals.IDebug | logger.go:187-189 | A Debug emission through the internal logger. |
| Zl.PidSurvivesCleanup | zl.go:46-49 | The scenario Init, Cleanup, omit pid, Init. Cleanup does not reset pid, so the second INIT_LOGGER record still reports the first process id. |
| ZlLegacy.StdLogFlags | zl/zl.go:37-41 | File and line always. Date and time exactly when the time key is not ignored. |
| ZlLegacy.AdvertisedPrettyNameRejected | zl/options.go:73-89 | "SimpleConsoleAndFile", which the doc comment and the fatal message advertise, is rejected. "Pretty" is accepted. |
| ZlLegacy.ClearIgnoredKeys | zl/zl.go:80-99 | Each ignored key among message, level, time, name, caller, function and stacktrace clears exactly its encoder key. All else is kept. |
| ZlLegacy.GetSyncers | zl/zl.go:171-181 | The same routing as the root package, with stderr as the console. |
| ZlLegacy.NeverStdout | zl/zl.go:171-181 | No mode of the sub-package writes to stdout. |
| ZlLegacy.AdditionalFieldsShape | zl/zl.go:101-109 | Version, then hostname, each exactly when not ignored, and no other field (no pid). |
| ZlLegacy.InitMessage | zl/zl.go:43-48 | The INIT_LOGGER text is exactly the level, the output mode and the file name. A length equation rules out any other text. |
| ZlLegacy.Globals.constructor | zl/zl.go:23-32 | The initial globals: default settings, no logger, the standard logger's default flags. |
| ZlLegacy.Globals.Init | zl/zl.go:35-51 | Every call returns the handle built by the first. A second call changes nothing. The first sets the std-log flags, builds the logger and writes one Info INIT_LOGGER record. |
| ZlLegacy.Globals.InitZapLogger | zl/zl.go:54-78 | The zap logger has the cleared encoder, capital level names, the routed sinks, the log level, no caller skip, stack traces from Error, and version/hostname. |
| ZlLegacy.Globals.GetAdditionalFields | zl/zl.go:101-109 | The filtered version and hostname fields. |
| ZlLegacy.Globals.Info | zl/zl.go:43-48 | The sub-package's Info, as Init and Sync call it: one Info-level record through the zap logger. |
| ZlLegacy.Globals.Sync | zl/zl.go:126-131 | Whatever the mode: FLUSH_LOG_BUFFER at Info, zap's Sync, and the sync error to the standard logger. |
| ZlLegacy.Globals.SyncWhenStop | zl/zl.go:134-137 | The signal handler starts in every mode. |
| ZlLegacy.Globals.OnSignal | zl/zl.go:137-152 | A GOT_SIGNAL_<NAME> Info record, then Sync; the exit status is 128 plus the signal number. |
| ZlLegacy.Globals.SetOutput | zl/options.go:69-71 | Sets the output mode and nothing else. |
| ZlLegacy.Globals.SetOutputTypeByString | zl/options.go:74-90 | A parsable string sets exactly the output mode. Any other string is fatal and changes no setting. |
| ZlLegacy.Globals.SetLevel | zl/options.go:92-94 | Sets the level and nothing else. |
| ZlLegacy.Globals.SetLogLevelByString | zl/options.go:97-104 | A successful parse sets exactly the level. A failed one is fatal and changes no setting. |
| ZlLegacy.Globals.SetRepositoryCallerEncoder | zl/options.go:107-113 | Nothing when the revision or the root is empty. Otherwise exactly the caller encoder is set to the repository encoder with the formatted URL. |
| ZlLegacy.Globals.SetVersion | zl/options.go:124-126 | Sets the version and nothing else. |
| ZlLegacy.Globals.AddConsoleFields | zl/options.go:129-131 | Appends, keeping the existing entries and their order. |
| ZlLegacy.Globals.SetIgnoreKeys | zl/options.go:134-136 | Replaces the whole ignore list. |
| ZlLegacy.Globals.SetStdout | zl/options.go:139-141 | Sets `isStdOut` and nothing else. |
| ZlLegacy.Globals.SetFileName | zl/options.go:145-147 | Sets the file name and nothing else. |
| ZlLegacy.Globals.SetMaxSize | zl/options.go:151-153 | Sets the maximum size and nothing else. |
| ZlLegacy.Globals.SetMaxAge | zl/options.go:157-159 | Sets the maximum age and nothing else. |
| ZlLegacy.Globals.SetMaxBackups | zl/options.go:163-165 | Sets the backup count and nothing else. |
| ZlLegacy.Globals.SetLocalTime | zl/options.go:169-171 | Sets local time and nothing else. |
| ZlLegacy.Globals.SetCompress | zl/options.go:175-177 | Sets compression and nothing else. |
| ZlLegacy.InitTwice | zl/zl.go:35-51 | Two Init calls return the same handle. The second call's git output and hostname are never consulted. |
| ZlLegacy.StdoutIgnored | zl/options.go:139-141 | After SetStdout, the logger the sub-package builds still has no stdout sink. |

## Left out

- zap itself is opaque. This covers JSON encoding, level filtering, stack-trace capture, `With`, `Named` and the internals of `Sync`. A zap call is recorded as a `ZapEntry`, whatever the minimum level.
- The rotating file sink is kept only as a token carrying its settings. Rotation itself is not modelled.
- The pretty renderer's output, `printTraces` and the go-spew dump are recorded as requests, not rendered. `Dump`'s arguments are modelled as their text.
- Calls to the pretty renderer through a nil pointer are taken to do nothing. The renderer's methods are not part of this model.
- `os.Hostname`, `os.Getpid`, `exec.Command("git", ...)` and zap's level parser are parameters. A hostname failure makes `getHost` return nil, which is then dereferenced. It is a precondition (the hostname parameter is the successful result), not a recovery.
- `signal.Notify`, the goroutine and the channel are not modelled. `SyncWhenStop` records that the handler was started, and `OnSignal` is what the handler does once a signal arrives. `os.Exit`, `log.Fatal`/`log.Fatalf` and zap's Fatal end the process in Go. Here they are a returned exit status or a `StdLogFatal` or Fatal-level `ZapEntry` record. The model does not stop there: later calls on the same object still change its settings and its `emitted` record.
- `sync.Once` is a sequential flag. Concurrent callers blocking on it are not modelled.
- The time and duration encoders, `log.SetFlags`' effect on formatting, and the short caller encoder's text are not modelled.
- Output values outside the four modes are not modelled. Go's `Output` is an int; `String` would panic on them and `getSyncers` would return no sink.
- ZlCommon.FormatUrl: only the `%s` verb of `fmt.Sprintf(urlFormat, rev)` is modelled. Without it, Go's "%!(EXTRA string=…)" suffix is appended. Other verbs are not interpreted. A format with more than one `%s` keeps the later ones as written, where Go writes "%!s(MISSING)" for each.
- Files that are not part of this model are represented as follows.
  - The root options file and its `LoggerKey`/`PIDKey`: taken to be "logger" and "pid".
  - The root setters: the root `Settings` is assigned directly.
  - `Console(...)`: a console field.
  - `newPrettyLogger`, `newLogger` and `encoderConfig`: the zap logger of `New` is a parameter.
  - `internalLogger`: a parameter.
  - `newRotator`.
  - The `zl/` package's `Info`: taken to forward to zap's Info.
- A Go error's identity is modelled as its value (nil or a message).
- Go's `append` may share a backing array with the caller's slice. The model uses values, so aliasing is not captured.
- Zl.Globals.Cleanup: as in the source, Cleanup does not reset `pid`, the started signal handler, or what was already written. `PidSurvivesCleanup` shows the consequence for the INIT_LOGGER message.
- ZlLegacy.Globals.SetStdout: stored as in the source, but `zl/zl.go`'s `getSyncers` always uses stderr, so it has no effect on the sinks.
- Zl.Globals.Sync: requires Init to have run in Pretty and File mode. In Go, calling it earlier dereferences a nil zap logger, and that panic is not modelled.
- ZlLegacy.Globals.Sync: requires Init to have run, in every mode, for the same reason. The nil-pointer panic is not modelled.
- ZlLegacy.Globals.OnSignal: requires Init to have run. The sub-package's `Info` is not part of this model, so what a signal before Init does there is not modelled.
- ZlLegacy.Globals.Info: requires Init to have run, because its definition is not part of this model.
