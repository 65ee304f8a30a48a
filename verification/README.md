# godex phishing-domain service, modelled in Dafny

godex is a Go web service. It answers one question: "is this domain a known phishing site?". It keeps every known domain in an in-memory cache. A periodic task refreshes the cache from two places:

- a fixed list in the configuration;
- a JSON list downloaded from an object store.

Queries are matched against the cache:

- exactly, after trimming and lower-casing;
- failing that, through their one `www.` variant.

When reporting is on, the hits are sent to a reporting endpoint. Around this sit smaller parts:

- the task scheduler that loads the refresh task from configuration;
- the server start-up sequence;
- the error values and numeric codes shared by every package;
- the logger's rotating file writer;
- a few pure helpers: the report sender's padding, key and URL handling; the retry loop; the client-IP choice of the request logger.

This project models those parts in Dafny and proves what each of them promises. There is one module per Go file:

| module | Go file | form |
|---|---|---|
| `PhishingSites` | internal/service/phishing_sites.go | the cache is a class with `Store`/`Load`; refresh and check are methods with loops, specified by functions |
| `Scheduler` | pkg/task/scheduler.go | `TaskScheduler` is a class; `LoadTasksFromConfig` is a loop specified by `CronOf`/`OnceOf`/`FirstFailure` |
| `Tasks` | internal/task/task.go | methods over a `TaskScheduler` and a `DomainCache` |
| `Errs` | pkg/errs/errs.go | `GoError` datatype, pure rendering and accessors, a `Tracing` class for the package globals |
| `ErrorCodes` | internal/errors/errors.go | pure arithmetic with explicit `int32` conversion |
| `Report` | pkg/report/report.go | pure padding/key/URL functions; the random string is an in-place array loop |
| `Logger` | pkg/logger/logger.go | pure caller/file-name functions; `RotatingFileWriter` and `XormLoggerAdapter` classes; the cleanup loop |
| `Retry` | internal/utils/retry.go | the `Do` loop |
| `Middleware` | internal/middleware/logger.go | `GetRealIP` function; the header-logging loop over a map |
| `Serve` | internal/serve/serve.go | option datatype and `ServeOptions` class; `NewServe` fold; `Run` as a sequence of steps |

`Wrappers` (an `Option` type) and `Strings` support the others. `Strings` holds the Go `strings`/`strconv` functions the code calls: `TrimSpace`, `ToLower`, `Split`, `Join`, `LastIndex`, `HasPrefix`, `%q` quoting and integer formatting.

Go's `error` interface is the datatype `Errs.GoError`. It has three cases:

- `Nil`: the nil interface;
- `ErrsPtr(Option<Error>)`: a `*errs.Error`, where `None` is a typed nil pointer;
- `Foreign(text)`: any other error, known by its `Error()` text.

Calls into code outside the model become parameters of the member that makes them:

- the object-store download and its outcome;
- the JSON decoder;
- the cron library's verdict on an expression;
- the outcomes of the file-system calls;
- the clock (dates are passed as `YYYY-MM-DD` strings);
- the entropy source;
- the outcomes of the start-up steps.

The numeric constants of `pkg/retcode` are the fields of an `ErrorCodes.Retcodes` value. pkg/retcode is not part of this model, so every statement about codes holds whatever those numbers are.

## Model

| member | source | states |
|---|---|---|
| `PhishingSites.DomainCache.constructor` | internal/service/phishing_sites.go:52 | the shared cache starts with no entries |
| `PhishingSites.DomainCache.Store` | internal/service/phishing_sites.go:75 | a store adds or overwrites one key and leaves every other entry as it was |
| `PhishingSites.DomainCache.Load` | internal/service/phishing_sites.go:95 | a load finds a value exactly when the key is present, and then returns its value |
| `PhishingSites.NormalizeIdempotent` | internal/service/phishing_sites.go:43 | trimming then lower-casing is idempotent, so every fixed key the refresh stores is found by an exact lookup of that key |
| `PhishingSites.FixedCount` | internal/service/phishing_sites.go:39-54 | the fixed-phase count never exceeds the number of configured domains (it counts the non-empty normalised ones) |
| `PhishingSites.FixedPhaseSpec` | internal/service/phishing_sites.go:40-56 | after the fixed phase a key is present iff it was before or it is a non-empty normalised configured domain; such a key maps to a fixed-sniffer entry whose domain is the key; every other entry is unchanged and nothing is removed |
| `PhishingSites.RemotePhaseSpec` | internal/service/phishing_sites.go:69-76 | after the remote phase a key is present iff it was before or it was downloaded; a downloaded key maps to a scam-sniffer entry holding the site verbatim (later stores win); every other entry is unchanged |
| `PhishingSites.StoreFixed` | internal/service/phishing_sites.go:40-56 | the fixed-domain loop leaves the cache holding the fixed phase of its old entries and returns the number of domains stored |
| `PhishingSites.StoreRemote` | internal/service/phishing_sites.go:69-76 | the remote loop leaves the cache holding the remote phase of its old entries |
| `PhishingSites.LoadPhishingSites2Cache` | internal/service/phishing_sites.go:35-84 | the returned error is the download's; on a download failure the cache holds the fixed phase only; otherwise the fixed phase and then the remote phase, whatever the decoder's error; the count is the number of fixed stores |
| `PhishingSites.Variant` | internal/service/phishing_sites.go:105-118 | the fallback key strips `www.` once from a query that has it and adds it to a query that lacks it |
| `PhishingSites.VariantRoundTrip` | internal/service/phishing_sites.go:105-118 | adding the prefix and taking the variant again gives back the query |
| `PhishingSites.LookupSpec` | internal/service/phishing_sites.go:90-127 | a query hits iff its normalised form or that form's one variant is a key; an exact hit carries the normalised form's entry; otherwise a variant hit carries the variant's entry; every hit carries the original query |
| `PhishingSites.WwwFormFindsBareDomain` | internal/service/phishing_sites.go:105-115 | a `www.` query whose bare domain alone is cached is reported with that bare domain's entry |
| `PhishingSites.BareFormFindsWwwDomain` | internal/service/phishing_sites.go:105-115 | a bare query whose `www.` form alone is cached is reported with that `www.` entry |
| `PhishingSites.LookupAll` | internal/service/phishing_sites.go:90 | one lookup per query, in query order |
| `PhishingSites.CheckAllSpec` | internal/service/phishing_sites.go:88-132 | the results are in query order, there is at most one per query and one for each query that hits, each equals that query's lookup and carries the unnormalised query |
| `PhishingSites.ReportOf` | internal/service/phishing_sites.go:136-152 | a submission exists iff reporting is enabled and something matched; it goes to `/conf` with user 0 and has one phishing-detection payload item per result, carrying the query and source |
| `PhishingSites.CheckPhishingSitesWithCache` | internal/service/phishing_sites.go:87-133 | the check loop's result equals the specification of the lookups, it never returns an error, and it reports exactly `ReportOf` of its result |
| `Scheduler.GetFunctionName` | pkg/task/scheduler.go:49-59 | the task name is the part of the runtime name after its last `.`: it holds no `.`, ends the full name and is preceded by a `.` or is the whole name |
| `Scheduler.FunctionNameOf` | pkg/task/scheduler.go:49-59 | a function `pkg.Fn` is registered under `Fn` |
| `Scheduler.FirstFailure` | pkg/task/scheduler.go:124-135 | the position of the first cron entry whose `AddFunc` fails, or the length when none does |
| `Scheduler.FirstFailureUnique` | pkg/task/scheduler.go:124-135 | that position is the only one with no failure before it and a failure at it |
| `Scheduler.CronOfMembers` | pkg/task/scheduler.go:89-131 | a job is in the cron table iff some entry is enabled, registered and not `@once`, and the job is built from that entry |
| `Scheduler.OnceOfMembers` | pkg/task/scheduler.go:89-120 | a one-shot is scheduled iff some entry is enabled, registered and `@once`, and the one-shot is built from that entry |
| `Scheduler.LoadPartition` | pkg/task/scheduler.go:89-139 | every enabled and registered entry goes to exactly one of the cron table and the one-shot list |
| `Scheduler.OnceFlagIgnored` | pkg/task/scheduler.go:104-120 | changing the `Once` flags changes neither the cron table nor the one-shots |
| `Scheduler.TaskScheduler.constructor` | pkg/task/scheduler.go:34-39 | a new scheduler has an empty registry, no jobs and is not running |
| `Scheduler.TaskScheduler.RegisterTask` | pkg/task/scheduler.go:42-46 | the function is filed under its name, overwriting an earlier one; no other key and nothing else changes |
| `Scheduler.TaskScheduler.GetAvailableTaskNames` | pkg/task/scheduler.go:62-68 | the names are the registry keys, each exactly once |
| `Scheduler.TaskScheduler.Start` | pkg/task/scheduler.go:71-79 | starting succeeds and sets the scheduler running; the registry and jobs are unchanged |
| `Scheduler.TaskScheduler.Stop` | pkg/task/scheduler.go:82-85 | stopping clears the running flag and changes nothing else |
| `Scheduler.TaskScheduler.LoadTasksFromConfig` | pkg/task/scheduler.go:88-142 | the entries before the first `AddFunc` failure are loaded: cron entries appended to the table and `@once` entries to the one-shots in config order, disabled and unknown ones skipped; the result is nil iff there was no failure; a failure gives the business error with the task's name and the cron error |
| `Tasks.BusinessRegistry` | internal/task/task.go:36-40 | the registry holds exactly the keys `CronTestTask`, `LoadPhishingSites2CacheTask` and `OnceTestTask` |
| `Tasks.CronTestTaskNamed` | internal/task/task.go:37 | `CronTestTask` is filed under its own name |
| `Tasks.LoadPhishingSites2CacheTaskNamed` | internal/task/task.go:38 | `LoadPhishingSites2CacheTask` is filed under its own name |
| `Tasks.OnceTestTaskNamed` | internal/task/task.go:39 | `OnceTestTask` is filed under its own name |
| `Tasks.RegisterBusinessTasks` | internal/task/task.go:36-40 | registering the three tasks adds exactly those three entries and changes nothing else |
| `Tasks.InitTask` | internal/task/task.go:17-33 | the scheduler has the business registry and the jobs of the config entries before the first failure; the error is the loader's; the scheduler runs iff loading succeeded |
| `Tasks.LoadPhishingSites2CacheTask` | internal/task/task.go:43-55 | the task returns the refresh error unchanged, nil on success, and leaves the cache as the refresh does |
| `Tasks.CronTestTask` | internal/task/task.go:59-62 | always nil |
| `Tasks.OnceTestTask` | internal/task/task.go:63-66 | always nil |
| `Errs.ToInt32` | pkg/errs/errs.go:148-158 | `int32(code)` agrees with the code modulo 2^32 and is the code itself when it fits |
| `Errs.ErrorStringRoundTrip` | pkg/errs/errs.go:83-95 | the rendering can be parsed back: nil gives `Success`, otherwise the type label (framework, callee framework or business for any other type) with the code and message |
| `Errs.ErrorStringInjective` | pkg/errs/errs.go:87-94 | two errors with the same rendering have the same type label, code and message |
| `Errs.Tracing.constructor` | pkg/errs/errs.go:11-14 | tracing starts off, with an empty filter |
| `Errs.Tracing.SetTraceable` | pkg/errs/errs.go:125-127 | sets the flag and keeps the filter |
| `Errs.Tracing.SetTraceableWithContent` | pkg/errs/errs.go:131-134 | turns tracing on and sets the filter |
| `Errs.IsOutputBounds` | pkg/errs/errs.go:136-138 | an empty filter lets every frame through; a frame shorter than the filter never passes |
| `Errs.TracedFramesUnfiltered` | pkg/errs/errs.go:102-109 | with an empty filter every frame is written |
| `Errs.WriteTraced` | pkg/errs/errs.go:101-109 | the stack loop writes the message followed by exactly the frames that pass the filter, in order |
| `Errs.Format` | pkg/errs/errs.go:98-122 | `%+v` writes the text and the filtered frames; `%v` and `%s` the text; `%q` the text as `strconv.Quote` writes it; any other verb `%!<verb>(errs.Error=<text>)` |
| `Strings.QuoteRoundTrip` | pkg/errs/errs.go:117 | `%q` quoting loses nothing: reading the quoted text back, with its `\"`, `\\`, named, `\x`, `\u` and `\U` escapes, gives the text |
| `Strings.QuotePrintable` | pkg/errs/errs.go:117 | every character `%q` writes is printable in the sense of `strconv.IsPrint`; the rest are escaped |
| `Strings.HexNumberDigits` | pkg/errs/errs.go:117 | the hex digits written after `\x`, `\u` and `\U` read back as the code point they were written from |
| `Errs.New` | pkg/errs/errs.go:148-158 | a business error with the code converted to int32, the message and no description |
| `Errs.Newf` | pkg/errs/errs.go:161-164 | a business error whose code is the given one and whose message is the text followed by the cause's rendering |
| `Errs.NewFrameError` | pkg/errs/errs.go:167-178 | a framework error with the code converted to int32, the message and description `svr` |
| `Errs.Code` | pkg/errs/errs.go:181-193 | nil and a typed-nil `*Error` give 0, a foreign error gives `RetUnknown` (999), otherwise the error's code |
| `Errs.Msg` | pkg/errs/errs.go:196-208 | nil and a typed-nil `*Error` give `Success`, a foreign error its own text, otherwise the error's message |
| `Errs.NewRoundTrip` | pkg/errs/errs.go:148-208 | `Msg` returns the message given to `New` and `NewFrameError`, and `Code` returns the code when it fits in 32 bits |
| `Errs.NewRendered` | pkg/errs/errs.go:83-95 | `New` renders as a business error and `NewFrameError` as a framework error, with their code and message |
| `ErrorCodes.ErrorCode` | internal/errors/errors.go:27-29 | the code is biz·100000 + type·1000 + custom, converted to int32 (exact when it fits) |
| `ErrorCodes.BizErrorCode` | internal/errors/errors.go:32-34 | `errorCode` always uses the browser-extension biz type |
| `ErrorCodes.ErrorCodeDecompose` | internal/errors/errors.go:28 | for parts in range, division and remainder give back biz type, error type and custom code |
| `ErrorCodes.BizErrorCodeBizType` | internal/errors/errors.go:32-34 | the leading digits of an `errorCode` are the browser-extension biz type and the last three the custom code |
| `ErrorCodes.InternalErrorIsNotCallFail` | internal/errors/errors.go:20-23 | `InternalError` and `CallFail` differ, whatever the retcode numbers |
| `Report.PadCount` | pkg/report/report.go:206 | the padding count lies in 1..blockSize, brings the length to the next multiple of the block size, and is a whole block for aligned input |
| `Report.Pkcs7Pad` | pkg/report/report.go:205-209 | the padded length is the next multiple of the block size, strictly longer and at most a block longer; the input is a prefix; every padding byte equals the count |
| `Report.PadUnpad` | pkg/report/report.go:205-209 | removing PKCS#7 padding from a padded message gives the message back |
| `Report.Utf8OfByteRune` | pkg/report/report.go:207 | `string(byte(p))` is one byte below 128 and two UTF-8 bytes from 128 on |
| `Report.Repeat` | pkg/report/report.go:207 | `strings.Repeat` gives n times the pad string's length, starting with its first byte |
| `Report.RepeatCopies` | pkg/report/report.go:207 | `strings.Repeat` gives n copies of the pad string one after another: byte i is the pad string's byte i mod its length |
| `Report.Pkcs7PadAsWritten` | pkg/report/report.go:205-209 | the code as written keeps the input as a strict prefix |
| `Report.PadAsWrittenAgrees` | pkg/report/report.go:205-209 | for block sizes below 128 (AES uses 16) the code as written is PKCS#7 padding |
| `Report.PadAsWrittenWrongAt128` | pkg/report/report.go:207 | at block size 128 the code as written pads an empty input with 256 bytes alternating 0xC2 and 0x80, where PKCS#7 gives 128 bytes of value 128 |
| `Report.NormalizeKey` | pkg/report/report.go:180-184 | the key is exactly 16 bytes: the input's first 16, right-padded with zero bytes when shorter |
| `Report.AesInput` | pkg/report/report.go:178-199 | AES gets a 16-byte key, an IV equal to the key, and a padded text that is block-aligned and unpads to the plain text |
| `Report.CharsetExact` | pkg/report/report.go:166 | the alphabet holds 62 distinct characters, exactly the ASCII letters and digits |
| `Report.GenerateRandomString` | pkg/report/report.go:165-175 | a failed read gives "" and its error; otherwise n characters, the i-th is the alphabet at entropy byte i modulo 62, all letters or digits |
| `Report.Send` | pkg/report/report.go:66-76 | sending is refused iff the endpoint or the public key is empty, the endpoint being checked first; otherwise everything is passed on unchanged |
| `Report.FullURL` | pkg/report/report.go:133 | the URL is the base URL without its trailing slashes, followed by the path |
| `Retry.MaxAttempts` | internal/utils/retry.go:11 | no attempt when `retryTimes` is not positive, otherwise `retryTimes` |
| `Retry.Do` | internal/utils/retry.go:9-25 | at most `retryTimes` calls; none and `(nil, nil)` when not positive; it stops at the first nil error; every earlier attempt failed; the result is the last attempt's; it sleeps one time fewer than it calls; a final error means all attempts were used |
| `Middleware.FirstFieldUnique` | internal/middleware/logger.go:72-74 | a header value has only one first comma-separated field |
| `Middleware.GetRealIP` | internal/middleware/logger.go:68-82 | a non-empty X-Forwarded-For gives its first field trimmed (no comma, no outer space, possibly empty); otherwise a non-empty X-Real-IPKey verbatim; otherwise the remote address |
| `Middleware.LoggedHeaders` | internal/middleware/logger.go:37-46 | the logged map has exactly the headers other than Cookie that have a value, each with its first value |
| `Middleware.CookieNeverLogged` | internal/middleware/logger.go:40-42 | the logged map never holds Cookie |
| `Logger.AfterProject` | pkg/logger/logger.go:234-238 | the path after the last `godex/` is a suffix without `godex/`, and the whole path when there is none |
| `Logger.CallerPath` | pkg/logger/logger.go:240-245 | at most the last two `/` segments remain, a suffix of the path after the project directory, which is kept whole when it has at most one `/` |
| `Logger.LastTwoParts` | pkg/logger/logger.go:240-244 | a suffix of the path with at most one `/`; the whole path when it has at most one `/`; otherwise exactly one `/`, strictly shorter and preceded by a `/` |
| `Logger.FormatCaller` | pkg/logger/logger.go:229-248 | "" iff the file is unknown; otherwise the shortened path, `:` and the line, the path being a suffix of the file without `godex/` |
| `Logger.DirSpec` | pkg/logger/logger.go:108 | `filepath.Dir` of a clean path is `.` for a bare name, `/` in the root, otherwise everything before the last `/` |
| `Logger.BaseSpec` | pkg/logger/logger.go:109 | `filepath.Base` is the non-empty last element, without `/`, ending the path |
| `Logger.ExtSpec` | pkg/logger/logger.go:110 | `filepath.Ext` is "" or a `.` with no other `.` or `/` after it, ending the path |
| `Logger.DirBaseJoin` | pkg/logger/logger.go:108-113 | joining a clean path's directory and base gives the path back |
| `Logger.NameWithoutExtSpec` | pkg/logger/logger.go:111 | the name without extension followed by the extension is the base name |
| `Logger.RotatedName` | pkg/logger/logger.go:113 | the rotated name is `<name>-` followed by the date and the extension |
| `Logger.RotatedNameInjective` | pkg/logger/logger.go:113 | different dates give different rotated names |
| `Logger.RotatedNeverCleanedAsWritten` | pkg/logger/logger.go:168-179 | the cleanup filter as written rejects every name that rotate creates |
| `Logger.RotatedCleaned` | pkg/logger/logger.go:168-179 | the corrected filter reads back the date of every rotated name |
| `Logger.RemovedPathsSound` | pkg/logger/logger.go:161-192 | every removed path belongs to a non-directory entry that passes the filter and whose date has expired |
| `Logger.RemovedPathsComplete` | pkg/logger/logger.go:161-192 | the path of every such entry is removed |
| `Logger.RemovedPathsMembers` | pkg/logger/logger.go:161-192 | a path is removed iff it belongs to a non-directory entry that passes the filter and whose date has expired |
| `Logger.RemoveExpired` | pkg/logger/logger.go:161-192 | with the corrected `-` filter (see Findings), the directory loop removes exactly `RemovedPaths`, in directory order |
| `Logger.CleanupOldLogs` | pkg/logger/logger.go:140-193 | with the corrected `-` filter (see Findings): nothing is removed when listing the directory fails; otherwise the expired log files of this writer are removed |
| `Logger.RotatingFileWriter.constructor` | pkg/logger/logger.go:56-60 | a new writer holds the file name, retention and name parts, and no file |
| `Logger.RotatingFileWriter.Rotate` | pkg/logger/logger.go:93-137 | same day with a file held: no change; otherwise the held file is closed; a mkdir or open failure returns its wrapped error and keeps the date; success opens `dir/name-date.ext` for appending, records the date and starts a cleanup when maxDays > 0 |
| `Logger.RotatingFileWriter.Write` | pkg/logger/logger.go:71-90 | on a new day a write rotates first: a mkdir or open failure is returned as rotate wraps it, with the old file closed and nothing written; after a successful rotation the bytes go to the new day's file and a cleanup starts when maxDays > 0; on the same day it appends to the current file, failing with no file or a closed one and then writing nothing |
| `Logger.RotatingFileWriter.Close` | pkg/logger/logger.go:196-204 | closes the current file, failing when it was already closed |
| `Logger.NewRotatingFileWriter` | pkg/logger/logger.go:43-68 | an invalid zone fails; otherwise the first rotation decides: a mkdir or open failure is returned as rotate wraps it, and when both succeed a writer holding today's open file is returned; a writer is returned iff there is no error |
| `Logger.XormLoggerAdapter.constructor` | pkg/logger/logger.go:424-429 | the adapter starts at level 0 with SQL hidden |
| `Logger.XormLoggerAdapter.SetLevel` | pkg/logger/logger.go:444-446 | sets the level only |
| `Logger.XormLoggerAdapter.ShowSQL` | pkg/logger/logger.go:449-453 | with no argument the setting is kept, otherwise it becomes the first argument |
| `Logger.XormLoggerAdapter.Infof` | pkg/logger/logger.go:486-492 | formats mentioning `PING DATABASE` are dropped, all others passed on |
| `Serve.ApplyEffect` | internal/serve/serve.go:44-119 | each option turns on exactly its switches and no other, sets the port only for WithPort and the paths only for WithConfigPaths, and appends only for WithCustomInit |
| `Serve.DefaultsDiffer` | internal/serve/serve.go:102-119 | WithWebDefault turns on config, logger, controller, task and web and leaves command mode; WithCommandDefault turns on config, logger and command and leaves the rest |
| `Serve.FoldAppend` | internal/serve/serve.go:126-128 | applying a concatenation of options applies the first part, then the second |
| `Serve.FoldSwitches` | internal/serve/serve.go:123-128 | after NewServe a switch is on iff some option turns it on; options never turn one off |
| `Serve.FoldInits` | internal/serve/serve.go:95-99 | the init list holds the WithCustomInit functions in argument order |
| `Serve.FoldKeepsPort` | internal/serve/serve.go:88-92 | options other than WithPort keep the port |
| `Serve.PortOverride` | internal/serve/serve.go:123-128 | the last WithPort wins |
| `Serve.FoldKeepsPaths` | internal/serve/serve.go:59-64 | options other than WithConfigPaths keep the paths |
| `Serve.PathsOverride` | internal/serve/serve.go:123-128 | the last WithConfigPaths wins |
| `Serve.ServeOptions.constructor` | internal/serve/serve.go:123 | options start at the zero value |
| `Serve.ServeOptions.Apply` | internal/serve/serve.go:44-119 | running an option's closure updates the fields as `ApplyTo` says |
| `Serve.NewServe` | internal/serve/serve.go:122-141 | the options are applied in argument order to zero options |
| `Serve.ChoosePort` | internal/serve/serve.go:233-238 | the port is the option's when positive, the configured one otherwise |
| `Serve.CommandExcludesWeb` | internal/serve/serve.go:180-190 | command mode runs the command and never the web server; otherwise the web server is started on the chosen port exactly when enabled, as the last step |
| `Serve.RunCustomInits` | internal/serve/serve.go:160-164 | the custom inits run in order up to the first failure, which is returned wrapped |
| `Serve.RunTail` | internal/serve/serve.go:166-190 | task, controller, then command or web, stopping at the first failure |
| `Serve.Run` | internal/serve/serve.go:144-191 | the enabled steps run in the order config, logger, custom inits, task, controller, then command or web; the first failure stops the run and is returned, wrapped as an InternalError except for command and web; nil iff every step succeeded |

## Left out

- Concurrency: the sync.Map's thread safety, the scheduler's goroutines, the 5-second delay before one-shots, the detached report send and `initCache`. The cache is a plain sequential map; one-shots are a list of scheduled calls; the report is returned as a value.
- The cron library: parsing, firing and `AddFunc`'s verdict. The verdict is a function from the cron expression to an error.
- The object-store client, the HTTP fetch and `ImportPhishingSites`. The download outcome, its body and the JSON decoder are parameters.
- `send` in pkg/report/report.go beyond its URL: RSA-OAEP, AES-CBC, base64, `crypto/rand` and the POST.
- logrus and everything that writes through it: `InitLogger`, the formatters, `DualFormatHook`, `getRealCaller`, the package-level `Debug`…`Fatalf` helpers and the adapter's plain forwarders (`Debug`, `Error`, `Warn` and their `f` forms). `Level` and `IsShowSQL` are modelled as getters.
- The `Fatalf` exit in `initWeb`: the model returns the listen error raw.
- The latency rounding and JSON marshalling in the request logger.
- Time zones, clocks and date parsing: dates are strings. Whether a log file's date has expired is a predicate passed in.
- `Errs.Format`: `%+v` on a nil `*Error` panics in the Go code, which reads the nil pointer's stack; the model's precondition excludes that call. Stack capture (`runtime.Callers`) is not modelled: `Format` takes the rendered frames.
- `Errs.Newf`: only the `text%v` shape used in this code is modelled; `fmt.Sprintf` in general is not.
- `Strings.IsPrint`: exact up to U+00FF; above it `strconv.IsPrint` consults the Unicode tables, which are not modelled, so their verdict is the `widePrint` parameter of `Strings.Quote` and `Errs.Format`.
- `Strings.Quote`: Dafny strings hold only Unicode scalar values, so the `\xNN` that `strconv.Quote` writes for each byte of invalid UTF-8 does not arise. `Strings.Unescape` reads `\x` only below 0x80, where the byte is a character.
- `Logger.RotatingFileWriter.Write`: a write to an open file is taken to succeed in full; disk errors and short writes of `os.File.Write` are not modelled.
- `Strings.ToLower`: ASCII letters only; the Unicode case mapping of `strings.ToLower` is not modelled.
- `Logger.DirBaseJoin`: holds for clean paths only; `filepath.Clean` is not modelled, and `Dir`/`Base`/`JoinPath` assume clean input.
- `Report.GenerateRandomString`: requires a non-negative length; Go's `make` panics on a negative one.
- `Report.Pkcs7Pad`: requires a block size below 256, as PKCS#7 does; `Report.Pkcs7PadAsWritten` requires a positive one, since the Go code divides by it.
- `Middleware.GetRealIP`: header-name canonicalisation is applied by hand to the two names looked up (`X-Real-IPKey` becomes `X-Real-Ipkey`); `textproto` canonicalisation in general is not modelled.
- `Scheduler.GetFunctionName`: the runtime name of a function is a parameter (`Tasks` takes the package path as `pkg`); reflection is not modelled.
- `Tasks.InitTask`: the type assertion on the new scheduler always succeeds here, so loading always happens; the package-level variable is the returned scheduler.
- pkg/retcode is not part of this model: its constants are a `Retcodes` parameter.
- Configuration loading, routing, the command line and the iris application are not part of this model.

## Findings

| source | as written | input that shows it | evidently intended | confidence | as-written member | corrected member |
|---|---|---|---|---|---|---|
| pkg/report/report.go:207 | the pad string is `string(byte(padding))`, a one-rune string, so a count of 128 or more is written as two UTF-8 bytes | block size 128, empty input: 256 bytes alternating 0xC2 and 0x80 | `padding` bytes of value `padding` (PKCS#7, section 6.3 of RFC 5652); only block size 16 is used, where both agree | not executed | `Report.PadAsWrittenWrongAt128` | `Report.Pkcs7Pad` |
| pkg/logger/logger.go:168 | the cleanup filter expects `name.` before the date, but rotate writes `name-` | `app.log` on 2024-01-01: rotate creates `app-2024-01-01.log`, which the filter rejects, so no log is ever removed | the filter uses the same `-` separator that rotate writes | not executed | `Logger.RotatedNeverCleanedAsWritten` | `Logger.RotatedCleaned` |
