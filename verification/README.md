# Database utility-process bridge, modelled in Dafny

This project models the part of an Electron desktop application that moves
its database work into a separate utility process. Three parts are modelled:

- **The supervisor** in the main process (`createDbUtilityProcess`). It
  forks the worker and keeps a map from operation to the settler of the
  call waiting for it. One message listener forwards the worker's log lines
  and settles calls. The entry points are `runMigrations`, `generateSchema`
  and `close`.
- **The worker** (`db-utility-process.js`). It checks each incoming message
  and dispatches on its `type`. It resolves the database file, the schema
  module and the migrations folder through per-platform and per-mode path
  rules, and answers with a result object.
- **The pure rules around them**:
  - the database name and configuration constants;
  - the log-file paths of the main and utility loggers;
  - the renderer-log forwarder;
  - the environment-file lookup;
  - the window-open policy;
  - the main window's load decision, including the bounded `index.html`
    search.

Everything is pure data. The following are inputs rather than effects:

- the file system: existence checks, directory trees and `require`;
- the clock: a calendar date;
- the environment variables: `Option<string>`;
- the outcomes of opening SQLite and of the migrator: the `Attempt` datatype.

The supervisor is a state machine over events. Call promises are
represented by call numbers. A settlement records how a call ended.

Modules:

- `Wrappers`: `Option` and `Result`.
- `Text`: decimal rendering, padding, `||` on strings, split and join.
- `Dates`: reading a `y-m-d` string back.
- `Paths`: paths as segment sequences, `..`, and "first existing candidate".
- `Protocol`: operations and the result object.
- `Supervisor`: `electron/main/utils/dbUtilityProcess.ts`.
- `Worker`: `electron/db-utility-process.js`.
- `Constants`: `electron/main/utils/constants.ts`.
- `UtilityLogger`: `electron/utility/lib/logger.ts`.
- `MainLogger`: `electron/main/logger/index.ts`.
- `MainProcess` and `IndexSearch`: `electron/main/index.ts`.
- `Bridge`: properties that need both the supervisor and the worker.

Behaviour of the code worth knowing:

- The supervisor has no timeout. A second call for an operation that is
  already pending is not rejected: it overwrites the first call's settler,
  and the first call then never settles. This is proved in
  `Supervisor.SecondSendOrphansFirst`.
- When the worker process exits or reports an error, no pending call is
  failed: the exit and error listeners only log, so those calls stay
  waiting.
- The worker leaves its SQLite connection open when any step after opening
  fails (`Worker.RunMigrations`, `Bridge.MigrationFailureReachesCaller`).
- The worker answers a message it cannot dispatch without a `type`. The
  supervisor therefore matches that answer to no call
  (`Bridge.UntypedRepliesNeverSettle`).
- `getDbName()` always yields the development name, because the module's
  `electronApp` handle is never assigned (`Constants.GetDbName`).

## Model

| member | source | states |
|---|---|---|
| Supervisor.WorkerEntry | electron/main/utils/dbUtilityProcess.ts:21-24 | the worker file is under `resources/app.asar.unpacked/electron/main/utils` exactly when NODE_ENV is `production`, else two directories above the compiled code |
| Supervisor.ForkNodeEnv | electron/main/utils/dbUtilityProcess.ts:26-31 | the worker's NODE_ENV is never empty, equals the parent's when that is set and non-empty, and is `production` exactly when the parent's is |
| Supervisor.ForwardedLine | electron/main/utils/dbUtilityProcess.ts:50-57 | a worker log keeps its data and is logged at its own level when that is one of the logger's methods, otherwise at `info` marked as an unknown level |
| Supervisor.Settle | electron/main/utils/dbUtilityProcess.ts:66-76 | a matched result resolves its call exactly when `success` is true, with the whole result; otherwise it rejects it with the result's error text, or the default text when that is missing or empty |
| Supervisor.OnMessage | electron/main/utils/dbUtilityProcess.ts:45-84 | non-objects are ignored; logs touch neither the pending map nor the settlements; a result whose `type` is pending settles exactly that call and removes the entry; any other result only adds a warning |
| Supervisor.Post | electron/main/utils/dbUtilityProcess.ts:89-102 | a successful send stores the new call under its operation (replacing any earlier call there), posts one request of that operation and settles nothing |
| Supervisor.PostFailed | electron/main/utils/dbUtilityProcess.ts:103-107 | a send whose post throws leaves no entry for the operation, posts nothing and rejects the new call with what was thrown |
| Supervisor.Kill | electron/main/utils/dbUtilityProcess.ts:136-140 | `close()` kills once, changes no call, and logs a warning exactly when the kill fails |
| Supervisor.Note | electron/main/utils/dbUtilityProcess.ts:33-43 | the spawn, exit and error listeners only append a log line |
| Supervisor.StepFrame | electron/main/utils/dbUtilityProcess.ts:45-109 | every event only appends settlements, advances the call counter by at most one, and settles or stores only a call that was pending or the one it makes itself |
| Supervisor.InitialInv | electron/main/utils/dbUtilityProcess.ts:87 | the empty pending map satisfies the bookkeeping invariant |
| Supervisor.ReceivePreservesInv | electron/main/utils/dbUtilityProcess.ts:64-77 | settling a matched result keeps pending calls distinct and unsettled, settles no call twice, and resolves only with successful results |
| Supervisor.PostPreservesInv | electron/main/utils/dbUtilityProcess.ts:89-102 | storing a new call keeps the invariant |
| Supervisor.PostFailedPreservesInv | electron/main/utils/dbUtilityProcess.ts:103-107 | rejecting a call whose post threw keeps the invariant |
| Supervisor.StepPreservesInv | electron/main/utils/dbUtilityProcess.ts:33-140 | every event keeps the invariant |
| Supervisor.RunPreservesInv | electron/main/utils/dbUtilityProcess.ts:33-140 | every sequence of events keeps the invariant |
| Supervisor.RunExtendsSettled | electron/main/utils/dbUtilityProcess.ts:45-109 | a sequence of events never removes or changes a settlement and never lowers the call counter |
| Supervisor.OrphanNeverSettles | electron/main/utils/dbUtilityProcess.ts:87-91 | a call made earlier that no pending entry refers to is never settled by any later events |
| Supervisor.SecondSendOrphansFirst | electron/main/utils/dbUtilityProcess.ts:91 | sending the same operation twice orphans the first call: whatever follows, it never settles |
| Supervisor.FailedSendOrphansEarlier | electron/main/utils/dbUtilityProcess.ts:103-107 | a send whose post throws also deletes the entry of an earlier call for that operation, which then never settles |
| Supervisor.StepRespectsSameCalls | electron/main/utils/dbUtilityProcess.ts:45-140 | what an event does to the calls depends only on the call bookkeeping, not on the log or the kill count |
| Supervisor.LogsDoNotAffectCalls | electron/main/utils/dbUtilityProcess.ts:50-58 | a run with worker logs interleaved anywhere ends with the same pending map, requests and settlements as the run without them |
| Supervisor.OnlyLogsChangeNoCall | electron/main/utils/dbUtilityProcess.ts:50-58 | a run of worker logs settles nothing and leaves the pending map as it was |
| Supervisor.Awaited | electron/main/utils/dbUtilityProcess.ts:111-134 | `runMigrations`/`generateSchema` never reject: a resolved call yields the worker's result, a rejected one a failure without `type` carrying the rejection's message |
| Supervisor.AwaitLog | electron/main/utils/dbUtilityProcess.ts:112-130 | before turning a rejection into a failure the wrapper logs one error line, `Error running migrations:` or `Error generating schema:` after the prefix; a resolved call logs nothing |
| Supervisor.AwaitLogIffFailure | electron/main/utils/dbUtilityProcess.ts:112-134 | in a reachable state the wrapper's error line is logged exactly when the caller gets a failure back |
| Supervisor.CallOutcome | electron/main/utils/dbUtilityProcess.ts:112-134 | a call's awaited value exists exactly when the call has been settled |
| Supervisor.AwaitedSuccessIffResolved | electron/main/utils/dbUtilityProcess.ts:112-121 | in a reachable state the awaited value reports success exactly when the call was resolved |
| Supervisor.Describe | electron/main/utils/dbUtilityProcess.ts:119 | a thrown `Error` is described by its message, any other thrown value by its string form |
| Supervisor.Step | electron/main/utils/dbUtilityProcess.ts:33-140 | only a send posts a request, only `close()` kills, and only a received result or a failed send can settle a call |
| Supervisor.SameLevelsForwarded | electron/main/utils/dbUtilityProcess.ts:52-55 | worker logs and renderer logs share one level set: a renderer log is passed on exactly when a worker log of that level keeps its own level |
| Protocol.ParseOp | electron/main/utils/dbUtilityProcess.ts:15 | a string names an operation exactly when it is one of the two operation names |
| Protocol.ParseOpName | electron/main/utils/dbUtilityProcess.ts:15 | reading an operation's name back gives that operation |
| Protocol.Failed | electron/db-utility-process.js:197-200 | an untyped failure: no `type`, `success` false, the given error |
| Worker.ErrorFault | electron/db-utility-process.js:45 | a raised error carries the given message |
| Worker.AppName | electron/db-utility-process.js:30-32 | the app folder name has the `_dev` suffix exactly in development |
| Worker.DatabaseName | electron/db-utility-process.js:51-53 | the file is `hourglass.dev.db` exactly in development and `hourglass.db` exactly in production |
| Worker.AppDataPath | electron/db-utility-process.js:34-49 | per platform: APPDATA on win32, HOME/Library/Application Support on darwin, HOME/.config on linux, then the app name; an unset variable throws the `path.join` type error; any other platform throws `Unsupported platform` |
| Worker.DatabasePath | electron/db-utility-process.js:55-62 | the database file is the app-data folder plus the mode's database name, and fails exactly when that folder does |
| Worker.DatabasePathShape | electron/db-utility-process.js:34-62 | the path resolves exactly on a supported platform with its variable set; the folder and the file agree on the development suffix, which is present exactly when NODE_ENV is not `production` |
| Worker.Present | electron/db-utility-process.js:82 | `filter(Boolean)` keeps exactly the entries that are paths, never adding any |
| Worker.PresentKeepsOrder | electron/db-utility-process.js:82 | `filter(Boolean)` keeps the entries' order: filtering a concatenation filters each part in turn |
| Worker.PresentCandidates | electron/db-utility-process.js:77-82 | filtering the four schema entries keeps the two packaged ones when they are paths and drops both otherwise |
| Worker.SchemaCandidates | electron/db-utility-process.js:76-82 | in development only the two local schema locations; in production the two packaged ones first, then the local ones; production without `resourcesPath` throws |
| Worker.SelectSchema | electron/db-utility-process.js:84-98 | the schema loads exactly when some candidate is the first whose `require` returns and what it returned is truthy, and then it is that candidate; when all throw, the error names the last one's message (`undefined` when there were none) |
| Worker.MigrationsFolder | electron/db-utility-process.js:115-141 | development uses `../migrations`; production uses the first existing of the three candidates, fails exactly when none exists with an error listing all three, and throws without `resourcesPath` |
| Worker.LoadSchema | electron/db-utility-process.js:74-98 | the schema loads exactly when the candidate list can be built and some candidate is the first whose `require` returns truthy exports, and then it is that candidate; a failure to build the list is passed on unchanged |
| Worker.MigrationFailed | electron/db-utility-process.js:157-165 | the catch's answer: typed `run-migrations`, `success` false, the thrown error's message and stack, no data |
| Worker.RunMigrations | electron/db-utility-process.js:109-166 | the result is always typed `run-migrations`; it succeeds exactly when every step succeeds and then names the migrations folder; the connection is closed exactly on success and left open by a failure after opening; each of the five failures (path, open, schema, migrations folder, migrator) is reported with that error's message and stack |
| Worker.GenerateSchema | electron/db-utility-process.js:168-189 | always a successful `generate-schema` result carrying a note |
| Worker.Respond | electron/db-utility-process.js:196-221 | the response's `type` is the requested operation; a non-object gets `Invalid message format`, an unknown `type` gets `Unknown operation: <type>`, and a known one the operation's result |
| Worker.Handle | electron/db-utility-process.js:193-231 | every message is answered with its response first; exactly when a post to an object message throws, a second untyped failure follows with the thrown message or the default text |
| Worker.ConnectionAfter | electron/db-utility-process.js:112-149 | only a `run-migrations` message opens the database, and it ends closed exactly when the response is a successful `run-migrations` result |
| Paths.Parent | electron/db-utility-process.js:80 | `..` drops the last segment, and the root stays the root |
| Paths.RenderAll | electron/db-utility-process.js:136 | every candidate is rendered, in order |
| Paths.FirstExisting | electron/db-utility-process.js:127-133 | the result is present exactly when some candidate exists, and is then the first existing candidate |
| Text.Or | electron/main/utils/dbUtilityProcess.ts:29 | the `or` default of a possibly missing string: the value when set and non-empty, otherwise the fallback |
| Text.NatToString | electron/utility/lib/logger.ts:15 | decimal digits without a leading zero |
| Text.PadStart2 | electron/utility/lib/logger.ts:16-17 | the result is at least two characters long, ends with the input, and everything before the input is `0` |
| Constants.DbNameFor | electron/main/utils/constants.ts:14 | the packaged name exactly when an app handle reports `isPackaged` |
| Constants.FallbackDbName | electron/main/utils/constants.ts:24 | the packaged name exactly when NODE_ENV is `production` |
| Constants.GetDbName | electron/main/utils/constants.ts:11-26 | with the handle never assigned, always the development name |
| Constants.GetDbConfig | electron/main/utils/constants.ts:28-34 | the development name, a 5000 ms timeout and the app name |
| UtilityLogger.Mode | electron/utility/lib/logger.ts:7-25 | `prod` exactly when IS_PACKAGED is `true`, `dev` otherwise |
| UtilityLogger.DatePathReadsBack | electron/utility/lib/logger.ts:14-19 | the date segment splits at dashes into the unpadded year and the zero-padded month and day, each two characters wide for a valid date, and reads back as the UTC year, 1-based month and day |
| UtilityLogger.ResolvePath | electron/utility/lib/logger.ts:6-32 | userData / logs / mode / date / session / scope / utility id / `utility.log`, with each default in its place |
| UtilityLogger.ResolvePathSegments | electron/utility/lib/logger.ts:6-32 | each segment means what it names: the mode, the date read back, and each value or its fallback when missing or empty |
| MainLogger.DateStrReadsBack | electron/main/logger/index.ts:25-31 | the date string has three dash-separated parts, none zero-padded, and reads back as year, 1-based month and day |
| MainLogger.ConfigureFileTransport | electron/main/logger/index.ts:22-42 | without `app` nothing changes; with it the path is appData / APP_NAME / log / date / session.log, the file name is the date plus `.log`, and the format and 10 MiB limit are set |
| MainLogger.ForwardRendererLog | electron/main/logger/index.ts:48-52 | a renderer log is passed on exactly when its level is a logger method, with the data spread and the variables last |
| MainProcess.EnvPaths | electron/main/index.ts:15-29 | packaged: the resources file when that path is known, then the one beside the executable; otherwise only the working directory's development file |
| MainProcess.LoadEnvironment | electron/main/index.ts:42-58 | loads the first existing env file; NODE_ENV is defaulted from `isProd` exactly when none exists |
| MainProcess.VitePublic | electron/main/index.ts:77-81 | `public` exactly while a dev-server URL is set, else `dist` |
| MainProcess.OnWindowOpen | electron/main/index.ts:116-119 | every window request is denied; exactly `https:` URLs are opened externally, unchanged |
| MainProcess.ChooseWindowLoad | electron/main/index.ts:130-204 | dev server first (with dev tools); then `dist/index.html` (dev tools in production); then the first found `index.html` (first in depth-first order, see `WindowLoadsFirstInDepthFirstOrder`), which the search can reach; the error page naming DIST exactly when nothing is found |
| MainProcess.NoErrorPageWhenIndexReachable | electron/main/index.ts:162-203 | when the search can reach an `index.html` within three levels, the error page is never shown, whatever fails elsewhere in the tree |
| MainProcess.WindowLoadsFirstInDepthFirstOrder | electron/main/index.ts:188-203 | without a dev server or `dist/index.html`, the window opens the `index.html` that comes first in depth-first order: the entry itself, or the first one found in its subtree, when nothing precedes it |
| MainProcess.AppRoot | electron/main/index.ts:77 | APP_ROOT is the compiled main directory with its last two segments dropped |
| MainProcess.Dist | electron/main/index.ts:78 | DIST is the `dist` directory directly under APP_ROOT |
| MainProcess.EnvFileLoaded | electron/main/index.ts:15-51 | packaged, the resources env file is loaded whenever it exists, else the one beside the executable when it exists; in development only the working directory's file can be loaded |
| MainProcess.PublicFollowsWindow | electron/main/index.ts:77-81 | VITE_PUBLIC is `public` exactly when the window loads the dev server, and otherwise it is DIST, whose `index.html` the window tries first |
| MainProcess.WindowOpenSchemes | electron/main/index.ts:116-119 | only the exact lower-case `https:` scheme opens externally; `http:` and `HTTPS:` are dropped |
| IndexSearch.Find | electron/main/index.ts:162-183 | nothing below depth 3; every result is an `index.html` under the searched directory, within the depth bound (the order of results is stated by `ScanSplitsAt`) |
| IndexSearch.Scan | electron/main/index.ts:166-181 | every result of one listing is an `index.html` under that directory, within the depth bound |
| IndexSearch.FindSound | electron/main/index.ts:162-183 | every path found names an `index.html` the search can reach: readable listings on the way, no unstatable entry before the one taken |
| IndexSearch.ScanSound | electron/main/index.ts:166-181 | the same for one listing |
| IndexSearch.FindComplete | electron/main/index.ts:162-183 | every reachable `index.html` within the depth bound is found, whatever fails elsewhere in the tree |
| IndexSearch.ReachesHasFile | electron/main/index.ts:166-177 | a reachable file is really in the tree |
| IndexSearch.MissedBehindUnstatable | electron/main/index.ts:166-181 | an entry whose `statSync` throws hides its later siblings: an `index.html` right after it is present but not found |
| IndexSearch.ScanComplete | electron/main/index.ts:166-181 | the same for one listing |
| IndexSearch.PruneAll | electron/main/index.ts:163 | pruning keeps every entry's name and kind, leaves files and unstatable entries unchanged, and only cuts the listings one level further down |
| IndexSearch.ScanAppend | electron/main/index.ts:166-181 | results come in listing order: when every entry of the first part can be stat'ed, its results all precede those of the rest |
| IndexSearch.ScanSplitsAt | electron/main/index.ts:166-181 | depth-first order: a listing's results are those of the earlier entries, then the whole subtree of a directory entry (or the `index.html` itself), then the later entries; an entry whose `statSync` throws ends the list |
| IndexSearch.NestedBeforeLaterSibling | electron/main/index.ts:166-181 | an `index.html` inside an earlier directory comes before one later in the parent listing |
| IndexSearch.FindIgnoresDeeperLevels | electron/main/index.ts:163 | the search result does not depend on anything below depth 3 |
| IndexSearch.ScanIgnoresDeeperLevels | electron/main/index.ts:163 | the same for one listing |
| Bridge.Deliver | electron/main/utils/dbUtilityProcess.ts:98-102 | the worker reads the posted request's `type` back as the operation that was sent |
| Bridge.ForkedWorkerMode | electron/db-utility-process.js:27 | the forked worker runs in development exactly when the supervisor's NODE_ENV is not `production` |
| Bridge.UntypedRepliesNeverSettle | electron/main/utils/dbUtilityProcess.ts:64-82 | the worker's answers to undispatchable messages, and its post-failure follow-ups, settle nothing and leave the pending map unchanged |
| Bridge.RoundTrip | electron/main/utils/dbUtilityProcess.ts:89-114 | send, worker answer, receive: exactly the new call settles, its operation leaves the pending map, and the caller sees the worker's result on success or a failure with its error |
| Bridge.MigrationFailureReachesCaller | electron/db-utility-process.js:157-165 | when the migrator throws, the caller sees `success: false` with its message and the worker has left the connection open |
| Bridge.MigrationSuccessReachesCaller | electron/db-utility-process.js:146-156 | when every step works, the caller sees the worker's result naming the migrations folder, and the connection is closed |

Helpers with no row of their own are covered through the rows that use them: `UtilityLogger.DatePath` through `DatePathReadsBack` and `ResolvePath`, `MainLogger.DateStr` through `DateStrReadsBack` and `ConfigureFileTransport`, `Worker.IsDev` through `AppName`, `DatabaseName` and `DatabasePathShape`, `Worker.LocalSchemaPaths` through `SchemaCandidates`, and `Worker.MigrationCandidates` through `MigrationsFolder`.

## Left out

- Process spawning, the IPC transport and message serialisation. The worker is a pure function from message to replies. The supervisor sees replies as events, in the order the model feeds them.
- Timeouts, rejection of duplicate concurrent calls, and failing pending calls when the worker exits or errors. The code has none of these, so there is nothing to model.
- `console` output of the worker, and the log arguments the supervisor passes besides the text. Log lines keep level, text and forwarded data.
- Stack traces: a raised error's stack is modelled as its first line only (name, Node error code when there is one, and message).
- Bridge.Deliver: assumes each side receives the object the other posted, unchanged. The two listeners read it differently. The supervisor unwraps the event's `data` field (dbUtilityProcess.ts:45-46). The worker reads `type` directly off the listener's argument (db-utility-process.js:193-207). The worker finds its port through `worker_threads` or `require('electron')` (db-utility-process.js:12), not through `process.parentPort`. Whether these agree depends on Electron's transport, which is not part of this model. `Bridge.RoundTrip` and the two migration scenarios rest on this assumption.
- `existsSync`/`mkdirSync` of the data directory. They are folded into the single `openDatabase` outcome, because a failure of either ends in the same catch.
- `sqlite.close()` throwing after a successful migration. That outcome is not an input.
- `path.join` normalisation: segments are kept as given, and a segment containing `/` is not split. Rendering uses `/` on every platform.
- Time zones. Both loggers take a calendar date as input; the utility logger's date is the UTC date and the main logger's is the local date.
- Logger properties other than the six level methods: a level naming another truthy property is treated as unknown.
- The `open-win` IPC handler, the preload path, the window icon, single-instance locking, GPU and app-id tweaks, and window focus handlers. They decide nothing the model states.
- The error page's HTML and its URI encoding. Only the directory it names is modelled.
- `src/scripts/migrate.js`, `src/scripts/runMigrations.js`, the utility RNG and counter processes, the database services and controller, the renderer code and the build configuration are not part of this model.
- Paths.RenderAll: renders with `/` separators, not the host platform's separator.
