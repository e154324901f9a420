/** The database utility process: its message dispatcher, the two
    operations it runs, and the path rules those operations use. The file
    system, `require`, opening SQLite and the migrator are inputs. */
module Worker {
  import opened Wrappers
  import opened Text
  import opened Paths
  import opened Protocol

  /** A thrown error: its message and its stack text. */
  datatype Fault = Fault(message: string, stack: string)

  /** An error the worker raises itself; only the first line of its stack
      (name and message) is modelled. */
  function ErrorFault(message: string): (f: Fault)
    ensures f.message == message
  {
    Fault(message, "Error: " + message)
  }

  const MissingPathArgument := "The \"path\" argument must be of type string. Received undefined"

  /** What `path.join` throws when handed an unset environment variable: a
      `TypeError` with Node's `ERR_INVALID_ARG_TYPE` code, which Node puts in
      the first line of the stack. */
  const UnsetPathFault := Fault(MissingPathArgument, "TypeError [ERR_INVALID_ARG_TYPE]: " + MissingPathArgument)

  /** An external step that completes or throws. */
  datatype Attempt = Succeeds | Fails(fault: Fault)

  /** What `require(path)` does: return the module's exports (truthy or not)
      or throw. */
  datatype Load = Loaded(truthy: bool) | LoadFailed(message: string)

  /** Everything the worker reads from its host. */
  datatype Host = Host(
    platform: string,             // process.platform
    appData: Option<Path>,        // APPDATA
    home: Option<Path>,           // HOME
    nodeEnv: Option<string>,      // NODE_ENV
    resourcesPath: Option<Path>,  // process.resourcesPath
    dirname: Path,                // __dirname
    pathExists: Path -> bool,        // existsSync, with a throw read as false
    require: Path -> Load,
    openDatabase: Attempt,        // creating the data directory and opening the SQLite file
    migrate: Attempt)             // drizzle's migrate

  /** Development unless NODE_ENV is exactly `production`. */
  predicate IsDev(nodeEnv: Option<string>) {
    nodeEnv != Some("production")
  }

  const AppBaseName := "hourglass_attention_tracker"

  /** `getAppName()`: suffixed with `_dev` exactly in development. */
  function AppName(dev: bool): (name: string)
    ensures name == AppBaseName + "_dev" <==> dev
    ensures !dev ==> name == AppBaseName
  {
    if dev then AppBaseName + "_dev" else AppBaseName
  }

  /** `getDatabaseName()`. */
  function DatabaseName(dev: bool): (name: string)
    ensures name == "hourglass.dev.db" <==> dev
    ensures name == "hourglass.db" <==> !dev
  {
    if dev then "hourglass.dev.db" else "hourglass.db"
  }

  /** `getAppDataPath()`: the platform's per-user application-data directory
      followed by the app name. */
  function AppDataPath(platform: string, appData: Option<Path>, home: Option<Path>, dev: bool): (r: Result<Path, Fault>)
    ensures r.Success? ==> |r.value| >= 1 && r.value[|r.value| - 1] == AppName(dev)
    ensures platform == "win32" && appData.Some? ==> r == Success(appData.value + [AppName(dev)])
    ensures platform == "darwin" && home.Some? ==> r == Success(home.value + ["Library", "Application Support", AppName(dev)])
    ensures platform == "linux" && home.Some? ==> r == Success(home.value + [".config", AppName(dev)])
    ensures platform == "win32" && appData.None? ==> r == Failure(UnsetPathFault)
    ensures (platform == "darwin" || platform == "linux") && home.None? ==> r == Failure(UnsetPathFault)
    ensures platform != "win32" && platform != "darwin" && platform != "linux" ==>
      r == Failure(ErrorFault("Unsupported platform: " + platform))
  {
    if platform == "win32" then
      if appData.Some? then Success(appData.value + [AppName(dev)]) else Failure(UnsetPathFault)
    else if platform == "darwin" then
      if home.Some? then Success(home.value + ["Library", "Application Support", AppName(dev)]) else Failure(UnsetPathFault)
    else if platform == "linux" then
      if home.Some? then Success(home.value + [".config", AppName(dev)]) else Failure(UnsetPathFault)
    else
      Failure(ErrorFault("Unsupported platform: " + platform))
  }

  /** `getDatabasePath()`. */
  function DatabasePath(h: Host): (r: Result<Path, Fault>)
    ensures r.Success? <==> AppDataPath(h.platform, h.appData, h.home, IsDev(h.nodeEnv)).Success?
    ensures r.Success? ==> r.value == AppDataPath(h.platform, h.appData, h.home, IsDev(h.nodeEnv)).value + [DatabaseName(IsDev(h.nodeEnv))]
  {
    var dir :- AppDataPath(h.platform, h.appData, h.home, IsDev(h.nodeEnv));
    Success(dir + [DatabaseName(IsDev(h.nodeEnv))])
  }

  /** The database file fails to resolve exactly when the platform is not
      one of the three supported or its directory variable is unset; when it
      resolves, it lives in a folder named after the app, and the folder and
      the file both carry the development suffix or neither does. */
  lemma DatabasePathShape(h: Host)
    ensures DatabasePath(h).Success? <==>
      (h.platform == "win32" && h.appData.Some?) || ((h.platform == "darwin" || h.platform == "linux") && h.home.Some?)
    ensures DatabasePath(h).Success? ==>
      var p := DatabasePath(h).value;
      && |p| >= 2
      && (p[|p| - 2] == AppBaseName + "_dev" <==> p[|p| - 1] == "hourglass.dev.db")
      && (p[|p| - 2] == AppBaseName <==> p[|p| - 1] == "hourglass.db")
      && (p[|p| - 1] == "hourglass.dev.db" <==> h.nodeEnv != Some("production"))
  {
    var dev := IsDev(h.nodeEnv);
    var a := AppDataPath(h.platform, h.appData, h.home, dev);
    if a.Success? {
      var p := DatabasePath(h).value;
      assert p == a.value + [DatabaseName(dev)];
      assert p[|p| - 2] == AppName(dev);
      assert AppBaseName != AppBaseName + "_dev" by {
        assert |AppBaseName + "_dev"| == |AppBaseName| + 4;
      }
    }
  }

  /** `array.filter(Boolean)` over entries that are a path or `false`. */
  function Present(xs: seq<Option<Path>>): (r: seq<Path>)
    ensures |r| <= |xs|
    ensures forall p :: p in r <==> Some(p) in xs
  {
    if |xs| == 0 then []
    else if xs[0].Some? then [xs[0].value] + Present(xs[1..])
    else Present(xs[1..])
  }

  /** `filter(Boolean)` keeps the order: filtering a concatenation filters
      each part in turn, so a last entry that is a path comes last. */
  lemma {:induction false} PresentKeepsOrder(xs: seq<Option<Path>>, ys: seq<Option<Path>>)
    ensures Present(xs + ys) == Present(xs) + Present(ys)
    ensures |ys| == 1 ==> Present(xs + ys) == Present(xs) + (if ys[0].Some? then [ys[0].value] else [])
    decreases |xs|
  {
    if |xs| == 0 {
      assert xs + ys == ys;
    } else {
      assert (xs + ys)[0] == xs[0];
      assert (xs + ys)[1..] == xs[1..] + ys;
      PresentKeepsOrder(xs[1..], ys);
    }
    if |ys| == 1 {
      assert ys[1..] == [];
    }
  }

  const SchemaSuffix: Path := ["dist", "electron", "main", "db", "schema"]

  /** The schema locations next to the worker file, tried in every mode. */
  function LocalSchemaPaths(dirname: Path): seq<Path> {
    [Parent(dirname) + SchemaSuffix, dirname + ["main", "db", "schema"]]
  }

  /** The schema locations in order: the two inside the packaged resources
      (production only, `false` otherwise and then filtered out), then the
      two next to the worker. */
  function SchemaCandidates(h: Host): (r: Result<seq<Path>, Fault>)
    ensures IsDev(h.nodeEnv) ==> r == Success(LocalSchemaPaths(h.dirname))
    ensures !IsDev(h.nodeEnv) && h.resourcesPath.Some? ==>
      r.Success? && |r.value| == 4 && r.value[2..] == LocalSchemaPaths(h.dirname)
      && r.value[0] == h.resourcesPath.value + ["app.asar.unpacked"] + SchemaSuffix
      && r.value[1] == h.resourcesPath.value + ["app.asar"] + SchemaSuffix
    ensures !IsDev(h.nodeEnv) && h.resourcesPath.None? ==> r == Failure(UnsetPathFault)
  {
    var packaged := !IsDev(h.nodeEnv);
    if packaged && h.resourcesPath.None? then Failure(UnsetPathFault)
    else
      var local := LocalSchemaPaths(h.dirname);
      var unpacked := if packaged then Some(h.resourcesPath.value + ["app.asar.unpacked"] + SchemaSuffix) else None;
      var packed := if packaged then Some(h.resourcesPath.value + ["app.asar"] + SchemaSuffix) else None;
      PresentCandidates(unpacked, packed, local);
      Success(Present([unpacked, packed, Some(local[0]), Some(local[1])]))
  }

  /** Filtering two packaged entries that are both paths or both `false`,
      followed by two paths. */
  lemma PresentCandidates(a: Option<Path>, b: Option<Path>, local: seq<Path>)
    requires |local| == 2 && a.Some? == b.Some?
    ensures a.Some? ==> Present([a, b, Some(local[0]), Some(local[1])]) == [a.value, b.value] + local
    ensures a.None? ==> Present([a, b, Some(local[0]), Some(local[1])]) == local
  {
    var xs := [a, b, Some(local[0]), Some(local[1])];
    var tail := [Some(local[0]), Some(local[1])];
    assert xs[1..][1..] == tail;
    assert tail[1..][1..] == [];
    assert Present(tail) == local;
  }

  /** Candidate `i` is the first whose `require` returns: every earlier one
      threw, and it returned truthy exports. */
  ghost predicate FirstLoadedAt(cands: seq<Path>, require: Path -> Load, i: int) {
    && 0 <= i < |cands|
    && require(cands[i]) == Loaded(true)
    && forall j :: 0 <= j < i ==> require(cands[j]).LoadFailed?
  }

  /** `${loadError?.message}`. */
  function ErrorText(lastError: Option<string>): string {
    if lastError.Some? then lastError.value else "undefined"
  }

  const SchemaNotFound := "Failed to load schema from any location. Last error: "

  /** The schema loop: `require` each candidate in turn, stop at the first
      that returns; fail unless what it returned is truthy. `lastError` is the
      message of the latest failed `require` so far. */
  function SelectSchema(cands: seq<Path>, require: Path -> Load, lastError: Option<string>): (r: Result<Path, Fault>)
    ensures r.Success? <==> exists i :: FirstLoadedAt(cands, require, i)
    ensures r.Success? ==> exists i :: FirstLoadedAt(cands, require, i) && r.value == cands[i]
    ensures (forall i :: 0 <= i < |cands| ==> require(cands[i]).LoadFailed?) ==>
      r == Failure(ErrorFault(SchemaNotFound + ErrorText(if |cands| == 0 then lastError else Some(require(cands[|cands| - 1]).message))))
    decreases |cands|
  {
    if |cands| == 0 then Failure(ErrorFault(SchemaNotFound + ErrorText(lastError)))
    else
      assert forall i :: 1 <= i < |cands| ==> cands[i] == cands[1..][i - 1];
      match require(cands[0])
      case Loaded(truthy) =>
        assert forall i :: 0 < i < |cands| ==> !FirstLoadedAt(cands, require, i);
        if truthy then
          assert FirstLoadedAt(cands, require, 0);
          Success(cands[0])
        else Failure(ErrorFault(SchemaNotFound + ErrorText(lastError)))
      case LoadFailed(m) =>
        var r := SelectSchema(cands[1..], require, Some(m));
        assert forall i :: 0 < i < |cands| ==> (FirstLoadedAt(cands, require, i) <==> FirstLoadedAt(cands[1..], require, i - 1));
        if r.Success? then
          ghost var i :| FirstLoadedAt(cands[1..], require, i) && r.value == cands[1..][i];
          assert FirstLoadedAt(cands, require, i + 1);
          r
        else
          r
  }

  /** The schema part of `connectToDatabase()`: it succeeds exactly when
      the candidate list can be built and one of its candidates is the first
      whose `require` returns truthy exports, and then yields that one. */
  function LoadSchema(h: Host): (r: Result<Path, Fault>)
    ensures r.Success? <==>
      SchemaCandidates(h).Success? && exists i :: FirstLoadedAt(SchemaCandidates(h).value, h.require, i)
    ensures r.Success? ==>
      exists i :: FirstLoadedAt(SchemaCandidates(h).value, h.require, i) && r.value == SchemaCandidates(h).value[i]
    ensures SchemaCandidates(h).Failure? ==> r == Failure(SchemaCandidates(h).error)
  {
    var cands :- SchemaCandidates(h);
    SelectSchema(cands, h.require, None)
  }

  /** The packaged migrations locations, in the order they are tried. */
  function MigrationCandidates(resourcesPath: Path, dirname: Path): seq<Path> {
    [resourcesPath + ["app.asar.unpacked", "migrations"],
     resourcesPath + ["app.asar", "migrations"],
     Parent(dirname) + ["migrations"]]
  }

  const MigrationsNotFound := "Could not find migrations directory. Tried: "

  /** The migrations folder: in development always beside the worker's
      parent; in production the first candidate that exists, or an error
      listing every candidate. */
  function MigrationsFolder(h: Host): (r: Result<Path, Fault>)
    ensures IsDev(h.nodeEnv) ==> r == Success(Parent(h.dirname) + ["migrations"])
    ensures !IsDev(h.nodeEnv) && h.resourcesPath.Some? ==>
      var cands := MigrationCandidates(h.resourcesPath.value, h.dirname);
      && (r.Success? ==> exists i :: FirstExistingAt(cands, h.pathExists, i) && r.value == cands[i])
      && (r.Failure? <==> forall i :: 0 <= i < |cands| ==> !h.pathExists(cands[i]))
      && (r.Failure? ==> r.error == ErrorFault(MigrationsNotFound + JoinWith(RenderAll(cands), ", ")))
    ensures !IsDev(h.nodeEnv) && h.resourcesPath.None? ==> r == Failure(UnsetPathFault)
  {
    if IsDev(h.nodeEnv) then Success(Parent(h.dirname) + ["migrations"])
    else if h.resourcesPath.None? then Failure(UnsetPathFault)
    else
      var cands := MigrationCandidates(h.resourcesPath.value, h.dirname);
      match FirstExisting(cands, h.pathExists)
      case Some(p) => Success(p)
      case None => Failure(ErrorFault(MigrationsNotFound + JoinWith(RenderAll(cands), ", ")))
  }

  /** The database connection at the end of an operation. */
  datatype Connection = NotOpened | LeftOpen | Closed

  datatype MigrationRun = MigrationRun(reply: Reply, connection: Connection)

  /** `{ type: 'run-migrations', success: false, error, stack }`: what the
      catch of `runMigrations()` answers with the thrown error. */
  function MigrationFailed(f: Fault): (r: Reply)
    ensures r.kind == Some(Op.RunMigrations) && !r.success
    ensures r.error == Some(f.message) && r.stack == Some(f.stack) && r.data.None?
  {
    Reply(Some(Op.RunMigrations), false, Some(f.message), Some(f.stack), None)
  }

  /** Every step of `runMigrations()` up to and including `migrate`
      completes. */
  ghost predicate AllStepsSucceed(h: Host) {
    && DatabasePath(h).Success?
    && h.openDatabase.Succeeds?
    && LoadSchema(h).Success?
    && MigrationsFolder(h).Success?
    && h.migrate.Succeeds?
  }

  /** `runMigrations()`: never throws; every result is typed
      `run-migrations`; the connection is closed only after `migrate`
      completes, and is left open by any failure after it was opened. */
  function RunMigrations(h: Host): (run: MigrationRun)
    ensures run.reply.kind == Some(Op.RunMigrations)
    ensures run.reply.success <==> AllStepsSucceed(h)
    ensures run.reply.success <==> run.connection == Closed
    ensures run.connection == Closed ==> h.migrate.Succeeds?
    ensures run.connection == NotOpened <==> DatabasePath(h).Failure? || h.openDatabase.Fails?
    ensures run.reply.success ==>
      run.reply.data == Some(MigrationsAt(MigrationsFolder(h).value)) && run.reply.error.None?
    ensures !run.reply.success ==> run.reply.error.Some? && run.reply.stack.Some? && run.reply.data.None?
    ensures DatabasePath(h).Failure? ==> run.reply == MigrationFailed(DatabasePath(h).error)
    ensures DatabasePath(h).Success? && h.openDatabase.Fails? ==>
      run.reply == MigrationFailed(h.openDatabase.fault)
    ensures DatabasePath(h).Success? && h.openDatabase.Succeeds? && LoadSchema(h).Failure? ==>
      run.reply == MigrationFailed(LoadSchema(h).error) && run.connection == LeftOpen
    ensures DatabasePath(h).Success? && h.openDatabase.Succeeds? && LoadSchema(h).Success?
            && MigrationsFolder(h).Failure? ==>
      run.reply == MigrationFailed(MigrationsFolder(h).error) && run.connection == LeftOpen
    ensures (DatabasePath(h).Success? && h.openDatabase.Succeeds? && LoadSchema(h).Success?
             && MigrationsFolder(h).Success? && h.migrate.Fails?) ==>
      run.reply == MigrationFailed(h.migrate.fault) && run.connection == LeftOpen
  {
    if DatabasePath(h).Failure? then MigrationRun(MigrationFailed(DatabasePath(h).error), NotOpened)
    else if h.openDatabase.Fails? then MigrationRun(MigrationFailed(h.openDatabase.fault), NotOpened)
    else if LoadSchema(h).Failure? then MigrationRun(MigrationFailed(LoadSchema(h).error), LeftOpen)
    else if MigrationsFolder(h).Failure? then MigrationRun(MigrationFailed(MigrationsFolder(h).error), LeftOpen)
    else if h.migrate.Fails? then MigrationRun(MigrationFailed(h.migrate.fault), LeftOpen)
    else MigrationRun(Reply(Some(Op.RunMigrations), true, None, None, Some(MigrationsAt(MigrationsFolder(h).value))), Closed)
  }

  const SchemaGenerationNote := "Schema generation should be handled by drizzle-kit CLI via npm scripts"

  /** `generateSchema()`: schema generation is left to an external tool, so
      this always succeeds with an informational note. */
  function GenerateSchema(): (r: Reply)
    ensures r.kind == Some(Op.GenerateSchema) && r.success && r.error.None?
    ensures r.data.Some? && r.data.value.Note?
  {
    Reply(Some(Op.GenerateSchema), true, None, None, Some(Note(SchemaGenerationNote)))
  }

  /** A message from the supervisor: falsy or not an object, or an object
      whose `type` may be absent. */
  datatype Incoming = NotAnObject | Envelope(kind: Option<string>)

  const InvalidMessage := "Invalid message format"
  const UnknownOperation := "Unknown operation: "
  const UnknownWorkerError := "Unknown error in db utility process"

  /** The operation a message asks for, if it names one. */
  function Requested(msg: Incoming): Option<Op> {
    if msg.Envelope? && msg.kind.Some? then ParseOp(msg.kind.value) else None
  }

  /** The response object for a message: the operation's result when `type`
      names one, otherwise a failure without `type`. */
  function Respond(msg: Incoming, h: Host): (r: Reply)
    ensures r.kind == Requested(msg)
    ensures msg.NotAnObject? ==> r == Failed(InvalidMessage)
    ensures msg.Envelope? && Requested(msg).None? ==>
      r == Failed(UnknownOperation + ErrorText(msg.kind))
    ensures Requested(msg) == Some(Op.RunMigrations) ==> r == RunMigrations(h).reply
    ensures Requested(msg) == Some(Op.GenerateSchema) ==> r == GenerateSchema()
  {
    match msg
    case NotAnObject => Failed(InvalidMessage)
    case Envelope(kind) =>
      if Requested(msg) == Some(Op.RunMigrations) then RunMigrations(h).reply
      else if Requested(msg) == Some(Op.GenerateSchema) then GenerateSchema()
      else Failed(UnknownOperation + ErrorText(kind))
  }

  /** Whether posting the response succeeded, or threw (with a message that
      may be absent). */
  datatype Delivery = Delivered | PostFails(message: Option<string>)

  /** The 'message' listener: the objects it hands to `postMessage`, in
      order. An object message is answered once; only when that post throws
      is a second, untyped failure posted. The answer to a non-object is
      posted outside the `try`, so nothing follows it. */
  function Handle(msg: Incoming, h: Host, delivery: Delivery): (posts: seq<Reply>)
    ensures 1 <= |posts| <= 2 && posts[0] == Respond(msg, h)
    ensures |posts| == 2 <==> msg.Envelope? && delivery.PostFails?
    ensures |posts| == 2 ==> posts[1].kind.None? && !posts[1].success
    ensures |posts| == 2 && delivery.message.Some? && delivery.message.value != "" ==>
      posts[1].error == Some(delivery.message.value)
    ensures |posts| == 2 && (delivery.message.None? || delivery.message.value == "") ==>
      posts[1].error == Some(UnknownWorkerError)
  {
    var response := Respond(msg, h);
    if msg.Envelope? && delivery.PostFails? then
      [response, Failed(Or(delivery.message, UnknownWorkerError))]
    else
      [response]
  }

  /** The database connection once the listener has answered `msg`. */
  function ConnectionAfter(msg: Incoming, h: Host): (c: Connection)
    ensures Requested(msg) != Some(Op.RunMigrations) ==> c == NotOpened
    ensures c == Closed <==> Respond(msg, h).kind == Some(Op.RunMigrations) && Respond(msg, h).success
  {
    if Requested(msg) == Some(Op.RunMigrations) then RunMigrations(h).connection else NotOpened
  }
}
