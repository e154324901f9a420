/** The message shapes the supervisor and the worker exchange: the closed set
    of database operations and the result object the worker replies with. */
module Protocol {
  import opened Wrappers
  import opened Paths

  /** `DbOperation`: the operations the worker can be asked to run. */
  datatype Op = RunMigrations | GenerateSchema

  /** The `type` string that names an operation on the channel. */
  function OpName(op: Op): string {
    match op
    case RunMigrations => "run-migrations"
    case GenerateSchema => "generate-schema"
  }

  /** Recognises an operation name; every other string names no operation. */
  function ParseOp(s: string): (r: Option<Op>)
    ensures r.Some? ==> OpName(r.value) == s
    ensures r.None? ==> forall op: Op :: OpName(op) != s
  {
    if s == "run-migrations" then Some(RunMigrations)
    else if s == "generate-schema" then Some(GenerateSchema)
    else None
  }

  /** Distinct operations have distinct names, so a name read back is the
      operation that was sent. */
  lemma ParseOpName(op: Op)
    ensures ParseOp(OpName(op)) == Some(op)
  {
  }

  /** The `data` of a successful result. */
  datatype Payload = MigrationsAt(migrationsPath: Path) | Note(message: string)

  /** `DbOperationResult`: `type` is absent on the worker's replies to
      messages it could not dispatch. */
  datatype Reply = Reply(
    kind: Option<Op>,
    success: bool,
    error: Option<string>,
    stack: Option<string>,
    data: Option<Payload>)

  /** `{ success: false, error: message }`, with no `type`. */
  function Failed(message: string): (r: Reply)
    ensures r.kind.None? && !r.success && r.error == Some(message)
  {
    Reply(None, false, Some(message), None, None)
  }
}
