/** The main-process side of the database utility process: a map from
    operation to the settler of the call waiting for it, one message handler
    that forwards worker logs and settles calls, and the `runMigrations`,
    `generateSchema` and `close` entry points. Call settlers are represented
    by call numbers, so the state is an immutable value and every event is a
    pure step. */
module Supervisor {
  import opened Wrappers
  import opened Text
  import opened Paths
  import opened Protocol
  import MainLogger

  const LogPrefix := "[DB UTILITY PROCESS]"
  const UnknownWorkerError := "Unknown error from DB utility process"
  const WorkerFile := "db-utility-process.js"

  /** The worker's entry file: inside the unpacked resources when NODE_ENV is
      `production`, two directories above the compiled main code otherwise. */
  function WorkerEntry(nodeEnv: Option<string>, resourcesPath: Path, dirname: Path): (p: Path)
    ensures |p| >= 1 && p[|p| - 1] == WorkerFile
    ensures nodeEnv == Some("production") ==>
      |p| == |resourcesPath| + 5 && p[..|resourcesPath|] == resourcesPath && p[|resourcesPath|..] == ["app.asar.unpacked", "electron", "main", "utils", WorkerFile]
    ensures nodeEnv != Some("production") ==> p[..|p| - 1] == Parent(Parent(dirname))
  {
    if nodeEnv == Some("production") then
      resourcesPath + ["app.asar.unpacked", "electron", "main", "utils", WorkerFile]
    else
      Parent(Parent(dirname)) + [WorkerFile]
  }

  /** The `NODE_ENV` the worker is forked with: the parent's, or
      `development` when unset or empty. */
  function ForkNodeEnv(nodeEnv: Option<string>): (e: string)
    ensures e != ""
    ensures e == "production" <==> nodeEnv == Some("production")
    ensures nodeEnv.Some? && nodeEnv.value != "" ==> e == nodeEnv.value
  {
    Or(nodeEnv, "development")
  }

  /** The request posted to the worker. */
  datatype Request = Request(kind: Op, env: Option<string>, timestamp: string)

  /** A thrown value: an `Error` with its message, or anything else with its
      `String(...)` text. */
  datatype Thrown = ErrorObject(message: string) | OtherValue(text: string)

  /** `error instanceof Error ? error.message : String(error)`: an error is
      described by its message, anything else by its string form. */
  function Describe(t: Thrown): (d: string)
    ensures t.ErrorObject? ==> d == t.message
    ensures t.OtherValue? ==> d == t.text
  {
    match t
    case ErrorObject(m) => m
    case OtherValue(text) => text
  }

  /** How a call ended: resolved with the whole result, or rejected. */
  datatype Settlement = Resolved(call: nat, value: Reply) | Rejected(call: nat, reason: Thrown)

  /** The supervisor's own log texts; every one starts with `LogPrefix`. */
  datatype Notice =
    | Forwarded                  // a worker log at a level the logger has
    | UnknownLevel               // a worker log at any other level
    | OperationFailed(op: Op)    // a matched result with `success: false`
    | Unexpected                 // a result nobody is waiting for
    | SendFailed(op: Op)         // `postMessage` threw
    | KillFailed                 // `kill()` returned false
    | ProcessSpawned
    | ProcessExited(code: nat)
    | ProcessError
    | AwaitFailed(op: Op)        // the wrapper caught a rejection
  {
    function Wording(): (w: string)
      ensures |LogPrefix| <= |w| && w[..|LogPrefix|] == LogPrefix
    {
      var suffix := match this
        case Forwarded => ""
        case UnknownLevel => " - Unknown Level"
        case OperationFailed(op) => " Operation " + OpName(op) + " failed:"
        case Unexpected => " Received unexpected message from DB utility process (not a log, no pending operation):"
        case SendFailed(op) => " Failed to send operation " + OpName(op) + " to utility process:"
        case KillFailed => " Failed to kill database utility process"
        case ProcessSpawned => " Database utility process spawned"
        case ProcessExited(code) => " Database utility process exited with code: " + NatToString(code)
        case ProcessError => " Database utility process error:"
        case AwaitFailed(RunMigrations) => " Error running migrations:"
        case AwaitFailed(GenerateSchema) => " Error generating schema:";
      LogPrefix + suffix
    }
  }

  datatype LogLine = LogLine(level: string, notice: Notice, data: seq<string>)

  /** What arrives from the worker: something that is not an object (or is
      falsy), a forwarded log (`type: '__LOG__'`), or an operation result. */
  datatype Message = NonObject | Log(level: string, data: seq<string>) | Result(reply: Reply)

  datatype Event =
    | Send(op: Op, env: Option<string>, timestamp: string)  // sendOperation, postMessage succeeds
    | PostThrows(op: Op, err: Thrown)                      // sendOperation, postMessage throws
    | Receive(msg: Message)                                // the 'message' listener
    | Close(killed: bool)                                  // close(), with what kill() returned
    | Spawned                                              // the 'spawn' listener
    | Exited(code: nat)                                    // the 'exit' listener
    | Crashed(detail: string)                              // the 'error' listener

  /** `pending` maps each operation to the call whose settler is stored for
      it; calls are numbered from 0 in the order they are made. */
  datatype State = State(
    pending: map<Op, nat>,
    nextCall: nat,
    posted: seq<Request>,
    settled: seq<Settlement>,
    logs: seq<LogLine>,
    kills: nat)

  const Initial: State := State(map[], 0, [], [], [], 0)

  /** A forwarded worker log: at its own level when the logger has a method of
      that name, otherwise at `info` marked as an unknown level. */
  function ForwardedLine(level: string, data: seq<string>): (line: LogLine)
    ensures line.data == data
    ensures level in MainLogger.LogMethods ==> line.level == level && line.notice == Forwarded
    ensures level !in MainLogger.LogMethods ==> line.level == "info" && line.notice == UnknownLevel
  {
    if level in MainLogger.LogMethods then LogLine(level, Forwarded, data)
    else LogLine("info", UnknownLevel, data)
  }

  /** Worker logs and renderer logs use the same level set: a renderer log
      is passed on exactly when a worker log of that level would be logged
      at its own level, and both then use that level. */
  lemma SameLevelsForwarded<V>(level: string, data: seq<string>, rdata: seq<V>, variables: V)
    ensures MainLogger.ForwardRendererLog(level, rdata, variables).Some? <==> ForwardedLine(level, data).notice == Forwarded
    ensures MainLogger.ForwardRendererLog(level, rdata, variables).Some? ==>
      MainLogger.ForwardRendererLog(level, rdata, variables).value.level == level == ForwardedLine(level, data).level
  {
  }

  /** How the pending call `call` ends when result `r` arrives for it. */
  function Settle(call: nat, r: Reply): (st: Settlement)
    ensures st.call == call
    ensures st.Resolved? <==> r.success
    ensures st.Resolved? ==> st.value == r
    ensures st.Rejected? && r.error.Some? && r.error.value != "" ==> st.reason == ErrorObject(r.error.value)
    ensures st.Rejected? && (r.error.None? || r.error.value == "") ==> st.reason == ErrorObject(UnknownWorkerError)
  {
    if r.success then Resolved(call, r) else Rejected(call, ErrorObject(Or(r.error, UnknownWorkerError)))
  }

  /** A result is matched when its `type` has a pending entry. */
  predicate Matches(s: State, r: Reply) {
    r.kind.Some? && r.kind.value in s.pending
  }

  /** The 'message' listener. */
  function OnMessage(s: State, msg: Message): (t: State)
    ensures t.nextCall == s.nextCall && t.posted == s.posted && t.kills == s.kills
    ensures msg.NonObject? ==> t == s
    ensures msg.Log? ==> t.pending == s.pending && t.settled == s.settled
    ensures msg.Log? ==> t.logs == s.logs + [ForwardedLine(msg.level, msg.data)]
    ensures msg.Result? && Matches(s, msg.reply) ==>
      var k := msg.reply.kind.value;
      && t.pending == s.pending - {k}
      && t.settled == s.settled + [Settle(s.pending[k], msg.reply)]
    ensures msg.Result? && !Matches(s, msg.reply) ==>
      t.pending == s.pending && t.settled == s.settled && |t.logs| == |s.logs| + 1 && t.logs[|s.logs|].level == "warn"
  {
    match msg
    case NonObject => s
    case Log(level, data) => s.(logs := s.logs + [ForwardedLine(level, data)])
    case Result(r) =>
      if Matches(s, r) then
        var k := r.kind.value;
        var failure := if r.success then [] else [LogLine("error", OperationFailed(k), [])];
        s.(pending := s.pending - {k}, settled := s.settled + [Settle(s.pending[k], r)], logs := s.logs + failure)
      else
        s.(logs := s.logs + [LogLine("warn", Unexpected, [])])
  }

  /** `sendOperation(op)` when `postMessage` succeeds: the new call's settler
      is stored under `op` (replacing any earlier one) and the request is
      posted. */
  function Post(s: State, op: Op, env: Option<string>, ts: string): (t: State)
    ensures t.pending.Keys == s.pending.Keys + {op} && t.pending[op] == s.nextCall
    ensures forall k :: k in s.pending && k != op ==> t.pending[k] == s.pending[k]
    ensures t.nextCall == s.nextCall + 1
    ensures |t.posted| == |s.posted| + 1 && t.posted[..|s.posted|] == s.posted
    ensures t.posted[|s.posted|].kind == op
    ensures t.settled == s.settled
  {
    s.(pending := s.pending[op := s.nextCall], nextCall := s.nextCall + 1, posted := s.posted + [Request(op, env, ts)])
  }

  /** `sendOperation(op)` when `postMessage` throws: the settler stored under
      `op` is deleted again and the new call is rejected with what was
      thrown. */
  function PostFailed(s: State, op: Op, err: Thrown): (t: State)
    ensures op !in t.pending
    ensures t.pending == s.pending - {op}
    ensures t.nextCall == s.nextCall + 1
    ensures t.posted == s.posted
    ensures t.settled == s.settled + [Rejected(s.nextCall, err)]
  {
    s.(pending := s.pending[op := s.nextCall] - {op}, nextCall := s.nextCall + 1,
       settled := s.settled + [Rejected(s.nextCall, err)],
       logs := s.logs + [LogLine("error", SendFailed(op), [])])
  }

  /** `close()`: `kill()` is called once; a `false` answer is only warned
      about. */
  function Kill(s: State, killed: bool): (t: State)
    ensures t.pending == s.pending && t.nextCall == s.nextCall && t.settled == s.settled && t.posted == s.posted
    ensures t.kills == s.kills + 1
    ensures killed <==> t.logs == s.logs
    ensures !killed ==> |t.logs| == |s.logs| + 1 && t.logs[|s.logs|].level == "warn"
  {
    s.(kills := s.kills + 1,
       logs := if killed then s.logs else s.logs + [LogLine("warn", KillFailed, [])])
  }

  /** The process-lifecycle listeners only log. */
  function Note(s: State, line: LogLine): (t: State)
    ensures t.pending == s.pending && t.nextCall == s.nextCall && t.settled == s.settled && t.posted == s.posted
    ensures t.kills == s.kills && t.logs == s.logs + [line]
  {
    s.(logs := s.logs + [line])
  }

  /** One event, dispatched to its listener or entry point. Only a send
      posts, only `close()` kills, and only a received result or a failed
      send can settle a call. */
  function Step(s: State, e: Event): (t: State)
    ensures |t.posted| == |s.posted| + (if e.Send? then 1 else 0)
    ensures t.kills == s.kills + (if e.Close? then 1 else 0)
    ensures !e.Receive? && !e.PostThrows? ==> t.settled == s.settled
  {
    match e
    case Send(op, env, ts) => Post(s, op, env, ts)
    case PostThrows(op, err) => PostFailed(s, op, err)
    case Receive(msg) => OnMessage(s, msg)
    case Close(killed) => Kill(s, killed)
    case Spawned => Note(s, LogLine("info", ProcessSpawned, []))
    case Exited(code) => Note(s, LogLine("info", ProcessExited(code), []))
    case Crashed(detail) => Note(s, LogLine("error", ProcessError, [detail]))
  }

  /** What any step may do to the calls: settlements are only appended, the
      call counter grows by at most one, and a step settles only calls that
      were pending or the call it makes itself, and stores only that call. */
  lemma StepFrame(s: State, e: Event)
    ensures var t := Step(s, e);
      && |s.settled| <= |t.settled| && t.settled[..|s.settled|] == s.settled
      && s.nextCall <= t.nextCall <= s.nextCall + 1
      && (forall k :: k in t.pending ==> t.pending[k] == s.nextCall || (k in s.pending && t.pending[k] == s.pending[k]))
      && (forall i :: |s.settled| <= i < |t.settled| ==>
            t.settled[i].call == s.nextCall || exists k :: k in s.pending && s.pending[k] == t.settled[i].call)
  {
    var t := Step(s, e);
    if e.Receive? && e.msg.Result? && Matches(s, e.msg.reply) {
      var k := e.msg.reply.kind.value;
      assert t.settled[|s.settled|].call == s.pending[k];
    }
  }

  /** A sequence of events, in order. */
  function Run(s: State, evs: seq<Event>): State
    decreases |evs|
  {
    if |evs| == 0 then s else Run(Step(s, evs[0]), evs[1..])
  }

  /** Bookkeeping that holds in every reachable state: pending calls are
      distinct, already made and not yet settled; no call is settled twice;
      a resolved call resolved with a successful result. */
  ghost predicate Inv(s: State) {
    && (forall k :: k in s.pending ==> s.pending[k] < s.nextCall)
    && (forall k1, k2 :: k1 in s.pending && k2 in s.pending && k1 != k2 ==> s.pending[k1] != s.pending[k2])
    && (forall i :: 0 <= i < |s.settled| ==> s.settled[i].call < s.nextCall)
    && (forall i, k :: 0 <= i < |s.settled| && k in s.pending ==> s.settled[i].call != s.pending[k])
    && (forall i, j :: 0 <= i < j < |s.settled| ==> s.settled[i].call != s.settled[j].call)
    && (forall i :: 0 <= i < |s.settled| && s.settled[i].Resolved? ==> s.settled[i].value.success)
  }

  lemma InitialInv()
    ensures Inv(Initial)
  {
  }

  lemma ReceivePreservesInv(s: State, msg: Message)
    requires Inv(s)
    ensures Inv(OnMessage(s, msg))
  {
    var t := OnMessage(s, msg);
    if msg.Result? && Matches(s, msg.reply) {
      var id := s.pending[msg.reply.kind.value];
      assert t.settled[|s.settled|].call == id;
      forall i, j | 0 <= i < j < |t.settled|
        ensures t.settled[i].call != t.settled[j].call
      {
        if j == |s.settled| {
          assert t.settled[i] == s.settled[i];
        }
      }
    }
  }

  lemma PostPreservesInv(s: State, op: Op, env: Option<string>, ts: string)
    requires Inv(s)
    ensures Inv(Post(s, op, env, ts))
  {
  }

  lemma PostFailedPreservesInv(s: State, op: Op, err: Thrown)
    requires Inv(s)
    ensures Inv(PostFailed(s, op, err))
  {
    var t := PostFailed(s, op, err);
    forall i, j | 0 <= i < j < |t.settled|
      ensures t.settled[i].call != t.settled[j].call
    {
      if j == |s.settled| {
        assert t.settled[i] == s.settled[i];
      }
    }
  }

  lemma StepPreservesInv(s: State, e: Event)
    requires Inv(s)
    ensures Inv(Step(s, e))
  {
    match e
    case Send(op, env, ts) => PostPreservesInv(s, op, env, ts);
    case PostThrows(op, err) => PostFailedPreservesInv(s, op, err);
    case Receive(msg) => ReceivePreservesInv(s, msg);
    case Close(killed) =>
    case Spawned =>
    case Exited(code) =>
    case Crashed(detail) =>
  }

  lemma {:induction false} RunPreservesInv(s: State, evs: seq<Event>)
    requires Inv(s)
    ensures Inv(Run(s, evs))
    decreases |evs|
  {
    if |evs| > 0 {
      StepPreservesInv(s, evs[0]);
      RunPreservesInv(Step(s, evs[0]), evs[1..]);
    }
  }

  /** Events only ever append settlements. */
  lemma {:induction false} RunExtendsSettled(s: State, evs: seq<Event>)
    ensures |s.settled| <= |Run(s, evs).settled|
    ensures Run(s, evs).settled[..|s.settled|] == s.settled
    ensures s.nextCall <= Run(s, evs).nextCall
    decreases |evs|
  {
    if |evs| > 0 {
      var t := Step(s, evs[0]);
      StepFrame(s, evs[0]);
      RunExtendsSettled(t, evs[1..]);
      assert Run(s, evs).settled[..|t.settled|][..|s.settled|] == Run(s, evs).settled[..|s.settled|];
    }
  }

  /** A call that was made but no longer has a pending entry (its settler was
      overwritten or removed) is never settled by any later event. */
  lemma {:induction false} OrphanNeverSettles(s: State, evs: seq<Event>, call: nat)
    requires call < s.nextCall
    requires forall k :: k in s.pending ==> s.pending[k] != call
    ensures forall i :: |s.settled| <= i < |Run(s, evs).settled| ==> Run(s, evs).settled[i].call != call
    decreases |evs|
  {
    if |evs| > 0 {
      var t := Step(s, evs[0]);
      StepFrame(s, evs[0]);
      assert forall i :: |s.settled| <= i < |t.settled| ==> t.settled[i].call != call;
      OrphanNeverSettles(t, evs[1..], call);
      RunExtendsSettled(t, evs[1..]);
      var r := Run(s, evs);
      assert r == Run(t, evs[1..]);
      forall i | |s.settled| <= i < |r.settled|
        ensures r.settled[i].call != call
      {
        if i < |t.settled| {
          assert r.settled[i] == r.settled[..|t.settled|][i];
        }
      }
    }
  }

  /** Sending the same operation twice overwrites the first settler, so the
      first call never settles, whatever happens next. */
  lemma SecondSendOrphansFirst(s: State, op: Op, env1: Option<string>, ts1: string, env2: Option<string>, ts2: string, evs: seq<Event>)
    requires forall k :: k in s.pending ==> s.pending[k] < s.nextCall
    ensures
      var s2 := Step(Step(s, Send(op, env1, ts1)), Send(op, env2, ts2));
      var r := Run(s2, evs);
      forall i :: |s.settled| <= i < |r.settled| ==> r.settled[i].call != s.nextCall
  {
    var s1 := Post(s, op, env1, ts1);
    var s2 := Post(s1, op, env2, ts2);
    assert forall k :: k in s2.pending ==> s2.pending[k] != s.nextCall by {
      forall k | k in s2.pending
        ensures s2.pending[k] != s.nextCall
      {
        if k != op {
          assert s2.pending[k] == s1.pending[k] == s.pending[k];
        }
      }
    }
    OrphanNeverSettles(s2, evs, s.nextCall);
  }

  /** A send whose post throws removes the entry for its operation, so an
      earlier call still waiting on that operation never settles either. */
  lemma FailedSendOrphansEarlier(s: State, op: Op, err: Thrown, evs: seq<Event>)
    requires Inv(s)
    requires op in s.pending
    ensures
      var s1 := Step(s, PostThrows(op, err));
      var r := Run(s1, evs);
      forall i :: |s.settled| <= i < |r.settled| ==> r.settled[i].call != s.pending[op]
  {
    var s1 := Step(s, PostThrows(op, err));
    StepPreservesInv(s, PostThrows(op, err));
    OrphanNeverSettles(s1, evs, s.pending[op]);
    var r := Run(s1, evs);
    RunExtendsSettled(s1, evs);
    forall i | |s.settled| <= i < |r.settled|
      ensures r.settled[i].call != s.pending[op]
    {
      if i == |s.settled| {
        assert r.settled[i] == r.settled[..|s1.settled|][i];
      }
    }
  }

  /** The call bookkeeping of two states agrees (logs and kill count aside). */
  predicate SameCalls(a: State, b: State) {
    a.pending == b.pending && a.nextCall == b.nextCall && a.posted == b.posted && a.settled == b.settled
  }

  predicate IsLog(e: Event) {
    e.Receive? && e.msg.Log?
  }

  /** The events with every forwarded log taken out. */
  function WithoutLogs(evs: seq<Event>): (r: seq<Event>)
    ensures |r| <= |evs|
    ensures forall i :: 0 <= i < |r| ==> !IsLog(r[i])
  {
    if |evs| == 0 then []
    else if IsLog(evs[0]) then WithoutLogs(evs[1..])
    else [evs[0]] + WithoutLogs(evs[1..])
  }

  lemma StepRespectsSameCalls(a: State, b: State, e: Event)
    requires SameCalls(a, b)
    ensures SameCalls(Step(a, e), Step(b, e))
  {
    match e
    case Send(op, env, ts) =>
    case PostThrows(op, err) =>
    case Receive(msg) =>
    case Close(killed) =>
    case Spawned =>
    case Exited(code) =>
    case Crashed(detail) =>
  }

  /** Forwarded logs are invisible to calls: however many are interleaved,
      the pending map, the posted requests and the settlements are those of
      the same events without the logs. */
  lemma {:induction false} LogsDoNotAffectCalls(a: State, b: State, evs: seq<Event>)
    requires SameCalls(a, b)
    ensures SameCalls(Run(a, evs), Run(b, WithoutLogs(evs)))
    decreases |evs|
  {
    if |evs| > 0 {
      if IsLog(evs[0]) {
        assert SameCalls(Step(a, evs[0]), b);
        LogsDoNotAffectCalls(Step(a, evs[0]), b, evs[1..]);
      } else {
        StepRespectsSameCalls(a, b, evs[0]);
        var w := [evs[0]] + WithoutLogs(evs[1..]);
        assert w[0] == evs[0] && w[1..] == WithoutLogs(evs[1..]);
        LogsDoNotAffectCalls(Step(a, evs[0]), Step(b, evs[0]), evs[1..]);
      }
    }
  }

  /** In particular a run of forwarded logs settles nothing and leaves the
      pending map as it was. */
  lemma OnlyLogsChangeNoCall(s: State, evs: seq<Event>)
    requires forall i :: 0 <= i < |evs| ==> IsLog(evs[i])
    ensures Run(s, evs).pending == s.pending && Run(s, evs).settled == s.settled
  {
    LogsDoNotAffectCalls(s, s, evs);
    NoLogsLeft(evs);
  }

  lemma {:induction false} NoLogsLeft(evs: seq<Event>)
    requires forall i :: 0 <= i < |evs| ==> IsLog(evs[i])
    ensures WithoutLogs(evs) == []
    decreases |evs|
  {
    if |evs| > 0 {
      NoLogsLeft(evs[1..]);
    }
  }

  /** The settlement of call `call`, if it has been settled. */
  function SettlementOf(settled: seq<Settlement>, call: nat): (r: Option<Settlement>)
    ensures r.Some? ==> r.value in settled && r.value.call == call
    ensures r.None? ==> forall i :: 0 <= i < |settled| ==> settled[i].call != call
  {
    if |settled| == 0 then None
    else if settled[0].call == call then Some(settled[0])
    else SettlementOf(settled[1..], call)
  }

  /** What `runMigrations()` and `generateSchema()` return once their call has
      settled: the result itself, or a failure carrying the rejection's
      description. They never reject. */
  function Awaited(st: Settlement): (r: Reply)
    ensures st.Resolved? ==> r == st.value
    ensures st.Rejected? ==> !r.success && r.kind.None? && r.error == Some(Describe(st.reason))
  {
    match st
    case Resolved(_, v) => v
    case Rejected(_, reason) => Failed(Describe(reason))
  }

  /** The line the wrapper of `op` logs before it turns a rejection into a
      failure; a resolved call logs nothing. */
  function AwaitLog(op: Op, st: Settlement): (r: seq<LogLine>)
    ensures |r| <= 1
    ensures r != [] <==> st.Rejected?
    ensures r != [] ==> r[0].level == "error" && r[0].notice == AwaitFailed(op)
    ensures r != [] ==>
      r[0].notice.Wording() == LogPrefix + (if op == RunMigrations then " Error running migrations:" else " Error generating schema:")
  {
    match st
    case Resolved(_, _) => []
    case Rejected(_, _) => [LogLine("error", AwaitFailed(op), [])]
  }

  /** In a reachable state the wrapper logs its error line exactly when the
      caller gets a failure back. */
  lemma AwaitLogIffFailure(s: State, op: Op, i: nat)
    requires Inv(s)
    requires i < |s.settled|
    ensures AwaitLog(op, s.settled[i]) != [] <==> !Awaited(s.settled[i]).success
  {
    AwaitedSuccessIffResolved(s, i);
  }

  /** The awaited value of call `call`: `None` while the promise is still
      pending (which, for an orphaned call, is forever). */
  function CallOutcome(s: State, call: nat): (r: Option<Reply>)
    ensures r.Some? <==> exists i :: 0 <= i < |s.settled| && s.settled[i].call == call
  {
    match SettlementOf(s.settled, call)
    case None => None
    case Some(st) => Some(Awaited(st))
  }

  /** In a reachable state a call's awaited value reports success exactly when
      the call was resolved. */
  lemma AwaitedSuccessIffResolved(s: State, i: nat)
    requires Inv(s)
    requires i < |s.settled|
    ensures Awaited(s.settled[i]).success <==> s.settled[i].Resolved?
  {
  }
}
