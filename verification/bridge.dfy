/** The supervisor and the worker together: what the worker answers to the
    requests the supervisor posts, and what the waiting caller then sees. */
module Bridge {
  import opened Wrappers
  import opened Text
  import opened Protocol
  import Supervisor
  import Worker

  /** The message the worker receives for a posted request. */
  function Deliver(r: Supervisor.Request): (m: Worker.Incoming)
    ensures Worker.Requested(m) == Some(r.kind)
  {
    ParseOpName(r.kind);
    Worker.Envelope(Some(OpName(r.kind)))
  }

  /** The worker forked by the supervisor runs in development mode exactly
      when the supervisor's NODE_ENV is not `production`. */
  lemma ForkedWorkerMode(nodeEnv: Option<string>)
    ensures Worker.IsDev(Some(Supervisor.ForkNodeEnv(nodeEnv))) <==> nodeEnv != Some("production")
  {
  }

  /** The worker's answers to messages it cannot dispatch carry no `type`,
      so the supervisor settles nothing with them and the pending map stays
      as it was. */
  lemma UntypedRepliesNeverSettle(s: Supervisor.State, msg: Worker.Incoming, h: Worker.Host, delivery: Worker.Delivery, i: nat)
    requires Worker.Requested(msg).None? || i == 1
    requires i < |Worker.Handle(msg, h, delivery)|
    ensures
      var reply := Worker.Handle(msg, h, delivery)[i];
      var t := Supervisor.Step(s, Supervisor.Receive(Supervisor.Result(reply)));
      t.pending == s.pending && t.settled == s.settled
  {
  }

  /** Finding a settlement in a list that gained one at the end. */
  lemma {:induction false} SettlementOfAppended(settled: seq<Supervisor.Settlement>, st: Supervisor.Settlement)
    requires forall i :: 0 <= i < |settled| ==> settled[i].call != st.call
    ensures Supervisor.SettlementOf(settled + [st], st.call) == Some(st)
    decreases |settled|
  {
    if |settled| > 0 {
      assert (settled + [st])[1..] == settled[1..] + [st];
      SettlementOfAppended(settled[1..], st);
    } else {
      assert settled + [st] == [st];
    }
  }

  /** Request and reply: posting `op`, the worker answering it and the
      supervisor receiving the answer settles exactly the new call and
      removes `op` from the pending map; the caller gets the worker's result
      on success and a failure carrying the worker's error otherwise. */
  lemma RoundTrip(s: Supervisor.State, op: Op, env: Option<string>, ts: string, h: Worker.Host)
    requires Supervisor.Inv(s)
    ensures
      var s1 := Supervisor.Step(s, Supervisor.Send(op, env, ts));
      var reply := Worker.Respond(Deliver(s1.posted[|s1.posted| - 1]), h);
      var s2 := Supervisor.Step(s1, Supervisor.Receive(Supervisor.Result(reply)));
      && s2.pending == s.pending - {op}
      && |s2.settled| == |s.settled| + 1
      && s2.settled[|s.settled|].call == s.nextCall
      && reply.kind == Some(op)
      && Supervisor.CallOutcome(s2, s.nextCall) ==
           Some(if reply.success then reply else Failed(Or(reply.error, Supervisor.UnknownWorkerError)))
  {
    var s1 := Supervisor.Step(s, Supervisor.Send(op, env, ts));
    var req := s1.posted[|s1.posted| - 1];
    assert req == Supervisor.Request(op, env, ts);
    var reply := Worker.Respond(Deliver(req), h);
    assert reply.kind == Some(op);
    assert Supervisor.Matches(s1, reply);
    var s2 := Supervisor.Step(s1, Supervisor.Receive(Supervisor.Result(reply)));
    assert s1.pending - {op} == s.pending - {op};
    var st := Supervisor.Settle(s.nextCall, reply);
    assert s2.settled == s.settled + [st];
    SettlementOfAppended(s.settled, st);
  }

  /** Scenario: the migrator throws after everything before it worked. The
      caller of `runMigrations()` gets `success: false` with the thrown
      message (or the supervisor's default text when that message is empty),
      and the worker has left the connection open. */
  lemma MigrationFailureReachesCaller(s: Supervisor.State, env: Option<string>, ts: string, h: Worker.Host)
    requires Supervisor.Inv(s)
    requires Worker.DatabasePath(h).Success? && h.openDatabase.Succeeds?
    requires Worker.LoadSchema(h).Success? && Worker.MigrationsFolder(h).Success?
    requires h.migrate.Fails?
    ensures
      var s1 := Supervisor.Step(s, Supervisor.Send(Op.RunMigrations, env, ts));
      var reply := Worker.Respond(Deliver(s1.posted[|s1.posted| - 1]), h);
      var s2 := Supervisor.Step(s1, Supervisor.Receive(Supervisor.Result(reply)));
      var m := h.migrate.fault.message;
      && Supervisor.CallOutcome(s2, s.nextCall) == Some(Failed(if m != "" then m else Supervisor.UnknownWorkerError))
      && Worker.RunMigrations(h).connection == Worker.LeftOpen
  {
    RoundTrip(s, Op.RunMigrations, env, ts, h);
  }

  /** Scenario: every step works. The caller gets the worker's own result,
      which names the migrations folder used, and the connection is closed. */
  lemma MigrationSuccessReachesCaller(s: Supervisor.State, env: Option<string>, ts: string, h: Worker.Host)
    requires Supervisor.Inv(s)
    requires Worker.AllStepsSucceed(h)
    ensures
      var s1 := Supervisor.Step(s, Supervisor.Send(Op.RunMigrations, env, ts));
      var reply := Worker.Respond(Deliver(s1.posted[|s1.posted| - 1]), h);
      var s2 := Supervisor.Step(s1, Supervisor.Receive(Supervisor.Result(reply)));
      && Supervisor.CallOutcome(s2, s.nextCall) == Some(Worker.RunMigrations(h).reply)
      && Worker.RunMigrations(h).reply.data == Some(MigrationsAt(Worker.MigrationsFolder(h).value))
      && Worker.RunMigrations(h).connection == Worker.Closed
  {
    RoundTrip(s, Op.RunMigrations, env, ts, h);
  }
}
