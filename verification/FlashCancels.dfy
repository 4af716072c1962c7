/** What sets a token in a flash session, what a request is told when nothing did, and where the daemon's own failures
    come from. */
module FlashCancels {
  import opened Protocol
  import opened Batch
  import opened Pumps
  import opened Tasks
  import opened FlashSession
  import opened FlashBookkeeping
  import opened FlashConversations
  import opened FlashOrigins
  import opened FlashTheorems

  /** A cancel under this id, or the session's own teardown. */
  predicate Fires(step: Step, id: string) {
    step.Do? && (step.act.Drain? || (step.act.Ask? && step.act.req.Cancel? && step.act.id == id))
  }

  ghost predicate IsFired(steps: seq<Step>, id: string) {
    exists step :: step in steps && Fires(step, id)
  }

  /** `n` is the same request as `t`, later on: once decided and told, it is never told anything else. */
  predicate SameTask(t: Task, n: Task) {
    && n.id == t.id && n.kind == t.kind && n.events == t.events
    && (Settled(t) ==> Settled(n) && n.said == t.said && n.cut == t.cut)
  }

  /** `n` is `t` one step later, its token set only by a step that fires it. */
  predicate Goes(t: Task, n: Task, step: Step) {
    SameTask(t, n) && (n.cancelled && !t.cancelled ==> Fires(step, t.id))
  }

  lemma SettleGoes(d: Desk, id: string, decision: Decision, tid: nat)
    requires FlightOk(d) && d.reader.Reading? && tid < |d.tasks|
    ensures var ts := Settle(d, id, decision).tasks;
      && |d.tasks| <= |ts| && SameTask(d.tasks[tid], ts[tid])
      && (ts[tid].cancelled && !d.tasks[tid].cancelled ==> decision.Fire? && d.tasks[tid].id == id)
  {
    if decision.Fire? { FireGoes(d, id, tid); }
  }

  lemma FireGoes(d: Desk, id: string, tid: nat)
    requires FlightOk(d) && d.reader.Reading? && tid < |d.tasks|
    ensures var ts := FireToken(d, id).tasks;
      && |ts| == |d.tasks| && SameTask(d.tasks[tid], ts[tid])
      && (ts[tid].cancelled && !d.tasks[tid].cancelled ==> d.tasks[tid].id == id)
  {
  }

  lemma AskGoes(d: Desk, id: string, req: Request, tid: nat)
    requires FlightOk(d) && d.reader.Reading? && tid < |d.tasks|
    ensures var ts := Acted(d, Ask(id, req)).tasks;
      |d.tasks| <= |ts| && Goes(d.tasks[tid], ts[tid], Do(Ask(id, req)))
  {
    var decision := Dispatch(Noted(d, id, req), id, req);
    assert Dispatch(d, id, req) == decision;
    DispatchIsSensible(d, id, req);
    SettleGoes(Noted(d, id, req), id, decision, tid);
  }

  lemma MoveGoes(d: Desk, t: nat, move: Move, tid: nat)
    requires Can(d, TaskMove(t, move)) && tid < |d.tasks|
    ensures Goes(d.tasks[tid], Acted(d, TaskMove(t, move)).tasks[tid], Do(TaskMove(t, move)))
  {
    MoveFrame(d.tasks[t], move);
    MoveKeepsStream(d.tasks[t], move);
  }

  lemma MoveKeepsStream(t: Task, move: Move)
    requires CanMove(t, move)
    ensures Moved(t, move).events == t.events
  {
  }

  lemma SettleSpawnsUnfired(d: Desk, id: string, decision: Decision, tid: nat)
    requires |d.tasks| <= tid < |Settle(d, id, decision).tasks|
    ensures !Settle(d, id, decision).tasks[tid].cancelled
  {
  }

  lemma ActGoes(d: Desk, act: Act, tid: nat)
    requires FlightOk(d) && Can(d, act) && tid < |d.tasks|
    ensures |d.tasks| <= |Acted(d, act).tasks| && Goes(d.tasks[tid], Acted(d, act).tasks[tid], Do(act))
  {
    match act
    case Ask(id, req) => AskGoes(d, id, req, tid);
    case TaskMove(t, move) => MoveGoes(d, t, move, tid);
    case TaskLeave(_) =>
    case Drain =>
    case _ => TasksAreLeft(d, act);
  }

  lemma ActSpawnsUnfired(d: Desk, act: Act, tid: nat)
    requires Can(d, act) && |d.tasks| <= tid < |Acted(d, act).tasks|
    ensures !Acted(d, act).tasks[tid].cancelled
  {
    match act
    case Ask(id, req) => SettleSpawnsUnfired(Noted(d, id, req), id, Dispatch(d, id, req), tid);
    case TaskMove(_, _) =>
    case TaskLeave(_) =>
    case Drain =>
    case _ => TasksAreLeft(d, act);
  }

  lemma StepGoes(s: State, step: Step, tid: nat)
    requires FlightOk(s.desk) && Enabled(s, step) && tid < |Next(s, step).desk.tasks|
    ensures |s.desk.tasks| <= |Next(s, step).desk.tasks|
    ensures tid < |s.desk.tasks| ==> Goes(s.desk.tasks[tid], Next(s, step).desk.tasks[tid], step)
    ensures tid >= |s.desk.tasks| ==> !Next(s, step).desk.tasks[tid].cancelled
  {
    if step.Do? {
      if s.desk.tasks != [] { ActGoes(s.desk, step.act, if tid < |s.desk.tasks| then tid else 0); }
      if tid >= |s.desk.tasks| { ActSpawnsUnfired(s.desk, step.act, tid); }
    }
  }

  lemma {:induction false} TasksLast(s: State, steps: seq<Step>, tid: nat)
    requires SessionOk(s) && IsFreshRun(s, steps) && tid < |s.desk.tasks|
    ensures IsRun(s, steps)
    ensures tid < |Final(s, steps).desk.tasks| && SameTask(s.desk.tasks[tid], Final(s, steps).desk.tasks[tid])
    decreases |steps|
  {
    if steps != [] {
      TasksStay(s, steps[0], tid);
      StepKeepsSession(s, steps[0]);
      StepGoes(s, steps[0], tid);
      TasksLast(Next(s, steps[0]), steps[1..], tid);
    }
  }

  lemma TasksStay(s: State, step: Step, tid: nat)
    requires SessionOk(s) && Enabled(s, step) && tid < |s.desk.tasks|
    ensures tid < |Next(s, step).desk.tasks|
  {
    if step.Do? { ActGoes(s.desk, step.act, tid); }
  }

  /** A token that has been set was set by a cancel under its own id or by the teardown, and by nothing else. */
  lemma {:induction false} TokensHaveCauses(s: State, steps: seq<Step>, tid: nat)
    requires SessionOk(s) && IsFreshRun(s, steps) && (tid < |s.desk.tasks| ==> !s.desk.tasks[tid].cancelled)
    ensures IsRun(s, steps)
    ensures var ts := Final(s, steps).desk.tasks; tid < |ts| && ts[tid].cancelled ==> IsFired(steps, ts[tid].id)
    decreases |steps|
  {
    if steps != [] {
      var n := Next(s, steps[0]);
      StepKeepsSession(s, steps[0]);
      if tid < |n.desk.tasks| && n.desk.tasks[tid].cancelled {
        StepGoes(s, steps[0], tid);
        TasksLast(n, steps[1..], tid);
        assert steps[0] in steps && Fires(steps[0], n.desk.tasks[tid].id);
      } else {
        TokensHaveCauses(n, steps[1..], tid);
        assert forall step :: step in steps[1..] ==> step in steps;
      }
    }
  }

  /** Over any run: a token is set only by a cancel under its id, or by the teardown. */
  lemma CancelledOnlyIfAsked(accepts: nat, steps: seq<Step>, tid: nat)
    requires IsFreshRun(Fresh(accepts), steps)
    ensures IsRun(Fresh(accepts), steps)
    ensures var ts := Final(Fresh(accepts), steps).desk.tasks; tid < |ts| && ts[tid].cancelled ==> IsFired(steps, ts[tid].id)
  {
    FreshIsOk(accepts);
    TokensHaveCauses(Fresh(accepts), steps, tid);
  }

  /** The bodies on the wire are `out`, up to the gluing of chunks. */
  ghost predicate IsOnTheWire(s: State, id: string, out: seq<Body>) {
    Coarsens(Stamp(id, out), Stamp(id, Under(s.wire.writer.sent, id)))
  }

  /** A request that was answered before anyone cancelled it and before the session was torn down has on the wire
      exactly what its own stream brings about, whatever comes after: each line of text, each stage, and what the
      stream's end or deciding event comes to; and that stream is its request's. */
  lemma UncancelledRequestsRunTheirCourse(accepts: nat, before: seq<Step>, after: seq<Step>, tid: nat)
    requires IsFreshRun(Fresh(accepts), before)
    ensures IsRun(Fresh(accepts), before)
    ensures var s := Final(Fresh(accepts), before);
      IsFreshRun(s, after) && tid < |s.desk.tasks| && Settled(s.desk.tasks[tid]) && !IsFired(before, s.desk.tasks[tid].id) ==>
        && IsRun(s, after) && IsPlain(s.desk.tasks[tid], s.desk.tasks[tid].said)
        && IsToldPlainly(s.desk.tasks[tid], s.desk.tasks[tid].said)
        && IsServed(s.desk, s.desk.tasks[tid].id, AskedUnder(Fresh(accepts), before, s.desk.tasks[tid].id, None))
        && (Final(s, after).wire.writer.status.Done? ==>
              IsOnTheWire(Final(s, after), s.desk.tasks[tid].id, s.desk.tasks[tid].said))
  {
    CancelledOnlyIfAsked(accepts, before, tid);
    FreshIsOk(accepts);
    RunKeepsClosed(Fresh(accepts), before);
    var s := Final(Fresh(accepts), before);
    if IsFreshRun(s, after) && tid < |s.desk.tasks| && Settled(s.desk.tasks[tid]) && !IsFired(before, s.desk.tasks[tid].id) {
      UncancelledIsPlain(s.desk.tasks[tid]);
      TasksServeTheirRequests(accepts, before, s.desk.tasks[tid].id);
      TasksLast(s, after, tid);
      RunKeepsClosed(s, after);
      if Final(s, after).wire.writer.status.Done? { TaskReachedTheWire(Final(s, after), tid); }
    }
  }

  // ---- what the daemon answered ---------------------------------------------------------------------------

  /** The step is the daemon's answer that `cut` reports: this very refusal to start, or this very failure to reinit. */
  predicate Explains(step: Step, tid: nat, cut: Cut) {
    match cut
    case Undecided => true
    case NeverStarted(code, detail) => step == Do(TaskMove(tid, StartErr(code, detail)))
    case Decided(_, reinit) => reinit.Ready? || step == Do(TaskMove(tid, ReinitDone(reinit)))
  }

  lemma SettleKeepsCut(d: Desk, id: string, decision: Decision, tid: nat)
    requires tid < |Settle(d, id, decision).tasks|
    ensures var n := Settle(d, id, decision).tasks[tid];
      n.cut == if tid < |d.tasks| then d.tasks[tid].cut else Undecided
  {
  }

  lemma ActExplainsCut(d: Desk, act: Act, tid: nat)
    requires Can(d, act) && tid < |Acted(d, act).tasks|
    ensures var n := Acted(d, act).tasks[tid];
      (tid < |d.tasks| && n.cut == d.tasks[tid].cut) || Explains(Do(act), tid, n.cut)
  {
    match act
    case Ask(id, req) => SettleKeepsCut(Noted(d, id, req), id, Dispatch(d, id, req), tid);
    case TaskMove(t, move) =>
    case TaskLeave(_) =>
    case Drain =>
    case _ => TasksAreLeft(d, act);
  }

  ghost predicate IsExplained(steps: seq<Step>, tid: nat, cut: Cut) {
    cut.Undecided? || exists step :: step in steps && Explains(step, tid, cut)
  }

  lemma {:induction false} CutsHaveCauses(s: State, steps: seq<Step>, tid: nat)
    requires IsRun(s, steps) && tid < |Final(s, steps).desk.tasks|
    ensures var cut := Final(s, steps).desk.tasks[tid].cut;
      (tid < |s.desk.tasks| && cut == s.desk.tasks[tid].cut) || IsExplained(steps, tid, cut)
    decreases |steps|
  {
    if steps != [] {
      var n := Next(s, steps[0]);
      CutsHaveCauses(n, steps[1..], tid);
      assert steps[0] in steps && forall step :: step in steps[1..] ==> step in steps;
      if steps[0].Do? && tid < |n.desk.tasks| { ActExplainsCut(s.desk, steps[0].act, tid); }
    }
  }

  /** Over any run: a request is told that its stream never started, or that its reinit failed, only in the daemon's own
      words. */
  lemma FailuresAreTheDaemons(accepts: nat, steps: seq<Step>, tid: nat)
    requires IsRun(Fresh(accepts), steps) && tid < |Final(Fresh(accepts), steps).desk.tasks|
    ensures IsExplained(steps, tid, Final(Fresh(accepts), steps).desk.tasks[tid].cut)
  {
    CutsHaveCauses(Fresh(accepts), steps, tid);
  }
}
