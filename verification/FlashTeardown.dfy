/** After the read loop of a flash session ends: it winds down in a bounded number of steps and cannot get stuck. */
module FlashTeardown {
  import opened Protocol
  import opened Pumps
  import opened Tasks
  import opened FlashSession
  import opened FlashBookkeeping
  import opened FlashConversations
  import MonitorLink
  import WriterModel

  /** The read loop is over: the browser has gone and the session is closing its monitor, draining or waiting. */
  predicate TornDown(d: Desk) {
    match d.reader
    case Closing(after) => after.TearDown?
    case Joining(after) => after.TearDown?
    case Draining => true
    case Awaiting => true
    case Returned => true
    case _ => false
  }

  // ---- the measure ----------------------------------------------------------------------------------------

  function ReaderRank(r: Reader): nat {
    match r
    case Listing(_) => 3
    case Opening(_) => 3
    case Announcing(_, inbound) => 4 * |inbound| + 4
    case Replying(_, _) => 2
    case Writing(_, _) => 1
    case Closing(_) => 4
    case Joining(_) => 3
    case Draining => 2
    case Awaiting => 1
    case _ => 0
  }

  function RankSum(tasks: seq<Task>): nat {
    if tasks == [] then 0 else RankSum(Front(tasks)) + Rank(Last(tasks))
  }

  function PumpRank(pump: Option<Pump>): nat {
    match pump
    case None => 0
    case Some(p) =>
      var left := if p.next <= |p.inbound| then |p.inbound| - p.next else 0;
      2 * left + if p.pc.Pulling? then 1 else 2
  }

  function LinkRank(l: MonitorLink.Link): nat {
    if !l.attached then 0
    else 1 + (if l.opening then 1 else 0) + if l.pulled <= |l.accepted| then |l.accepted| - l.pulled else 0
  }

  function WriterRank(w: WriterModel.Writer): nat {
    if !w.status.Running? then 0 else if w.flushAt.Some? then 3 else 2
  }

  function DeskRank(d: Desk): nat {
    2 * ReaderRank(d.reader) + 4 * RankSum(d.tasks) + 4 * PumpRank(d.pump) + LinkRank(d.link)
  }

  /** How many steps the session can still take, at most. */
  function Measure(s: State): nat {
    DeskRank(s.desk) + 3 * |s.wire.queue| + WriterRank(s.wire.writer)
  }

  lemma {:induction false} RankSumUpdate(tasks: seq<Task>, tid: nat, t: Task)
    requires tid < |tasks|
    ensures RankSum(tasks[tid := t]) == RankSum(tasks) - Rank(tasks[tid]) + Rank(t)
  {
    var updated := tasks[tid := t];
    if tid == |tasks| - 1 {
      assert Front(updated) == Front(tasks);
    } else {
      RankSumUpdate(Front(tasks), tid, t);
      assert Front(updated) == Front(tasks)[tid := t];
    }
  }

  lemma {:induction false} RankSumFire(tasks: seq<Task>, tokens: set<nat>)
    ensures RankSum(FireAll(tasks, tokens)) <= RankSum(tasks)
  {
    if tasks != [] {
      RankSumFire(Front(tasks), tokens);
      assert Front(FireAll(tasks, tokens)) == FireAll(Front(tasks), tokens);
      FiredKeepsRank(Last(tasks));
    }
  }

  /** Acts that bring the session something new to do: a request, the browser leaving, a port with all it will send. */
  predicate BringsWork(act: Act) {
    act.Ask? || act.HangUp? || act.PortUp?
  }

  lemma TornDownStays(d: Desk, act: Act)
    requires TornDown(d) && Can(d, act)
    ensures TornDown(Acted(d, act)) && !BringsWork(act)
  {
  }

  lemma ActLowersRank(d: Desk, act: Act)
    requires Can(d, act) && !BringsWork(act)
    ensures DeskRank(Acted(d, act)) < DeskRank(d)
  {
    if LeavesTasks(act) {
      QuietLowersRank(d, act);
    } else {
      match act
      case TaskMove(tid, move) => TaskMoveLowersRank(d, tid, move);
      case TaskLeave(tid) => TaskLeaveLowersRank(d, tid);
      case Drain => DrainLowersRank(d);
    }
  }

  lemma DrainLowersRank(d: Desk)
    requires Can(d, Drain)
    ensures DeskRank(Acted(d, Drain)) < DeskRank(d)
  {
    RankSumFire(d.tasks, d.inFlight.Values);
    DrainedRank(d, FireAll(d.tasks, d.inFlight.Values));
  }

  lemma DrainedRank(d: Desk, tasks: seq<Task>)
    requires d.reader.Draining? && RankSum(tasks) <= RankSum(d.tasks)
    ensures DeskRank(d.(tasks := tasks, inFlight := map[], reader := Awaiting)) < DeskRank(d)
  {
  }

  lemma TaskMoveLowersRank(d: Desk, tid: nat, move: Move)
    requires Can(d, TaskMove(tid, move))
    ensures DeskRank(Acted(d, TaskMove(tid, move))) < DeskRank(d)
  {
    MoveLowersRank(d.tasks[tid], move);
    RankSumUpdate(d.tasks, tid, Moved(d.tasks[tid], move));
  }

  lemma TaskLeaveLowersRank(d: Desk, tid: nat)
    requires Can(d, TaskLeave(tid))
    ensures DeskRank(Acted(d, TaskLeave(tid))) < DeskRank(d)
  {
    RankSumUpdate(d.tasks, tid, d.tasks[tid].(pc := Gone));
  }

  lemma QuietLowersRank(d: Desk, act: Act)
    requires Can(d, act) && LeavesTasks(act) && !BringsWork(act)
    ensures DeskRank(Acted(d, act)) < DeskRank(d)
  {
    TasksAreLeft(d, act);
  }

  lemma SayLowersRank(d: Desk, who: Speaker)
    requires HasToSay(d, who)
    ensures DeskRank(AfterSaying(d, who)) + 4 <= DeskRank(d)
  {
    if who.TaskNo? {
      RankSumUpdate(d.tasks, who.tid, Spoken(d.tasks[who.tid]));
    }
  }

  lemma TurnLowersRank(w: Wire, now: int, closed: bool)
    requires CanTurn(w, now, closed)
    ensures var w' := Turned(w, now, closed);
      3 * |w'.queue| + WriterRank(w'.writer) < 3 * |w.queue| + WriterRank(w.writer)
  {
  }

  lemma StepLowersMeasure(s: State, step: Step)
    requires TornDown(s.desk) && Enabled(s, step)
    ensures TornDown(Next(s, step).desk) && Measure(Next(s, step)) < Measure(s)
  {
    match step
    case Do(act) =>
      TornDownStays(s.desk, act);
      ActLowersRank(s.desk, act);
    case Say(who) => SayLowersRank(s.desk, who);
    case WriterTurn(now) => TurnLowersRank(s.wire, now, NoSenders(s.desk));
  }

  /** Once the read loop has ended, every run stops after at most `Measure` more steps. */
  lemma {:induction false} TeardownIsBounded(s: State, steps: seq<Step>)
    requires TornDown(s.desk) && IsRun(s, steps)
    ensures TornDown(Final(s, steps).desk) && |steps| + Measure(Final(s, steps)) <= Measure(s)
    decreases |steps|
  {
    if steps != [] {
      StepLowersMeasure(s, steps[0]);
      TeardownIsBounded(Next(s, steps[0]), steps[1..]);
    }
  }

  lemma {:induction false} TeardownKeepsSession(s: State, steps: seq<Step>)
    requires SessionOk(s) && TornDown(s.desk) && IsRun(s, steps)
    ensures SessionOk(Final(s, steps))
    decreases |steps|
  {
    if steps != [] {
      StepLowersMeasure(s, steps[0]);
      StepKeepsSession(s, steps[0]);
      TeardownKeepsSession(Next(s, steps[0]), steps[1..]);
    }
  }

  // ---- progress -------------------------------------------------------------------------------------------

  /** Nothing of the session is left: no token, task, pump or writer, and no directory on disk. */
  ghost predicate Quiescent(s: State) {
    && s.desk.reader.Returned? && s.desk.inFlight == map[] && s.desk.pump.None? && s.desk.monitor.None?
    && (forall t :: 0 <= t < |s.desk.tasks| ==> s.desk.tasks[t].pc.Gone?)
    && !ChannelOpen(s.wire)
    && s.desk.scratch.owners == {} && s.desk.scratch.removed == s.desk.scratch.created && s.desk.staged == {}
  }

  /** Whoever waits to speak can, or the writer can make room. */
  lemma SpeakerCanProceed(s: State, who: Speaker) returns (step: Step)
    requires WireOk(s.wire) && HasToSay(s.desk, who)
    ensures Enabled(s, step) && !step.Do? && IsOwn(step)
  {
    step := if CanOffer(s.wire) then Say(who) else WriterTurn(s.wire.clock);
  }

  /** The task waits for the daemon: for its call to start, for a reinit, or for a stream it is not to give up. */
  predicate AwaitsDaemon(t: Task) {
    t.pc.Starting? || t.pc.Reiniting? || (t.pc.Polled? && !t.cancelled)
  }

  lemma TaskCanProceed(s: State, tid: nat) returns (step: Step)
    requires WireOk(s.wire) && tid < |s.desk.tasks| && IsLive(s.desk.tasks[tid]) && !AwaitsDaemon(s.desk.tasks[tid])
    ensures Enabled(s, step) && IsOwn(step) && (step.Do? ==> step.act.TaskMove? || step.act.TaskLeave?)
  {
    match s.desk.tasks[tid].pc {
      case Holding(_, _) => step := SpeakerCanProceed(s, TaskNo(tid));
      case Ended => step := Do(TaskLeave(tid));
      case Selecting => step := Do(TaskMove(tid, Poll));
      case _ => step := Do(TaskMove(tid, Wake));
    }
  }

  /** The session waits for a monitor's inbound side to end, and has done all it can for that: its close is accepted, or
      there is no stream left to take one. */
  predicate AwaitsMonitor(d: Desk) {
    && d.reader.Joining? && d.pump.Some? && d.pump.value.pc.Pulling?
    && (d.link.attached ==> d.link.accepted != [] && Last(d.link.accepted).Close?)
  }

  /** All that a session winding down may be made to wait for by the daemon. */
  ghost predicate WaitsWindingDown(d: Desk) {
    || AwaitsMonitor(d)
    || exists t :: 0 <= t < |d.tasks| && (d.tasks[t].pc.Starting? || d.tasks[t].pc.Reiniting?)
  }

  lemma ReaderCanProceed(s: State) returns (step: Step)
    requires SessionOk(s) && TornDown(s.desk) && !s.desk.reader.Awaiting? && !s.desk.reader.Returned?
    requires !HasToSay(s.desk, ThePump)
    ensures Enabled(s, step) && step != Do(LinkDrop) && (IsOwn(step) || AwaitsMonitor(s.desk))
  {
    match s.desk.reader {
      case Closing(_) => step := if Can(s.desk, SendCommand) then Do(SendCommand) else Do(LinkPull);
      case Joining(_) => step := if s.desk.pump.None? then Do(Joined) else Do(PumpPull);
      case _ => step := Do(Drain);
    }
  }

  /** After the drain every task still running is cancelled, so none waits for a stream. */
  lemma DrainedTaskCanProceed(s: State, tid: nat) returns (step: Step)
    requires SessionOk(s) && Drained(s.desk) && tid < |s.desk.tasks| && IsLive(s.desk.tasks[tid])
    ensures Enabled(s, step) && step != Do(LinkDrop) && (IsOwn(step) || WaitsWindingDown(s.desk))
  {
    assert s.desk.tasks[tid].cancelled;
    if AwaitsDaemon(s.desk.tasks[tid]) {
      step := Do(TaskMove(tid, if s.desk.tasks[tid].pc.Starting? then StartOk else ReinitDone(Reinit.Ready)));
    } else {
      step := TaskCanProceed(s, tid);
    }
  }

  /** As long as anything of a session that winds down is left, some step is possible that is not its command stream
      dying; and the helper itself can make one, unless it waits for the daemon to start a call, to reinit, or to end a
      monitor that has been told to close. So the bounded channels never make its parts wait for one another in a
      circle. */
  lemma NeverStuck(s: State) returns (step: Step)
    requires SessionOk(s) && TornDown(s.desk) && !Quiescent(s)
    ensures Enabled(s, step) && step != Do(LinkDrop) && (IsOwn(step) || WaitsWindingDown(s.desk))
  {
    if HasToSay(s.desk, ThePump) {
      step := SpeakerCanProceed(s, ThePump);
    } else if !s.desk.reader.Awaiting? && !s.desk.reader.Returned? {
      step := ReaderCanProceed(s);
    } else if tid :| 0 <= tid < |s.desk.tasks| && IsLive(s.desk.tasks[tid]) {
      step := DrainedTaskCanProceed(s, tid);
    } else {
      if s.desk.reader.Returned? && !ChannelOpen(s.wire) { NothingIsLeft(s); }
      step := if ChannelOpen(s.wire) then WriterTurn(s.wire.clock) else Do(Return);
    }
  }

  lemma NothingIsLeft(s: State)
    requires SessionOk(s) && s.desk.reader.Returned? && !ChannelOpen(s.wire) && s.desk.pump.None?
    requires forall t :: 0 <= t < |s.desk.tasks| ==> s.desk.tasks[t].pc.Gone?
    ensures Quiescent(s)
  {
    assert forall owner :: owner in s.desk.scratch.owners ==> owner.TheTask?;
    assert s.desk.scratch.owners == {};
    assert s.desk.staged == {};
  }

  ghost predicate CanStopOnlyQuiescent(s: State) {
    (forall step :: !Enabled(s, step)) ==> Quiescent(s)
  }

  /** Once the read loop of any session has ended, however its parts then interleave, it takes no more than `Measure`
      further steps, and when it can take none it has left nothing behind. */
  lemma TeardownLeavesNothing(accepts: nat, before: seq<Step>, after: seq<Step>)
    requires IsFreshRun(Fresh(accepts), before)
    ensures IsRun(Fresh(accepts), before)
    ensures var s := Final(Fresh(accepts), before);
      TornDown(s.desk) && IsRun(s, after) ==> |after| <= Measure(s) && CanStopOnlyQuiescent(Final(s, after))
  {
    FreshIsOk(accepts);
    RunKeepsSession(Fresh(accepts), before);
    var s := Final(Fresh(accepts), before);
    if TornDown(s.desk) && IsRun(s, after) {
      TeardownIsBounded(s, after);
      TeardownKeepsSession(s, after);
      StopsOnlyQuiescent(Final(s, after));
    }
  }

  lemma StopsOnlyQuiescent(s: State)
    requires SessionOk(s) && TornDown(s.desk)
    ensures CanStopOnlyQuiescent(s)
  {
    if !Quiescent(s) {
      var step := NeverStuck(s);
    }
  }

  lemma {:induction false} RunReturnsLast(s: State, steps: seq<Step>)
    requires IsRun(s, steps) && (s.desk.reader.Returned? ==> !ChannelOpen(s.wire))
    ensures Final(s, steps).desk.reader.Returned? ==> !ChannelOpen(Final(s, steps).wire)
    decreases |steps|
  {
    if steps != [] {
      StepReturnsLast(s, steps[0]);
      RunReturnsLast(Next(s, steps[0]), steps[1..]);
    }
  }

  lemma StepReturnsLast(s: State, step: Step)
    requires Enabled(s, step) && (s.desk.reader.Returned? ==> !ChannelOpen(s.wire))
    ensures Next(s, step).desk.reader.Returned? ==> !ChannelOpen(Next(s, step).wire)
  {
    if step.Do? && !step.act.Return? { OnlyReturnReturns(s.desk, step.act); }
  }

  lemma OnlyReturnReturns(d: Desk, act: Act)
    requires Can(d, act) && !act.Return?
    ensures Acted(d, act).reader.Returned? ==> d.reader.Returned?
  {
    if act.Ask? {
      DispatchIsSensible(d, act.id, act.req);
      AskReturnsNothing(Noted(d, act.id, act.req), act.id, act.req, Dispatch(d, act.id, act.req));
    }
  }

  lemma AskReturnsNothing(d: Desk, id: string, req: Request, decision: Decision)
    requires d.reader.Reading? && (decision.Await? ==> !decision.reader.Returned?)
    ensures !Settle(d, id, decision).reader.Returned?
  {
  }

  /** Over any run the session returns only after its writer has finished, or its socket has failed. */
  lemma TheWriterFinishesFirst(accepts: nat, steps: seq<Step>)
    requires IsRun(Fresh(accepts), steps)
    ensures var s := Final(Fresh(accepts), steps);
      s.desk.reader.Returned? ==> s.wire.writer.status.Done? || s.wire.writer.status.Broken?
  {
    RunReturnsLast(Fresh(accepts), steps);
  }
}
