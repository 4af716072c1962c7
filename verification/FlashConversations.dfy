/** What each request id hears over a whole flash session: the wire's own account, and what every step keeps about
    the phase of every id. */
module FlashConversations {
  import opened Protocol
  import opened Batch
  import opened Conversation
  import opened Frames
  import opened Pumps
  import opened Tasks
  import opened FlashSession
  import opened FlashBookkeeping
  import WriterModel

  // ---- the wire -------------------------------------------------------------------------------------------

  /** While the channel is open nothing said is missing: it was received by the writer or is queued, in order; and
      the writer accounts for everything it received. */
  ghost predicate WireOk(w: Wire) {
    && |w.queue| <= RESPONSE_CHANNEL_CAPACITY
    && (ChannelOpen(w) ==> w.offered == w.received + w.queue)
    && w.received <= w.offered
    && WriterModel.Faithful(w.writer, w.received)
  }

  /** Sixty-four responses may wait; the next sender waits with them only while the writer is there to take one. */
  lemma ChannelsTakeABurst(w: Wire)
    ensures |w.queue| < 64 || !ChannelOpen(w) ==> CanOffer(w)
    ensures ChannelOpen(w) && |w.queue| >= 64 ==> !CanOffer(w) && CanTurn(w, w.clock, false)
  {
  }

  lemma OfferIsOk(w: Wire, r: Response)
    requires WireOk(w) && CanOffer(w)
    ensures WireOk(Offered(w, r))
  {
  }

  lemma TurnIsOk(w: Wire, now: int, closed: bool)
    requires WireOk(w) && CanTurn(w, now, closed)
    ensures WireOk(Turned(w, now, closed))
  {
    if WriterModel.Due(w.writer, now) {
      WriterModel.TickIsFaithful(w.writer, w.received);
    } else if w.queue != [] {
      WriterModel.MessageIsFaithful(w.writer, w.received, w.queue[0], now);
      assert w.received + w.queue == w.received + [w.queue[0]] + w.queue[1..];
    } else {
      WriterModel.ClosedIsFaithful(w.writer, w.received);
    }
  }

  // ---- phases ---------------------------------------------------------------------------------------------

  /** Where the session stands with an id: never asked, held by the read loop, worked on by its task, finished by
      it, kept open by the monitor pump, or none of these. */
  datatype Standing = Unasked | Busy | Working | Finished | Pumping | Quiet(role: Role)

  function StandingOf(d: Desk, id: string): Standing
    requires forall i :: i in d.taskOf ==> d.taskOf[i] < |d.tasks|
  {
    if id !in d.asked then Unasked
    else if ReaderId(d.reader) == Some(id) then Busy
    else if id in d.taskOf then if Settled(d.tasks[d.taskOf[id]]) then Standing.Finished else Working
    else if d.pump.Some? && d.pump.value.id == id then Pumping
    else Quiet(d.asked[id])
  }

  /** The phases an id may be in while the session stands so. */
  predicate Allows(standing: Standing, p: Phase) {
    match standing
    case Unasked => p.Silent?
    case Busy => p.Silent?
    case Working => p in {Silent, Streaming}
    case Finished => p in {Answered, Refused, Replied, Phase.Failed}
    case Pumping => p in {Answered, Live}
    case Quiet(MonitorWriter(held)) => if held then p.Silent? else p.Refused?
    case Quiet(Opener) => p in {Refused, Answered, Live, Dead}
    case Quiet(_) => p in {Answered, Refused}
  }

  /** How an id's standing may change without anything being said under it. */
  predicate Drifts(a: Standing, b: Standing) {
    || a == b
    || (a.Unasked? && (b.Busy? || b.Working?))
    || (a.Busy? && b == Quiet(MonitorWriter(true)))
    || (a.Pumping? && b == Quiet(Opener))
  }

  lemma DriftAllows(a: Standing, b: Standing, p: Phase)
    requires Drifts(a, b) && Allows(a, p)
    ensures Allows(b, p)
  {
  }

  /** How an id's standing may change as `body` is said under it. */
  predicate Speaks(a: Standing, body: Body, b: Standing) {
    match a
    case Busy =>
      || (IsTerminal(body) && b.Quiet? && (b.role.Opener? || b.role.MonitorWriter? ==> body.Error?) && b.role != MonitorWriter(true))
      || (body.Result? && b.Pumping?)
    case Working => (IsStreamed(body) && b.Working?) || (IsTerminal(body) && b.Finished?)
    case Pumping => (body.MonitorData? && b.Pumping?) || (body.Error? && b == Quiet(Opener))
    case _ => false
  }

  lemma SpeechAllows(a: Standing, body: Body, b: Standing, p: Phase)
    requires Speaks(a, body, b) && Allows(a, p)
    ensures Allows(b, Hear(p, body))
  {
  }

  ghost predicate DeskOk(d: Desk) {
    && Roster(d.tasks, d.taskOf, d.asked) && FlightOk(d) && ScratchOk(d)
    && ReaderOk(d) && MonitorOk(d) && LinkOk(d)
  }

  function Heard(offered: seq<Response>, id: string): Phase {
    PhaseOf(Under(offered, id))
  }

  /** Every id has heard what its standing allows, and every task's id exactly what its task has said. */
  ghost predicate Conversing(d: Desk, offered: seq<Response>)
    requires Roster(d.tasks, d.taskOf, d.asked)
  {
    && (forall id :: id != "" ==> Allows(StandingOf(d, id), Heard(offered, id)))
    && (forall t :: 0 <= t < |d.tasks| ==> Under(offered, d.tasks[t].id) == d.tasks[t].said)
  }

  /** Acts say nothing, so every id only drifts. */
  lemma ActDrifts(d: Desk, act: Act, id: string)
    requires Roster(d.tasks, d.taskOf, d.asked) && ReaderOk(d) && MonitorOk(d)
    requires Can(d, act) && UsesFreshId(d, Do(act)) && Roster(Acted(d, act).tasks, Acted(d, act).taskOf, Acted(d, act).asked)
    requires id != ""
    ensures Drifts(StandingOf(d, id), StandingOf(Acted(d, act), id))
  {
    match act
    case Ask(ask, req) =>
      DispatchIsSensible(d, ask, req);
      AskDrifts(d, ask, req, Dispatch(d, ask, req), id);
    case TaskMove(tid, move) =>
      MoveFrame(d.tasks[tid], move);
      TaskDrifts(d, Acted(d, act), tid, id);
    case TaskLeave(tid) => TaskDrifts(d, Acted(d, act), tid, id);
    case Drain => DrainDrifts(d, id);
    case _ =>
      TasksAreLeft(d, act);
      QuietDrifts(d, act, id);
  }

  lemma TaskDrifts(d: Desk, d': Desk, tid: nat, id: string)
    requires Roster(d.tasks, d.taskOf, d.asked) && Roster(d'.tasks, d'.taskOf, d'.asked)
    requires tid < |d.tasks| && |d'.tasks| == |d.tasks| && d'.tasks == d.tasks[tid := d'.tasks[tid]]
    requires Settled(d'.tasks[tid]) == Settled(d.tasks[tid])
    requires d'.asked == d.asked && d'.taskOf == d.taskOf && d'.reader == d.reader && d'.pump == d.pump
    ensures StandingOf(d', id) == StandingOf(d, id)
  {
  }

  lemma DrainDrifts(d: Desk, id: string)
    requires d.reader.Draining? && forall i :: i in d.taskOf ==> d.taskOf[i] < |d.tasks|
    ensures StandingOf(Acted(d, Drain), id) == StandingOf(d, id)
  {
  }

  lemma AskDrifts(d: Desk, ask: string, req: Request, decision: Decision, id: string)
    requires Roster(d.tasks, d.taskOf, d.asked) && d.reader.Reading? && Sensible(d, ask, req, decision)
    requires BringsId(req) ==> ask != "" && ask !in d.asked
    requires id != ""
    ensures var d' := Settle(Noted(d, ask, req), ask, decision);
      Roster(d'.tasks, d'.taskOf, d'.asked) && Drifts(StandingOf(d, id), StandingOf(d', id))
  {
    AskKeepsRoster(d, ask, req, decision);
    match decision
    case Launch(kind, events) => LaunchDrifts(d, Noted(d, ask, req), ask, kind, events, id);
    case Fire => FireDrifts(d, ask, id);
    case _ => WaitDrifts(d, ask, req, decision, id);
  }

  lemma FireDrifts(d: Desk, ask: string, id: string)
    requires Roster(d.tasks, d.taskOf, d.asked)
    requires var d' := FireToken(d, ask); Roster(d'.tasks, d'.taskOf, d'.asked)
    ensures StandingOf(FireToken(d, ask), id) == StandingOf(d, id)
  {
  }

  lemma LaunchDrifts(d: Desk, n: Desk, ask: string, kind: Kind, events: seq<Event>, id: string)
    requires Roster(d.tasks, d.taskOf, d.asked) && d.reader.Reading?
    requires ask !in d.asked && n == d.(asked := d.asked[ask := Spawner])
    requires var d' := Settle(n, ask, Launch(kind, events)); Roster(d'.tasks, d'.taskOf, d'.asked)
    ensures Drifts(StandingOf(d, id), StandingOf(Settle(n, ask, Launch(kind, events)), id))
  {
  }

  lemma WaitDrifts(d: Desk, ask: string, req: Request, decision: Decision, id: string)
    requires Roster(d.tasks, d.taskOf, d.asked) && d.reader.Reading? && Sensible(d, ask, req, decision)
    requires decision.Await? || decision.Close?
    requires BringsId(req) ==> ask !in d.asked
    requires var d' := Settle(Noted(d, ask, req), ask, decision); Roster(d'.tasks, d'.taskOf, d'.asked)
    requires id != ""
    ensures Drifts(StandingOf(d, id), StandingOf(Settle(Noted(d, ask, req), ask, decision), id))
  {
    var d' := Settle(Noted(d, ask, req), ask, decision);
    assert ReaderId(d'.reader) == Some(if BringsId(req) then ask else "");
    assert d'.tasks == d.tasks && d'.taskOf == d.taskOf && d'.pump == d.pump;
  }

  lemma QuietDrifts(d: Desk, act: Act, id: string)
    requires Roster(d.tasks, d.taskOf, d.asked) && ReaderOk(d) && MonitorOk(d)
    requires Can(d, act) && LeavesTasks(act)
    requires Acted(d, act).tasks == d.tasks && Acted(d, act).taskOf == d.taskOf && Acted(d, act).asked == d.asked
    requires id != ""
    ensures Drifts(StandingOf(d, id), StandingOf(Acted(d, act), id))
  {
  }

  /** A new task's id has heard nothing yet; the other tasks have said what they had. */
  lemma ActKeepsTold(d: Desk, act: Act, offered: seq<Response>)
    requires DeskOk(d) && Can(d, act) && UsesFreshId(d, Do(act)) && Conversing(d, offered)
    ensures forall t :: 0 <= t < |Acted(d, act).tasks| ==>
      Under(offered, Acted(d, act).tasks[t].id) == Acted(d, act).tasks[t].said
  {
    match act
    case Ask(ask, req) =>
      DispatchIsSensible(d, ask, req);
      PhaseStreaming(Under(offered, ask));
      assert BringsId(req) ==> Allows(StandingOf(d, ask), Heard(offered, ask));
      AskKeepsTold(d, ask, req, Dispatch(d, ask, req), offered);
    case TaskMove(tid, move) => MoveFrame(d.tasks[tid], move);
    case TaskLeave(tid) =>
    case Drain =>
    case _ => TasksAreLeft(d, act);
  }

  lemma AskKeepsTold(d: Desk, ask: string, req: Request, decision: Decision, offered: seq<Response>)
    requires Roster(d.tasks, d.taskOf, d.asked) && Sensible(d, ask, req, decision)
    requires forall t :: 0 <= t < |d.tasks| ==> Under(offered, d.tasks[t].id) == d.tasks[t].said
    requires decision.Launch? ==> Under(offered, ask) == []
    ensures var d' := Settle(Noted(d, ask, req), ask, decision);
      forall t :: 0 <= t < |d'.tasks| ==> Under(offered, d'.tasks[t].id) == d'.tasks[t].said
  {
  }

  lemma ActKeepsConversing(d: Desk, act: Act, offered: seq<Response>)
    requires DeskOk(d) && Can(d, act) && UsesFreshId(d, Do(act)) && Conversing(d, offered)
    ensures Roster(Acted(d, act).tasks, Acted(d, act).taskOf, Acted(d, act).asked) && Conversing(Acted(d, act), offered)
  {
    ActKeepsRoster(d, act);
    ActKeepsTold(d, act, offered);
    forall id | id != "" ensures Allows(StandingOf(Acted(d, act), id), Heard(offered, id)) {
      ActDrifts(d, act, id);
      DriftAllows(StandingOf(d, id), StandingOf(Acted(d, act), id), Heard(offered, id));
    }
  }

  /** A response moves its own id's standing, and no other. */
  lemma SayMoves(d: Desk, who: Speaker, id: string)
    requires Roster(d.tasks, d.taskOf, d.asked) && ReaderOk(d) && MonitorOk(d)
    requires HasToSay(d, who) && Roster(AfterSaying(d, who).tasks, AfterSaying(d, who).taskOf, AfterSaying(d, who).asked)
    requires id != ""
    ensures var r, a, b := Utterance(d, who), StandingOf(d, id), StandingOf(AfterSaying(d, who), id);
      if r.id == id then Speaks(a, r.body, b) else a == b
  {
    match who
    case TheReader => ReaderSayMoves(d, id);
    case ThePump =>
    case TaskNo(tid) =>
      SpokenIsOk(d.tasks[tid]);
      TaskSayMoves(d, tid, id);
  }

  lemma ReaderSayMoves(d: Desk, id: string)
    requires Roster(d.tasks, d.taskOf, d.asked) && ReaderOk(d) && MonitorOk(d)
    requires HasToSay(d, TheReader) && id != ""
    ensures var r, a, b := Utterance(d, TheReader), StandingOf(d, id), StandingOf(AfterSaying(d, TheReader), id);
      if r.id == id then Speaks(a, r.body, b) else a == b
  {
  }

  lemma TaskSayMoves(d: Desk, tid: nat, id: string)
    requires Roster(d.tasks, d.taskOf, d.asked) && ReaderOk(d)
    requires HasToSay(d, TaskNo(tid)) && id != ""
    requires if d.tasks[tid].pc.last then IsTerminal(d.tasks[tid].pc.body) else IsStreamed(d.tasks[tid].pc.body)
    ensures var r, a, b := Utterance(d, TaskNo(tid)), StandingOf(d, id), StandingOf(AfterSaying(d, TaskNo(tid)), id);
      if r.id == id then Speaks(a, r.body, b) else a == b
  {
  }

  lemma SayKeepsTold(d: Desk, who: Speaker, offered: seq<Response>)
    requires DeskOk(d) && HasToSay(d, who) && Conversing(d, offered)
    ensures forall t :: 0 <= t < |AfterSaying(d, who).tasks| ==>
      Under(offered + [Utterance(d, who)], AfterSaying(d, who).tasks[t].id) == AfterSaying(d, who).tasks[t].said
  {
    var r, d' := Utterance(d, who), AfterSaying(d, who);
    forall t | 0 <= t < |d'.tasks| ensures Under(offered + [r], d'.tasks[t].id) == d'.tasks[t].said {
      UnderSnoc(offered, r, d.tasks[t].id);
      assert who != TaskNo(t) ==> r.id != d.tasks[t].id;
    }
  }

  lemma SayKeepsConversing(d: Desk, who: Speaker, offered: seq<Response>)
    requires DeskOk(d) && HasToSay(d, who) && Conversing(d, offered)
    ensures Roster(AfterSaying(d, who).tasks, AfterSaying(d, who).taskOf, AfterSaying(d, who).asked)
    ensures Conversing(AfterSaying(d, who), offered + [Utterance(d, who)])
  {
    SayKeepsRoster(d, who);
    SayKeepsTold(d, who, offered);
    var r := Utterance(d, who);
    forall id | id != "" ensures Allows(StandingOf(AfterSaying(d, who), id), Heard(offered + [r], id)) {
      UnderSnoc(offered, r, id);
      PhaseSnoc(Under(offered, id), r.body);
      SayMoves(d, who, id);
      if r.id == id { SpeechAllows(StandingOf(d, id), r.body, StandingOf(AfterSaying(d, who), id), Heard(offered, id)); }
    }
  }

  // ---- the invariant of a session -------------------------------------------------------------------------

  ghost predicate SessionOk(s: State) {
    DeskOk(s.desk) && WireOk(s.wire) && Conversing(s.desk, s.wire.offered)
  }

  lemma FreshIsOk(accepts: nat)
    ensures SessionOk(Fresh(accepts))
  {
    WriterModel.FreshIsFaithful(accepts);
  }

  lemma StepKeepsDesk(s: State, step: Step)
    requires SessionOk(s) && Enabled(s, step) && UsesFreshId(s.desk, step)
    ensures DeskOk(Next(s, step).desk)
  {
    match step
    case Do(act) =>
      ActKeepsRoster(s.desk, act);
      FreshIsIdle(s.desk, act);
      ActKeepsFlight(s.desk, act);
      ActKeepsScratch(s.desk, act);
      ActKeepsReader(s.desk, act);
      ActKeepsMonitor(s.desk, act);
      ActKeepsLink(s.desk, act);
    case Say(who) =>
      SayKeepsRoster(s.desk, who);
      SayKeepsFlight(s.desk, who);
      SayKeepsScratch(s.desk, who);
      SayKeepsReader(s.desk, who);
      SayKeepsMonitor(s.desk, who);
    case WriterTurn(_) =>
  }

  lemma StepKeepsSession(s: State, step: Step)
    requires SessionOk(s) && Enabled(s, step) && UsesFreshId(s.desk, step)
    ensures SessionOk(Next(s, step))
  {
    StepKeepsDesk(s, step);
    match step
    case Do(act) => ActKeepsConversing(s.desk, act, s.wire.offered);
    case Say(who) =>
      OfferIsOk(s.wire, Utterance(s.desk, who));
      SayKeepsConversing(s.desk, who, s.wire.offered);
    case WriterTurn(now) => TurnIsOk(s.wire, now, NoSenders(s.desk));
  }

  lemma {:induction false} RunKeepsSession(s: State, steps: seq<Step>)
    requires SessionOk(s) && IsFreshRun(s, steps)
    ensures IsRun(s, steps) && SessionOk(Final(s, steps))
    decreases |steps|
  {
    if steps != [] {
      StepKeepsSession(s, steps[0]);
      RunKeepsSession(Next(s, steps[0]), steps[1..]);
    }
  }
}
