/** What a browser can rely on over any run of a flash session. */
module FlashTheorems {
  import opened Protocol
  import opened Batch
  import opened Conversation
  import opened Frames
  import opened Pumps
  import opened Tasks
  import opened FlashSession
  import opened FlashBookkeeping
  import opened FlashConversations
  import opened FlashOrigins
  import WriterModel

  // ---- conservation on the wire ---------------------------------------------------------------------------

  lemma {:induction false} RunKeepsWire(s: State, steps: seq<Step>)
    requires WireOk(s.wire) && IsRun(s, steps)
    ensures WireOk(Final(s, steps).wire)
    decreases |steps|
  {
    if steps != [] {
      match steps[0] {
        case Do(_) =>
        case Say(who) => OfferIsOk(s.wire, Utterance(s.desk, who));
        case WriterTurn(now) => TurnIsOk(s.wire, now, NoSenders(s.desk));
      }
      RunKeepsWire(Next(s, steps[0]), steps[1..]);
    }
  }

  /** However producers, the writer and its timer interleave, and wherever the socket fails: with the channel open
      what was sent, is buffered and is queued spells out everything that was said; and what was sent is always a
      beginning of it, in order. */
  lemma WireConservation(accepts: nat, steps: seq<Step>)
    requires IsRun(Fresh(accepts), steps)
    ensures var w := Final(Fresh(accepts), steps).wire;
      && (ChannelOpen(w) ==> Expand(w.writer.sent) + Expand(w.writer.buf) + Expand(w.queue) == Expand(w.offered))
      && Expand(w.writer.sent) <= Expand(w.offered)
  {
    WriterModel.FreshIsFaithful(accepts);
    RunKeepsWire(Fresh(accepts), steps);
    WireConserves(Final(Fresh(accepts), steps).wire);
  }

  lemma WireConserves(w: Wire)
    requires WireOk(w)
    ensures ChannelOpen(w) ==> Expand(w.writer.sent) + Expand(w.writer.buf) + Expand(w.queue) == Expand(w.offered)
    ensures Expand(w.writer.sent) <= Expand(w.offered)
  {
    WriterModel.WhatTheSocketSaw(w.writer, w.received);
    assert w.offered == w.received + w.offered[|w.received|..];
    ExpandAppend(w.received, w.offered[|w.received|..]);
    ExpandAppend(w.received, w.queue);
  }

  /** The frames sent under one id are that id's responses, cut short at most at the end, with chunks glued. */
  lemma SentUnder(w: Wire, id: string) returns (rest: seq<Body>)
    requires WireOk(w)
    ensures Coarsens(Stamp(id, Under(w.received, id)), Stamp(id, Under(w.writer.sent, id) + rest))
    ensures w.writer.status.Done? ==> rest == []
  {
    var v := w.writer;
    var tail := v.buf + v.lost;
    assert v.sent + v.buf + v.lost == v.sent + tail;
    CoarsensUnder(w.received, v.sent + tail, id);
    UnderAppend(v.sent, tail, id);
    rest := Under(tail, id);
  }

  // ---- one terminal, and last -----------------------------------------------------------------------------

  /** Once the writer has finished well, nothing is missing and nobody is left to speak. */
  ghost predicate Closed(s: State) {
    s.wire.writer.status.Done? ==> s.wire.received == s.wire.offered && NoSenders(s.desk)
  }

  lemma StepKeepsClosed(s: State, step: Step)
    requires Closed(s) && WireOk(s.wire) && Enabled(s, step)
    ensures Closed(Next(s, step))
  {
    match step
    case Do(act) => if s.wire.writer.status.Done? { ActKeepsNoSenders(s.desk, act); }
    case Say(who) =>
    case WriterTurn(now) =>
  }

  lemma ActKeepsNoSenders(d: Desk, act: Act)
    requires NoSenders(d) && Can(d, act)
    ensures NoSenders(Acted(d, act))
  {
  }

  lemma {:induction false} RunKeepsClosed(s: State, steps: seq<Step>)
    requires Closed(s) && SessionOk(s) && IsFreshRun(s, steps)
    ensures IsRun(s, steps) && Closed(Final(s, steps)) && SessionOk(Final(s, steps))
    decreases |steps|
  {
    if steps != [] {
      StepKeepsSession(s, steps[0]);
      StepKeepsClosed(s, steps[0]);
      RunKeepsClosed(Next(s, steps[0]), steps[1..]);
    }
  }

  /** What an id may have been told once all is over. */
  ghost predicate ProperlyAnswered(role: Role, bodies: seq<Body>) {
    match role
    case MonitorWriter(held) => if held then bodies == [] else |bodies| == 1 && bodies[0].Error?
    case Opener => (|bodies| == 1 && bodies[0].Error?) || MonitorTranscript(bodies)
    case Spawner => OneTerminalLast(bodies)
    case _ => |bodies| == 1 && IsTerminal(bodies[0])
  }

  /** Over any run with fresh ids whose writer finishes on a live socket, every id that was asked about got on the
      wire exactly what it is owed: one terminal and nothing after it; or a monitor's transcript; or, for
      monitorWrite, nothing if a monitor was held when it was dispatched and one error if not. Ids never asked about got nothing. */
  lemma EveryRequestIsAnsweredOnce(accepts: nat, steps: seq<Step>, id: string)
    requires IsFreshRun(Fresh(accepts), steps) && id != ""
    ensures IsRun(Fresh(accepts), steps)
    ensures var s := Final(Fresh(accepts), steps);
      s.wire.writer.status.Done? ==>
        if id in s.desk.asked then ProperlyAnswered(s.desk.asked[id], Under(s.wire.writer.sent, id))
        else Under(s.wire.writer.sent, id) == []
  {
    FreshIsOk(accepts);
    RunKeepsClosed(Fresh(accepts), steps);
    var s := Final(Fresh(accepts), steps);
    if s.wire.writer.status.Done? { DoneIsAnswered(s, id); }
  }

  lemma DoneIsAnswered(s: State, id: string)
    requires Closed(s) && SessionOk(s) && s.wire.writer.status.Done? && id != ""
    ensures if id in s.desk.asked then ProperlyAnswered(s.desk.asked[id], Under(s.wire.writer.sent, id))
            else Under(s.wire.writer.sent, id) == []
  {
    SentIsWhole(s.wire, id);
    NobodyIsAnswered(s.desk, s.wire.offered, id, Under(s.wire.writer.sent, id));
  }

  lemma NobodyIsAnswered(d: Desk, offered: seq<Response>, id: string, bodies: seq<Body>)
    requires Roster(d.tasks, d.taskOf, d.asked) && MonitorOk(d) && Conversing(d, offered) && id != ""
    requires NoSenders(d) && PhaseOf(bodies) == Heard(offered, id)
    ensures if id in d.asked then ProperlyAnswered(d.asked[id], bodies) else bodies == []
  {
    EndIsAnswered(d, offered, id, bodies);
  }

  /** With the read loop and all tasks done, whatever spells what was said under the id is what it is owed. */
  lemma EndIsAnswered(d: Desk, offered: seq<Response>, id: string, bodies: seq<Body>)
    requires Roster(d.tasks, d.taskOf, d.asked) && MonitorOk(d) && Conversing(d, offered) && id != ""
    requires ReaderId(d.reader).None? && forall t :: 0 <= t < |d.tasks| ==> d.tasks[t].pc.Gone?
    requires PhaseOf(bodies) == Heard(offered, id)
    ensures if id in d.asked then ProperlyAnswered(d.asked[id], bodies) else bodies == []
  {
    assert Allows(StandingOf(d, id), Heard(offered, id));
    FinalStanding(d, id);
    StandingIsProper(d, id, bodies);
  }

  lemma SentIsWhole(w: Wire, id: string)
    requires WireOk(w) && w.writer.status.Done? && w.received == w.offered
    ensures PhaseOf(Under(w.writer.sent, id)) == Heard(w.offered, id)
  {
    var rest := SentUnder(w, id);
    assert Under(w.writer.sent, id) + rest == Under(w.writer.sent, id);
    PhaseOfCoarser(id, Under(w.offered, id), Under(w.writer.sent, id));
  }

  /** The standings an id can have when the read loop and all tasks are done with it. */
  predicate IsSettled(standing: Standing) {
    standing.Unasked? || standing.Finished? || standing.Pumping? || standing.Quiet?
  }

  lemma FinalStanding(d: Desk, id: string)
    requires Roster(d.tasks, d.taskOf, d.asked) && MonitorOk(d) && ReaderId(d.reader).None? && forall t :: 0 <= t < |d.tasks| ==> d.tasks[t].pc.Gone?
    ensures IsSettled(StandingOf(d, id))
    ensures StandingOf(d, id).Pumping? ==> id in d.asked && d.asked[id].Opener?
    ensures StandingOf(d, id).Quiet? ==> id in d.asked && d.asked[id] == StandingOf(d, id).role
    ensures StandingOf(d, id).Finished? ==> id in d.asked && d.asked[id].Spawner?
    ensures StandingOf(d, id).Unasked? ==> id !in d.asked
  {
    if id in d.taskOf { assert d.tasks[d.taskOf[id]].pc.Gone?; }
  }

  lemma StandingIsProper(d: Desk, id: string, bodies: seq<Body>)
    requires Roster(d.tasks, d.taskOf, d.asked) && Allows(StandingOf(d, id), PhaseOf(bodies))
    requires IsSettled(StandingOf(d, id))
    requires StandingOf(d, id).Pumping? ==> id in d.asked && d.asked[id].Opener?
    requires StandingOf(d, id).Quiet? ==> id in d.asked && d.asked[id] == StandingOf(d, id).role
    requires StandingOf(d, id).Finished? ==> id in d.asked && d.asked[id].Spawner?
    requires StandingOf(d, id).Unasked? ==> id !in d.asked
    ensures if id in d.asked then ProperlyAnswered(d.asked[id], bodies) else bodies == []
  {
    PhaseSettled(bodies);
    PhaseMonitor(bodies);
    PhaseStreaming(bodies);
  }

  /** At every moment, socket failures included, what has reached the wire under an id is well formed so far: in
      particular nothing has followed a terminal, except serial data under a monitor's id. */
  lemma NothingFollowsATerminal(accepts: nat, steps: seq<Step>, id: string)
    requires IsFreshRun(Fresh(accepts), steps) && id != ""
    ensures IsRun(Fresh(accepts), steps)
    ensures WellFormedSoFar(Final(Fresh(accepts), steps), id)
  {
    FreshIsOk(accepts);
    RunKeepsSession(Fresh(accepts), steps);
    SentIsWellFormed(Final(Fresh(accepts), steps), id);
  }

  ghost predicate WellFormedSoFar(s: State, id: string) {
    var sent := Under(s.wire.writer.sent, id);
    && !PhaseOf(sent).Broken?
    && (id in s.desk.asked && !s.desk.asked[id].Opener? ==> forall i :: 0 <= i < |sent| - 1 ==> IsStreamed(sent[i]))
  }

  lemma SentIsWellFormed(s: State, id: string)
    requires SessionOk(s) && id != ""
    ensures WellFormedSoFar(s, id)
  {
    StandingPhase(s.desk, s.wire.offered, id);
    SentIsPrefix(s.wire, id);
    if id in s.desk.asked && !s.desk.asked[id].Opener? { PrefixSettled(Under(s.wire.writer.sent, id)); }
  }

  lemma StandingPhase(d: Desk, offered: seq<Response>, id: string)
    requires DeskOk(d) && Conversing(d, offered) && id != ""
    ensures !Heard(offered, id).Broken?
    ensures id in d.asked && !d.asked[id].Opener? ==> Heard(offered, id) in {Silent, Streaming, Answered, Refused, Replied, Phase.Failed}
  {
    assert Allows(StandingOf(d, id), Heard(offered, id));
    if id in d.taskOf { assert d.tasks[d.taskOf[id]].id == id; }
  }

  lemma SentIsPrefix(w: Wire, id: string)
    requires WireOk(w) && !Heard(w.offered, id).Broken?
    ensures var sent := Under(w.writer.sent, id);
      && !PhaseOf(sent).Broken?
      && (Heard(w.offered, id) in {Silent, Streaming, Answered, Refused, Replied, Phase.Failed} ==>
            PhaseOf(sent) in {Silent, Streaming, Answered, Refused, Replied, Phase.Failed})
  {
    var sent, received := Under(w.writer.sent, id), Under(w.received, id);
    var later := w.offered[|w.received|..];
    assert w.offered == w.received + later;
    UnderAppend(w.received, later, id);
    var rest := SentUnder(w, id);
    PhaseOfCoarser(id, received, sent + rest);
    PrefixPhase(received, Under(later, id));
    PrefixPhase(sent, rest);
  }

  /** Phases are remembered: what could follow restricts what came before. */
  lemma {:induction false} PrefixPhase(a: seq<Body>, b: seq<Body>)
    requires !PhaseOf(a + b).Broken?
    ensures !PhaseOf(a).Broken?
    ensures PhaseOf(a + b) in {Silent, Streaming, Answered, Refused, Replied, Phase.Failed} ==>
      PhaseOf(a) in {Silent, Streaming, Answered, Refused, Replied, Phase.Failed}
    decreases |b|
  {
    if b == [] {
      assert a + b == a;
    } else {
      assert Front(a + b) == a + Front(b);
      PrefixPhase(a, Front(b));
    }
  }

  lemma PrefixSettled(bodies: seq<Body>)
    requires PhaseOf(bodies) in {Silent, Streaming, Answered, Refused, Replied, Phase.Failed}
    ensures forall i :: 0 <= i < |bodies| - 1 ==> IsStreamed(bodies[i])
  {
    PhaseSettled(bodies);
    PhaseStreaming(bodies);
  }

  /** The wire refines the pumps: when the writer has finished well, what each task's id received is its pump's
      specified outcome for its own stream and the moment at which its token was seen (or the error of a stream that
      never started), up to the gluing of text chunks; it is told of a cancellation only if its token was set. The task
      is of the kind, and its stream the one, of the request asked under its id. */
  lemma WireRefinesThePump(accepts: nat, steps: seq<Step>, tid: nat)
    requires IsFreshRun(Fresh(accepts), steps)
    ensures IsRun(Fresh(accepts), steps)
    ensures var s := Final(Fresh(accepts), steps);
      s.wire.writer.status.Done? && tid < |s.desk.tasks| ==>
        var t := s.desk.tasks[tid];
        && CutIsMeant(t)
        && IsServed(s.desk, t.id, AskedUnder(Fresh(accepts), steps, t.id, None)) && t.id in s.desk.taskOf && s.desk.taskOf[t.id] == tid
        && exists out :: IsWhole(t, out) && IsTold(t, out) && Coarsens(Stamp(t.id, out), Stamp(t.id, Under(s.wire.writer.sent, t.id)))
  {
    FreshIsOk(accepts);
    RunKeepsClosed(Fresh(accepts), steps);
    var s := Final(Fresh(accepts), steps);
    if s.wire.writer.status.Done? && tid < |s.desk.tasks| {
      TaskReachedTheWire(s, tid);
      TasksServeTheirRequests(accepts, steps, s.desk.tasks[tid].id);
    }
  }

  lemma TaskReachedTheWire(s: State, tid: nat)
    requires Closed(s) && SessionOk(s) && s.wire.writer.status.Done? && tid < |s.desk.tasks|
    ensures var t := s.desk.tasks[tid];
      && CutIsMeant(t) && IsWhole(t, t.said) && IsTold(t, t.said) && t.id in s.desk.taskOf && s.desk.taskOf[t.id] == tid
      && Coarsens(Stamp(t.id, t.said), Stamp(t.id, Under(s.wire.writer.sent, t.id)))
  {
    var t := s.desk.tasks[tid];
    WholeIsTold(t, t.said);
    var rest := SentUnder(s.wire, t.id);
    assert Under(s.wire.writer.sent, t.id) + rest == Under(s.wire.writer.sent, t.id);
  }

  // ---- tokens ---------------------------------------------------------------------------------------------

  /** In every reachable state before teardown the token map holds exactly the running tasks, each under its own
      token; after the drain it is empty and every running task has been told to stop. */
  lemma TokensAreTheRunningTasks(accepts: nat, steps: seq<Step>)
    requires IsFreshRun(Fresh(accepts), steps)
    ensures IsRun(Fresh(accepts), steps)
    ensures var d := Final(Fresh(accepts), steps).desk;
      if Drained(d) then d.inFlight == map[] && forall t :: 0 <= t < |d.tasks| && IsLive(d.tasks[t]) ==> d.tasks[t].cancelled
      else MapAgrees(d.inFlight, d.tasks)
  {
    FreshIsOk(accepts);
    RunKeepsSession(Fresh(accepts), steps);
  }

  /** A request that is refused while being dispatched leaves no token behind. */
  lemma RefusedRequestsRegisterNothing(s: State, id: string, req: Request)
    requires SessionOk(s) && s.desk.reader.Reading? && UsesFreshId(s.desk, Do(Ask(id, req)))
    ensures Acted(s.desk, Ask(id, req)).reader.Replying? && BringsId(req) ==> id !in Acted(s.desk, Ask(id, req)).inFlight
  {
    ActKeepsRoster(s.desk, Ask(id, req));
    ActKeepsReader(s.desk, Ask(id, req));
    FreshIsIdle(s.desk, Ask(id, req));
    ActKeepsFlight(s.desk, Ask(id, req));
    DispatchIsSensible(s.desk, id, req);
  }

  lemma ActKeepsCancelled(d: Desk, act: Act, tid: nat)
    requires Can(d, act) && tid < |d.tasks| && d.tasks[tid].cancelled
    ensures var ts := Acted(d, act).tasks;
      tid < |ts| && ts[tid].cancelled && ts[tid].said == d.tasks[tid].said && Room(ts[tid]) <= Room(d.tasks[tid])
  {
    match act
    case TaskMove(t, move) => if t == tid { MoveKeepsRoom(d.tasks[t], move); }
    case Ask(id, req) => SettleKeepsCancelled(Noted(d, id, req), id, Dispatch(d, id, req), tid);
    case TaskLeave(_) =>
    case Drain =>
    case _ => TasksAreLeft(d, act);
  }

  lemma SettleKeepsCancelled(d: Desk, id: string, decision: Decision, tid: nat)
    requires tid < |d.tasks| && d.tasks[tid].cancelled
    ensures var ts := Settle(d, id, decision).tasks;
      tid < |ts| && ts[tid].cancelled && ts[tid].said == d.tasks[tid].said && Room(ts[tid]) <= Room(d.tasks[tid])
  {
  }

  /** From the moment its token has fired, a task says at most `Room` more, whatever the rest of the session does. */
  lemma {:induction false} CancelledTasksFallSilent(s: State, steps: seq<Step>, tid: nat)
    requires IsRun(s, steps) && tid < |s.desk.tasks| && s.desk.tasks[tid].cancelled
    ensures var ts := Final(s, steps).desk.tasks;
      && tid < |ts| && ts[tid].cancelled && s.desk.tasks[tid].said <= ts[tid].said
      && |ts[tid].said| + Room(ts[tid]) <= |s.desk.tasks[tid].said| + Room(s.desk.tasks[tid])
    decreases |steps|
  {
    if steps != [] {
      match steps[0] {
        case Do(act) => ActKeepsCancelled(s.desk, act, tid);
        case Say(who) =>
        case WriterTurn(_) =>
      }
      CancelledTasksFallSilent(Next(s, steps[0]), steps[1..], tid);
    }
  }

  /** In any session, from the moment its token has fired, a request sends at most one more streamed response before
      its terminal: two more responses at most, and if it is two the second is the terminal. And it does not depend on
      its stream for that: wherever it waits for one, the helper alone can bring it to its terminal. */
  lemma CancelIsAnsweredPromptly(accepts: nat, before: seq<Step>, after: seq<Step>, tid: nat)
    requires IsFreshRun(Fresh(accepts), before)
    ensures IsRun(Fresh(accepts), before)
    ensures var s := Final(Fresh(accepts), before);
      IsFreshRun(s, after) && tid < |s.desk.tasks| && s.desk.tasks[tid].cancelled ==>
        && IsRun(s, after) && AtMostOneMore(s.desk.tasks[tid].said, Final(s, after).desk, tid)
        && AnswersAlone(Final(s, after), tid)
  {
    FreshIsOk(accepts);
    RunKeepsSession(Fresh(accepts), before);
    var s := Final(Fresh(accepts), before);
    if IsFreshRun(s, after) && tid < |s.desk.tasks| && s.desk.tasks[tid].cancelled {
      RunKeepsSession(s, after);
      CancelledTasksFallSilent(s, after, tid);
      SilentTasksEnded(s.desk.tasks[tid], Final(s, after).desk, tid);
      CancelNeedsNoStream(Final(s, after), tid);
    }
  }

  /** These steps of the helper's own bring the task to its cancelled terminal, with nothing taken from its stream. */
  ghost predicate CancelsAlone(s: State, steps: seq<Step>, tid: nat) {
    && IsRun(s, steps) && (forall step :: step in steps ==> IsOwn(step))
    && tid < |s.desk.tasks| && tid < |Final(s, steps).desk.tasks|
    && Final(s, steps).desk.tasks[tid].pc == Holding(CANCELLED, true)
    && Final(s, steps).desk.tasks[tid].next == s.desk.tasks[tid].next
  }

  /** A task at its select, or waiting there for its stream, need not wait any longer. */
  ghost predicate AnswersAlone(s: State, tid: nat) {
    tid < |s.desk.tasks| && (s.desk.tasks[tid].pc.Selecting? || s.desk.tasks[tid].pc.Polled?) ==>
      exists steps :: CancelsAlone(s, steps, tid)
  }

  lemma CancelNeedsNoStream(s: State, tid: nat)
    requires tid < |s.desk.tasks| && s.desk.tasks[tid].cancelled
    ensures AnswersAlone(s, tid)
  {
    var poll, wake := Do(TaskMove(tid, Poll)), Do(TaskMove(tid, Wake));
    if s.desk.tasks[tid].pc.Selecting? {
      RunCons(s, poll, []);
      assert CancelsAlone(s, [poll] + [], tid);
    } else if s.desk.tasks[tid].pc.Polled? {
      RunCons(Next(s, wake), poll, []);
      RunCons(s, wake, [poll] + []);
      assert CancelsAlone(s, [wake] + ([poll] + []), tid);
    }
  }

  ghost predicate AtMostOneMore(before: seq<Body>, d: Desk, tid: nat) {
    && tid < |d.tasks| && before <= d.tasks[tid].said && |d.tasks[tid].said| <= |before| + 2
    && (|d.tasks[tid].said| == |before| + 2 ==> IsTerminal(Last(d.tasks[tid].said)))
  }

  lemma SilentTasksEnded(t: Task, d: Desk, tid: nat)
    requires Roster(d.tasks, d.taskOf, d.asked) && tid < |d.tasks|
    requires t.said <= d.tasks[tid].said && |d.tasks[tid].said| + Room(d.tasks[tid]) <= |t.said| + Room(t)
    ensures AtMostOneMore(t.said, d, tid)
  {
    TaskPhase(d.tasks[tid]);
    PhaseSettled(d.tasks[tid].said);
  }
}
