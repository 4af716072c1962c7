/** A session that is left alone: without further requests it answers all it was asked, in bounded steps. */
module FlashProgress {
  import opened Protocol
  import opened Batch
  import opened Conversation
  import opened Pumps
  import opened Tasks
  import opened FlashSession
  import opened FlashBookkeeping
  import opened FlashConversations
  import opened FlashTheorems
  import opened FlashTeardown

  /** Browser and daemon are never held back: any request can be made of a session that reads, and whatever the daemon is
      waited for, it may answer as it likes. */
  lemma OthersAreNotHeldBack(s: State)
    ensures s.desk.reader.Reading? ==> Enabled(s, Do(HangUp)) && forall id, req :: Enabled(s, Do(Ask(id, req)))
    ensures s.desk.reader.Listing? ==> forall fault, payload :: Enabled(s, Do(BoardsBack(fault, payload)))
    ensures s.desk.reader.Opening? ==> forall inbound :: Enabled(s, Do(PortUp(inbound)))
    ensures s.desk.reader.Opening? ==> forall code, detail :: Enabled(s, Do(PortRefused(code, detail)))
    ensures s.desk.pump.Some? && s.desk.pump.value.pc.Pulling? ==> Enabled(s, Do(PumpPull))
    ensures s.desk.link.attached ==> Enabled(s, Do(LinkDrop))
  {
  }

  // ---- bounded --------------------------------------------------------------------------------------------

  /** The work a step brings: telling all that an opened port will send. */
  function Load(step: Step): nat {
    if step.Do? && step.act.PortUp? then 8 * |step.act.inbound| + 3 else 0
  }

  function Loads(steps: seq<Step>): nat {
    if steps == [] then 0 else Load(steps[0]) + Loads(steps[1..])
  }

  function PortUps(steps: seq<Step>): nat {
    if steps == [] then 0 else (if steps[0].Do? && steps[0].act.PortUp? then 1 else 0) + PortUps(steps[1..])
  }

  function OpeningPorts(d: Desk): nat {
    if d.reader.Opening? then 1 else 0
  }

  lemma ActLeavesOpening(d: Desk, act: Act)
    requires Can(d, act) && !act.Ask? && !act.HangUp?
    ensures Acted(d, act).reader.Opening? ==> d.reader.Opening? && !act.PortUp?
  {
  }

  lemma StepSpends(s: State, step: Step)
    requires Enabled(s, step) && !IsRequest(step)
    ensures Measure(Next(s, step)) + 1 <= Measure(s) + Load(step)
    ensures OpeningPorts(Next(s, step).desk) + PortUps([step]) <= OpeningPorts(s.desk)
  {
    assert [step][1..] == [];
    match step
    case Do(act) =>
      ActLeavesOpening(s.desk, act);
      if !act.PortUp? { ActLowersRank(s.desk, act); }
    case Say(who) => SayLowersRank(s.desk, who);
    case WriterTurn(now) => TurnLowersRank(s.wire, now, NoSenders(s.desk));
  }

  /** Left alone, a session can go on for no longer than its measure, lengthened by what a port still being opened
      brings; and no more than the one port is. */
  lemma {:induction false} QuietRunsAreBounded(s: State, steps: seq<Step>)
    requires IsRun(s, steps) && forall step :: step in steps ==> !IsRequest(step)
    ensures |steps| + Measure(Final(s, steps)) <= Measure(s) + Loads(steps)
    ensures PortUps(steps) <= OpeningPorts(s.desk)
    decreases |steps|
  {
    if steps != [] {
      assert steps[0] in steps;
      assert [steps[0]][1..] == [];
      StepSpends(s, steps[0]);
      QuietRunsAreBounded(Next(s, steps[0]), steps[1..]);
    }
  }

  lemma {:induction false} QuietRunsKeepSession(s: State, steps: seq<Step>)
    requires SessionOk(s) && IsRun(s, steps) && forall step :: step in steps ==> !IsRequest(step)
    ensures SessionOk(Final(s, steps))
    decreases |steps|
  {
    if steps != [] {
      assert steps[0] in steps;
      StepKeepsSession(s, steps[0]);
      QuietRunsKeepSession(Next(s, steps[0]), steps[1..]);
    }
  }

  // ---- answered -------------------------------------------------------------------------------------------

  /** The session waits for the browser; at most an open monitor goes on. */
  ghost predicate IsWaiting(s: State) {
    && (s.desk.reader.Reading? || s.desk.reader.Returned?)
    && (forall t :: 0 <= t < |s.desk.tasks| ==> s.desk.tasks[t].pc.Gone?)
    && (ChannelOpen(s.wire) ==> s.wire.queue == [] && s.wire.writer.buf == [])
  }

  /** All that a session may be made to wait for by the daemon: a call, a reinit, the stream of a request that is not
      cancelled, or the end of a monitor that has been told to close. */
  ghost predicate WaitsForDaemon(d: Desk) {
    || d.reader.Listing? || d.reader.Opening? || AwaitsMonitor(d)
    || exists t :: 0 <= t < |d.tasks| && AwaitsDaemon(d.tasks[t])
  }

  /** The helper itself has nothing to do and waits for nothing. */
  ghost predicate IsAtRest(s: State) {
    (forall step :: IsOwn(step) ==> !Enabled(s, step)) && !WaitsForDaemon(s.desk)
  }

  lemma WriterCanProceed(s: State) returns (step: Step)
    requires WireOk(s.wire) && ChannelOpen(s.wire) && (s.wire.queue != [] || s.wire.writer.buf != [])
    ensures Enabled(s, step) && IsOwn(step)
  {
    var flushAt := s.wire.writer.flushAt;
    step := WriterTurn(if flushAt.Some? && flushAt.value > s.wire.clock then flushAt.value else s.wire.clock);
  }

  lemma BusyReaderCanProceed(s: State) returns (step: Step)
    requires SessionOk(s) && !s.desk.reader.Reading? && !s.desk.reader.Returned? && !HasToSay(s.desk, TheReader)
    requires (forall t :: 0 <= t < |s.desk.tasks| ==> s.desk.tasks[t].pc.Gone?) && !HasToSay(s.desk, ThePump)
    requires !WaitsForDaemon(s.desk)
    ensures Enabled(s, step) && IsOwn(step)
  {
    match s.desk.reader {
      case Joining(_) => step := Do(Joined);
      case Draining => step := Do(Drain);
      case Awaiting => step := if ChannelOpen(s.wire) then WriterTurn(s.wire.clock) else Do(Return);
      case _ => step := if Can(s.desk, SendCommand) then Do(SendCommand) else Do(LinkPull);
    }
  }

  /** A session that is not waiting for the browser, nor for the daemon, can go on by itself. */
  lemma CanGoOn(s: State) returns (step: Step)
    requires SessionOk(s) && !IsWaiting(s) && !WaitsForDaemon(s.desk)
    ensures Enabled(s, step) && IsOwn(step)
  {
    if tid :| 0 <= tid < |s.desk.tasks| && IsLive(s.desk.tasks[tid]) {
      step := TaskCanProceed(s, tid);
    } else if HasToSay(s.desk, ThePump) {
      step := SpeakerCanProceed(s, ThePump);
    } else if HasToSay(s.desk, TheReader) {
      step := SpeakerCanProceed(s, TheReader);
    } else if ChannelOpen(s.wire) && (s.wire.queue != [] || s.wire.writer.buf != []) {
      step := WriterCanProceed(s);
    } else {
      step := BusyReaderCanProceed(s);
    }
  }

  /** Every request so far has been answered as it is owed, and on a live socket the answer has been sent. */
  ghost predicate AllAnswered(s: State) {
    forall id :: id in s.desk.asked && id != "" ==>
      && ProperlyAnswered(s.desk.asked[id], Under(s.wire.offered, id))
      && (ChannelOpen(s.wire) ==> ProperlyAnswered(s.desk.asked[id], Under(s.wire.writer.sent, id)))
  }

  lemma WaitingHasSent(w: Wire, id: string)
    requires WireOk(w) && ChannelOpen(w) && w.queue == [] && w.writer.buf == []
    ensures PhaseOf(Under(w.offered, id)) == PhaseOf(Under(w.writer.sent, id))
  {
    assert w.offered == w.received;
    assert w.writer.sent + w.writer.buf + w.writer.lost == w.writer.sent;
    CoarsensUnder(w.received, w.writer.sent, id);
    PhaseOfCoarser(id, Under(w.received, id), Under(w.writer.sent, id));
  }

  lemma WaitingIsAnswered(s: State)
    requires SessionOk(s) && IsWaiting(s)
    ensures AllAnswered(s)
  {
    forall id | id in s.desk.asked && id != ""
      ensures ProperlyAnswered(s.desk.asked[id], Under(s.wire.offered, id))
      ensures ChannelOpen(s.wire) ==> ProperlyAnswered(s.desk.asked[id], Under(s.wire.writer.sent, id))
    {
      EndIsAnswered(s.desk, s.wire.offered, id, Under(s.wire.offered, id));
      if ChannelOpen(s.wire) {
        WaitingHasSent(s.wire, id);
        EndIsAnswered(s.desk, s.wire.offered, id, Under(s.wire.writer.sent, id));
      }
    }
  }

  ghost predicate RestsAnswered(s: State) {
    IsAtRest(s) ==> AllAnswered(s)
  }

  lemma RestIsAnswered(s: State)
    requires SessionOk(s)
    ensures RestsAnswered(s)
  {
    if IsWaiting(s) {
      WaitingIsAnswered(s);
    } else if !WaitsForDaemon(s.desk) {
      var step := CanGoOn(s);
    }
  }

  /** Any session whose browser asks no more goes on for a number of steps bounded by what there is to do and by what the
      one port still being opened will send; and whenever the helper can do nothing more by itself and waits for nothing
      from the daemon, it has answered everything. */
  lemma QuietSessionsAnswerEverything(accepts: nat, before: seq<Step>, after: seq<Step>)
    requires IsFreshRun(Fresh(accepts), before)
    ensures IsRun(Fresh(accepts), before)
    ensures var s := Final(Fresh(accepts), before);
      IsRun(s, after) && (forall step :: step in after ==> !IsRequest(step)) ==>
        && |after| <= Measure(s) + Loads(after) && PortUps(after) <= OpeningPorts(s.desk)
        && RestsAnswered(Final(s, after))
  {
    FreshIsOk(accepts);
    RunKeepsSession(Fresh(accepts), before);
    var s := Final(Fresh(accepts), before);
    if IsRun(s, after) && forall step :: step in after ==> !IsRequest(step) {
      QuietRunsAreBounded(s, after);
      QuietRunsKeepSession(s, after);
      RestIsAnswered(Final(s, after));
    }
  }
}
