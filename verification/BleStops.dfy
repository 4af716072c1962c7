/** That a scan told to stop does stop, and what is left on the radio when every browser has gone
    (src/service/ble/session.rs). */
module BleStops {
  import opened Protocol
  import opened BleTransport
  import opened BleScans

  /** A browser's request, or its session's end. */
  predicate IsSessions(step: Step) {
    step.Ask? || step.Cancel? || step.TearDown?
  }

  /** What the adapter does of its own accord: an event, or the end of a stream of them. */
  predicate IsUnprompted(step: Step) {
    step.Notice? || (step.Finish? && step.ended)
  }

  /** Browsers and the adapter are never held back: any request can be made, and each call of a scan may succeed or fail,
      its stream yield anything, or end. */
  lemma OthersAreNotHeldBack(s: System, t: nat)
    ensures forall step: Step :: IsSessions(step) ==> Enabled(s, step)
    ensures t < |s.scans| && s.scans[t].pc.Queued? ==> forall stopOk, startOk :: Enabled(s, Start(t, stopOk, startOk))
    ensures t < |s.scans| && s.scans[t].pc.Started? ==> Enabled(s, Subscribe(t, true)) && Enabled(s, Subscribe(t, false))
    ensures t < |s.scans| && s.scans[t].pc.Scanning? ==> Enabled(s, Finish(t, true)) && forall advert :: Enabled(s, Notice(t, advert))
    ensures t < |s.scans| && s.scans[t].pc.Releasing? ==> Enabled(s, Release(t, true)) && Enabled(s, Release(t, false))
  {
  }

  // ---- one cancelled scan ---------------------------------------------------------------------------------

  function Rank(scan: Scan): nat {
    match scan.pc
    case Queued => 5
    case Started(_) => 4
    case Scanning(_) => 3
    case Showing(_, _) => 4
    case Releasing(_) => 2
    case Answering(_) => 1
    case Over => 0
  }

  /** What a cancelled scan does next if its calls to the adapter succeed. */
  function WayOut(t: nat, pc: Pc): Step
    requires !pc.Over?
  {
    match pc
    case Queued => Start(t, true, true)
    case Started(_) => Subscribe(t, true)
    case Scanning(_) => Finish(t, false)
    case Showing(_, _) => Show(t)
    case Releasing(_) => Release(t, true)
    case Answering(_) => Answer(t)
  }

  lemma WayOutIsOpen(s: System, t: nat)
    requires t < |s.scans| && s.scans[t].cancelled && !s.scans[t].pc.Over?
    ensures var step := WayOut(t, s.scans[t].pc);
      && Enabled(s, step) && !IsSessions(step) && !IsUnprompted(step) && AdapterObeys(step)
      && t < |Next(s, step).scans| && Next(s, step).scans[t].cancelled
      && Rank(Next(s, step).scans[t]) < Rank(s.scans[t])
  {
  }

  /** The steps are the scan's own, every adapter call in them succeeds, and no event is taken. */
  ghost predicate IsWayOut(steps: seq<Step>, t: nat) {
    forall step :: step in steps ==>
      !IsSessions(step) && !IsUnprompted(step) && AdapterObeys(step) && step.scan == t
  }

  /** `n` is the scan `scan` once it is over, without another hit: it has released its generation once and said that it
      stopped, unless its terminal was chosen before; then it has said that one. */
  ghost predicate EndsAs(scan: Scan, n: Scan) {
    && n.pc.Over? && n.hits == scan.hits
    && match scan.pc
       case Over => n == scan
       case Answering(terminal) => n.releases == scan.releases && n.said == scan.said + [terminal]
       case _ => n.releases == scan.releases + 1 && n.said != [] && Last(n.said) == Stopped
  }

  lemma RunCons(s: System, step: Step, steps: seq<Step>)
    requires Enabled(s, step) && IsRun(Next(s, step), steps)
    ensures IsRun(s, [step] + steps) && Final(s, [step] + steps) == Final(Next(s, step), steps)
  {
    assert ([step] + steps)[1..] == steps;
  }

  /** Wherever a cancelled scan stands, it can reach its end by itself, whatever the rest of the system does not do. */
  lemma {:induction false} CancelledScanEnds(s: System, t: nat) returns (steps: seq<Step>)
    requires t < |s.scans| && s.scans[t].cancelled
    ensures IsRun(s, steps) && |steps| <= Rank(s.scans[t]) && IsWayOut(steps, t)
    ensures t < |Final(s, steps).scans| && EndsAs(s.scans[t], Final(s, steps).scans[t])
    decreases Rank(s.scans[t])
  {
    if s.scans[t].pc.Over? {
      steps := [];
    } else {
      var step := WayOut(t, s.scans[t].pc);
      WayOutIsOpen(s, t);
      var rest := CancelledScanEnds(Next(s, step), t);
      RunCons(s, step, rest);
      steps := [step] + rest;
    }
  }

  // ---- all scans together ---------------------------------------------------------------------------------

  function RankSum(scans: seq<Scan>): nat {
    if scans == [] then 0 else RankSum(Front(scans)) + Rank(Last(scans))
  }

  lemma {:induction false} RankSumUpdate(scans: seq<Scan>, t: nat, scan: Scan)
    requires t < |scans|
    ensures RankSum(scans[t := scan]) == RankSum(scans) - Rank(scans[t]) + Rank(scan)
  {
    var updated := scans[t := scan];
    if t == |scans| - 1 {
      assert Front(updated) == Front(scans);
    } else {
      RankSumUpdate(Front(scans), t, scan);
      assert Front(updated) == Front(scans)[t := scan];
    }
  }

  lemma {:induction false} RankSumSame(scans: seq<Scan>, after: seq<Scan>)
    requires |after| == |scans| && forall t :: 0 <= t < |scans| ==> after[t].pc == scans[t].pc
    ensures RankSum(after) == RankSum(scans)
  {
    if scans != [] { RankSumSame(Front(scans), Front(after)); }
  }

  /** What a step adds to do: a hit is to be shown, a new scan to be seen through. */
  function Load(s: System, step: Step): nat
    requires Enabled(s, step)
  {
    match step
    case Ask(_, _, _) => 5
    case Notice(t, advert) => if IsHit(advert, s.scans[t].filter) then 1 else 0
    case _ => 0
  }

  /** A step that takes a scan forward. */
  predicate Advances(step: Step) {
    !IsSessions(step) && !step.Notice?
  }

  function Advance(step: Step): nat {
    if Advances(step) then 1 else 0
  }

  lemma ScanStepSpends(s: System, step: Step)
    requires Enabled(s, step) && !IsSessions(step)
    ensures Advance(step) + RankSum(Next(s, step).scans) <= RankSum(s.scans) + Load(s, step)
  {
    var t, n := step.scan, Next(s, step);
    assert n.scans == s.scans[t := n.scans[t]];
    RankSumUpdate(s.scans, t, n.scans[t]);
  }

  lemma StepSpends(s: System, step: Step)
    requires Enabled(s, step)
    ensures Advance(step) + RankSum(Next(s, step).scans) <= RankSum(s.scans) + Load(s, step)
  {
    if step.Ask? {
      assert Front(Next(s, step).scans) == s.scans;
    } else if IsSessions(step) {
      RankSumSame(s.scans, Next(s, step).scans);
    } else {
      ScanStepSpends(s, step);
    }
  }

  ghost function Advancing(steps: seq<Step>): nat {
    if steps == [] then 0 else Advance(steps[0]) + Advancing(steps[1..])
  }

  ghost function Loads(s: System, steps: seq<Step>): nat
    requires IsRun(s, steps)
    decreases |steps|
  {
    if steps == [] then 0 else Load(s, steps[0]) + Loads(Next(s, steps[0]), steps[1..])
  }

  /** Over any run the scans take no more steps forward than their rank, five for each new scan and one for each hit;
      so only hits can keep them from standing still. */
  lemma {:induction false} ScansAdvanceBoundedly(s: System, steps: seq<Step>)
    requires IsRun(s, steps)
    ensures Advancing(steps) + RankSum(Final(s, steps).scans) <= RankSum(s.scans) + Loads(s, steps)
    decreases |steps|
  {
    if steps != [] {
      StepSpends(s, steps[0]);
      ScansAdvanceBoundedly(Next(s, steps[0]), steps[1..]);
    }
  }

  // ---- at rest --------------------------------------------------------------------------------------------

  /** Nothing can happen but what browsers ask for and what the adapter does unprompted. */
  ghost predicate IsAtRest(s: System) {
    forall step :: Enabled(s, step) ==> IsSessions(step) || IsUnprompted(step)
  }

  /** At rest a scan listens on, uncancelled, or is over. */
  lemma RestingScans(s: System, t: nat)
    requires IsAtRest(s) && t < |s.scans|
    ensures s.scans[t].pc.Over? || (s.scans[t].pc.Scanning? && !s.scans[t].cancelled)
  {
    if !s.scans[t].pc.Over? && (s.scans[t].cancelled || !s.scans[t].pc.Scanning?) {
      assert Enabled(s, WayOut(t, s.scans[t].pc));
    }
  }

  // ---- a browser's cancel ---------------------------------------------------------------------------------

  lemma {:induction false} NotPendingLasts(s: System, steps: seq<Step>, t: nat)
    requires IsRun(s, steps) && t < |s.scans| && !Pending(s.scans[t])
    ensures t < |Final(s, steps).scans| && !Pending(Final(s, steps).scans[t])
    decreases |steps|
  {
    if steps != [] {
      StepKeepsSettled(s, steps[0], t);
      NotPendingLasts(Next(s, steps[0]), steps[1..], t);
    }
  }

  lemma StepKeepsSettled(s: System, step: Step, t: nat)
    requires Enabled(s, step) && t < |s.scans| && !Pending(s.scans[t])
    ensures t < |Next(s, step).scans| && !Pending(Next(s, step).scans[t])
  {
  }

  /** Over any run in which pending ids are not reused: a cancel tells the scan under its id to stop and no other; and
      from then on that scan is at rest only when it is over, with its one terminal said. */
  lemma CancelStopsItsScan(before: seq<Step>, session: nat, id: string, after: seq<Step>, t: nat)
    requires IsRun(Idle(), before) && UsesIdleIds(Idle(), before)
    requires IsRun(Next(Final(Idle(), before), Cancel(session, id)), after)
    ensures var s := Final(Idle(), before);
      var n := Next(s, Cancel(session, id));
      && CancelsOne(s, n, session, id)
      && (t < |s.scans| && IsFrom(s.scans[t], session, id) ==> StopsBy(Final(n, after), t))
  {
    var s := Final(Idle(), before);
    var n := Next(s, Cancel(session, id));
    RunIsOk(Idle(), before);
    RunKeepsReachable(Idle(), before);
    CancelReachesItsScan(s, session, id);
    if t < |s.scans| && IsFrom(s.scans[t], session, id) {
      StepIsOk(s, Cancel(session, id));
      RunIsOk(n, after);
      NotPendingLasts(n, after, t);
      if IsAtRest(Final(n, after)) { RestingScans(Final(n, after), t); }
      OkMeetsContract(Final(n, after).scans[t], Final(n, after).radio.discovered);
    }
  }

  /** The scan is over or told to stop; at rest it is over, having said its terminal. */
  ghost predicate StopsBy(s: System, t: nat) {
    && t < |s.scans| && !Pending(s.scans[t]) && ScanContract(s.scans[t], s.radio.discovered)
    && (IsAtRest(s) ==> s.scans[t].pc.Over?)
  }

  // ---- when every browser has gone ------------------------------------------------------------------------

  lemma {:induction false} RunSplit(s: System, steps: seq<Step>, k: nat)
    requires IsRun(s, steps) && k <= |steps|
    ensures IsRun(s, steps[..k]) && IsRun(Final(s, steps[..k]), steps[k..])
    ensures Final(Final(s, steps[..k]), steps[k..]) == Final(s, steps)
    ensures UsesIdleIds(s, steps) ==> UsesIdleIds(s, steps[..k])
    decreases k
  {
    if k == 0 {
      assert steps[..0] == [] && steps[0..] == steps;
    } else {
      RunSplit(Next(s, steps[0]), steps[1..], k - 1);
      assert steps[..k] == [steps[0]] + steps[1..][..k - 1];
      RunCons(s, steps[0], steps[1..][..k - 1]);
      assert steps[..k][1..] == steps[1..][..k - 1] && steps[1..][k - 1..] == steps[k..];
    }
  }

  /** The session is torn down at step `k` and asks for nothing later. */
  ghost predicate GoesAt(steps: seq<Step>, session: nat, k: nat) {
    k < |steps| && steps[k] == TearDown(session)
    && forall step :: step in steps[k + 1..] ==> !(step.Ask? && step.session == session)
  }

  ghost predicate IsGone(steps: seq<Step>, session: nat) {
    exists k: nat :: GoesAt(steps, session, k)
  }

  lemma GoneIsSilent(steps: seq<Step>, session: nat)
    requires IsRun(Idle(), steps) && UsesIdleIds(Idle(), steps) && IsGone(steps, session)
    ensures NonePending(Final(Idle(), steps), session)
  {
    var k: nat :| GoesAt(steps, session, k);
    RunSplit(Idle(), steps, k);
    assert steps[k..][0] == TearDown(session) && steps[k..][1..] == steps[k + 1..];
    TeardownSilencesTheSession(steps[..k], session, steps[k + 1..]);
  }

  /** After its session has gone, a scan is at rest only when it is over; then it has said its one terminal last, and has
      released its generation once if it ran. */
  lemma GoneScansEnd(steps: seq<Step>, session: nat, t: nat)
    requires IsRun(Idle(), steps) && UsesIdleIds(Idle(), steps) && IsGone(steps, session)
    ensures var s := Final(Idle(), steps);
      t < |s.scans| && s.scans[t].session == session && IsAtRest(s) ==>
        s.scans[t].pc.Over? && ScanContract(s.scans[t], s.radio.discovered)
  {
    var s := Final(Idle(), steps);
    GoneIsSilent(steps, session);
    if t < |s.scans| && IsAtRest(s) {
      RestingScans(s, t);
      EveryScanKeepsItsContract(steps, [], t);
    }
  }

  lemma {:induction false} ScansWereAsked(s: System, steps: seq<Step>, t: nat)
    requires IsRun(s, steps) && |s.scans| <= t < |Final(s, steps).scans|
    ensures exists step :: step in steps && step.Ask? && step.session == Final(s, steps).scans[t].session
    decreases |steps|
  {
    if steps != [] {
      var n := Next(s, steps[0]);
      assert steps[0] in steps && forall step :: step in steps[1..] ==> step in steps;
      if t < |n.scans| {
        assert steps[0].Ask? && n.scans[t].session == steps[0].session;
        OriginsLast(n, steps[1..], t);
      } else {
        ScansWereAsked(n, steps[1..], t);
      }
    }
  }

  /** Every session that ever asked for a scan has gone. */
  ghost predicate AllGone(steps: seq<Step>) {
    forall step :: step in steps && step.Ask? ==> IsGone(steps, step.session)
  }

  ghost predicate AllOver(s: System) {
    forall t: nat :: t < |s.scans| ==> s.scans[t].pc.Over? && ScanContract(s.scans[t], s.radio.discovered)
  }

  /** When every browser has gone and nothing but the adapter's own doing is left to happen, every scan of every session
      is over with its terminal said, and an adapter that has obeyed is idle. */
  lemma GoneSessionsLeaveNothing(steps: seq<Step>)
    requires IsRun(Idle(), steps) && UsesIdleIds(Idle(), steps) && AllGone(steps)
    ensures IsAtRest(Final(Idle(), steps)) ==> AllOver(Final(Idle(), steps))
    ensures IsAtRest(Final(Idle(), steps)) && (forall step :: step in steps ==> AdapterObeys(step)) ==>
      Final(Idle(), steps).radio.scanning.None?
  {
    var s := Final(Idle(), steps);
    if IsAtRest(s) {
      forall t: nat | t < |s.scans| ensures s.scans[t].pc.Over? && ScanContract(s.scans[t], s.radio.discovered) {
        ScansWereAsked(Idle(), steps, t);
        GoneScansEnd(steps, s.scans[t].session, t);
      }
      if forall step :: step in steps ==> AdapterObeys(step) { NoScanMeansIdle(steps); }
    }
  }
}
