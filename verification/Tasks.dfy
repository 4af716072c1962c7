/** One spawned compile, upload, flash or install, one await at a time (src/service/arduino/bridge.rs). */
module Tasks {
  import opened Protocol
  import opened Conversation
  import opened Frames
  import opened Pumps

  /** Where the task stands. Starting: before its stream exists. Selecting: at the head of the select. Polled: the
      token was looked at and found unset, the stream is awaited. Holding: a response waits for room in the channel.
      Ended: the terminal is out, the token still registered. Gone: deregistered and dropped. */
  datatype Pc = Starting | Selecting | Polled | Reiniting | Holding(body: Body, last: bool) | Ended | Gone

  /** How the request was decided: not yet, before any stream existed, or as a pump cut off at a certain poll. */
  datatype Cut = Undecided | NeverStarted(code: Code, detail: string) | Decided(cancelAt: nat, reinit: Reinit)

  /** `events` is the whole translated stream the daemon will offer and `next` how much of it was taken;
      `cancelled` is the token; `said` and `cut` record the past. */
  datatype Task = Task(id: string, kind: Kind, events: seq<Event>, next: nat, cancelled: bool, pc: Pc, said: seq<Body>, cut: Cut)

  function Spawned(id: string, kind: Kind, events: seq<Event>): Task {
    Task(id, kind, events, 0, false, Starting, [], Undecided)
  }

  datatype Move =
    | StartOk
    | StartErr(code: Code, detail: string)
    | Poll
    | Ready
    | Wake
    | ReinitDone(reinit: Reinit)

  predicate CanMove(t: Task, m: Move) {
    match m
    case StartOk => t.pc.Starting?
    case StartErr(_, _) => t.pc.Starting?
    case Poll => t.pc.Selecting?
    case Ready => t.pc.Polled?
    case Wake => t.pc.Polled? && t.cancelled
    case ReinitDone(_) => t.pc.Reiniting? && t.next > 0 && t.next <= |t.events| && t.events[t.next - 1].Finished?
  }

  /** What happens between two awaits. */
  function Moved(t: Task, m: Move): Task
    requires CanMove(t, m)
  {
    match m
    case StartOk => t.(pc := Selecting)
    case StartErr(code, detail) => t.(pc := Holding(Failure(code, detail), true), cut := NeverStarted(code, detail))
    case Poll =>
      if t.cancelled then t.(pc := Holding(CANCELLED, true), cut := Decided(t.next, Reinit.Ready)) else t.(pc := Polled)
    case Wake => t.(pc := Selecting)
    case Ready =>
      if t.next >= |t.events| then t.(pc := Holding(EndOfStream(t.kind), true), cut := Decided(t.next + 1, Reinit.Ready))
      else
        var took := t.(next := t.next + 1);
        (match t.events[t.next]
         case Line(chunk) => took.(pc := Holding(Log(chunk), false))
         case Stage(phase, percent) => took.(pc := Holding(Progress(phase, percent), false))
         case Failed(code, detail) => took.(pc := Holding(Failure(code, detail), true), cut := Decided(took.next, Reinit.Ready))
         case Finished(payload) =>
           if t.kind.Install? then took.(pc := Reiniting)
           else took.(pc := Holding(Result(payload), true), cut := Decided(took.next, Reinit.Ready)))
    case ReinitDone(reinit) =>
      var body := match reinit
        case Ready => Result(t.events[t.next - 1].payload)
        case Broke(code, detail) => Failure(code, detail);
      t.(pc := Holding(body, true), cut := Decided(t.next, reinit))
  }

  /** The held response goes into the channel (or is dropped because the channel is gone). */
  function Spoken(t: Task): Task
    requires t.pc.Holding?
  {
    t.(said := t.said + [t.pc.body], pc := if t.pc.last then Ended else Selecting)
  }

  function Fired(t: Task): Task {
    t.(cancelled := true)
  }

  /** The task is no longer going to say anything. */
  predicate Settled(t: Task) {
    t.pc.Ended? || t.pc.Gone?
  }

  /** `out` is all that the decided request has to say. */
  ghost predicate IsWhole(t: Task, out: seq<Body>) {
    match t.cut
    case Undecided => false
    case NeverStarted(code, detail) => out == [Failure(code, detail)]
    case Decided(cancelAt, reinit) => out == Outcome(t.kind, t.events, cancelAt, reinit)
  }

  /** A request is decided as cancelled only if its token is set. */
  ghost predicate CutIsMeant(t: Task) {
    t.cut.Decided? && t.cut.cancelAt <= Decisive(t.events) ==> t.cancelled
  }

  /** What the task has said so far agrees with the pump's specification. */
  ghost predicate TaskOk(t: Task) {
    CutIsMeant(t) && SaidOk(t)
  }

  ghost predicate SaidOk(t: Task) {
    var k := Decisive(t.events);
    match t.pc
    case Starting => t.next == 0 && t.said == [] && t.cut.Undecided?
    case Selecting => t.next <= k && t.said == Forward(t.events[..t.next]) && t.cut.Undecided?
    case Polled => t.next <= k && t.said == Forward(t.events[..t.next]) && t.cut.Undecided?
    case Reiniting =>
      && t.kind.Install? && t.next == k + 1 <= |t.events| && t.events[k].Finished?
      && t.said == Forward(t.events[..k]) && t.cut.Undecided?
    case Holding(body, last) =>
      if last then IsWhole(t, t.said + [body]) && IsTerminal(body)
      else
        && 0 < t.next <= k && t.said == Forward(t.events[..t.next - 1])
        && body == Forwarded(t.events[t.next - 1]) && t.cut.Undecided?
    case Ended => IsWhole(t, t.said)
    case Gone => IsWhole(t, t.said)
  }

  lemma MoveIsOk(t: Task, m: Move)
    requires TaskOk(t) && CanMove(t, m)
    ensures TaskOk(Moved(t, m))
  {
    if m.Ready? {
      ReadyIsOk(t);
    } else if m.ReinitDone? {
      DecidedAt(t.kind, t.events, t.next - 1, t.next, m.reinit);
    }
  }

  lemma ReadyIsOk(t: Task)
    requires TaskOk(t) && CanMove(t, Move.Ready)
    ensures TaskOk(Moved(t, Move.Ready))
  {
    if t.next >= |t.events| || Decides(t.events[t.next]) {
      DecidedAt(t.kind, t.events, t.next, t.next + 1, Reinit.Ready);
    }
  }

  lemma SpokenIsOk(t: Task)
    requires TaskOk(t) && t.pc.Holding?
    ensures TaskOk(Spoken(t))
    ensures t.pc.last ==> IsTerminal(t.pc.body)
    ensures !t.pc.last ==> IsStreamed(t.pc.body)
  {
    if !t.pc.last {
      assert t.events[..t.next - 1] + [t.events[t.next - 1]] == t.events[..t.next];
    }
  }

  lemma FiredIsOk(t: Task)
    requires TaskOk(t)
    ensures TaskOk(Fired(t))
  {
  }

  /** `out` is what the stream alone brings about: its events up to the deciding one, then what that one earns. */
  ghost predicate IsPlain(t: Task, out: seq<Body>) {
    || (t.cut.NeverStarted? && out == [Failure(t.cut.code, t.cut.detail)])
    || (t.cut.Decided? && out == Outcome(t.kind, t.events, |t.events| + 1, t.cut.reinit))
  }

  /** `out` is all a decided request is to be told, in plain words: why its stream never started, or what its stream
      brought about, up to the poll that saw its token. */
  ghost predicate IsTold(t: Task, out: seq<Body>) {
    match t.cut
    case Undecided => false
    case NeverStarted(code, detail) => |out| == 1 && Reports(out[0], code, detail)
    case Decided(cancelAt, reinit) => Tells(t.kind, t.events, cancelAt, reinit, out)
  }

  lemma WholeIsTold(t: Task, out: seq<Body>)
    requires IsWhole(t, out)
    ensures IsTold(t, out)
  {
    match t.cut
    case NeverStarted(code, detail) => FailureReports(code, detail);
    case Decided(cancelAt, reinit) => OutcomeTells(t.kind, t.events, cancelAt, reinit);
  }

  /** The same without any cancellation: why its stream never started, or all that its stream brought about. */
  ghost predicate IsToldPlainly(t: Task, out: seq<Body>) {
    match t.cut
    case Undecided => false
    case NeverStarted(code, detail) => |out| == 1 && Reports(out[0], code, detail)
    case Decided(_, reinit) => Tells(t.kind, t.events, |t.events| + 1, reinit, out)
  }

  /** A request whose token was never set is answered as if cancelling did not exist. */
  lemma UncancelledIsPlain(t: Task)
    requires TaskOk(t) && Settled(t) && !t.cancelled
    ensures IsPlain(t, t.said) && IsToldPlainly(t, t.said)
  {
    if t.cut.NeverStarted? { FailureReports(t.cut.code, t.cut.detail); }
    if t.cut.Decided? {
      OutcomeTells(t.kind, t.events, |t.events| + 1, t.cut.reinit);
      var k := Decisive(t.events);
      assert k < t.cut.cancelAt && k < |t.events| + 1;
    }
  }

  /** A decided request has been answered, once and last. */
  lemma WholeIsAnswered(t: Task, out: seq<Body>)
    requires IsWhole(t, out)
    ensures OneTerminalLast(out)
  {
    if t.cut.Decided? {
      OutcomeIsAnswered(t.kind, t.events, t.cut.cancelAt, t.cut.reinit);
    }
  }

  /** What the phase of the task's id can be while the task stands where it does. */
  lemma TaskPhase(t: Task)
    requires TaskOk(t)
    ensures Settled(t) ==> PhaseOf(t.said) in {Answered, Refused, Replied, Phase.Failed}
    ensures !Settled(t) ==> PhaseOf(t.said) in {Silent, Streaming}
  {
    if Settled(t) {
      WholeIsAnswered(t, t.said);
      PhaseSettled(t.said);
    } else {
      PhaseStreaming(t.said);
      if t.pc.Holding? && t.pc.last {
        WholeIsAnswered(t, t.said + [t.pc.body]);
        assert forall i :: 0 <= i < |t.said| ==> t.said[i] == (t.said + [t.pc.body])[i];
      }
    }
  }

  // ---- after the token fires ------------------------------------------------------------------------------

  /** How many more responses a cancelled task may send. */
  function Room(t: Task): nat {
    match t.pc
    case Starting => 1
    case Selecting => 1
    case Polled => 2
    case Reiniting => 1
    case Holding(_, last) => if last then 1 else 2
    case Ended => 0
    case Gone => 0
  }

  lemma MoveKeepsRoom(t: Task, m: Move)
    requires t.cancelled && CanMove(t, m)
    ensures Moved(t, m).cancelled && Moved(t, m).said == t.said && Room(Moved(t, m)) <= Room(t)
  {
  }

  /** A token that is set when the select is polled decides the request there and then, whatever the stream holds. */
  lemma CancelWinsThePoll(t: Task)
    requires TaskOk(t) && t.pc.Selecting? && t.cancelled
    ensures forall m :: CanMove(t, m) ==> m == Poll
    ensures Spoken(Moved(t, Poll)).said == Outcome(t.kind, t.events, t.next, Reinit.Ready)
    ensures Last(Spoken(Moved(t, Poll)).said) == CANCELLED
  {
    MoveIsOk(t, Poll);
  }

  /** An install that has seen its Done reports how the reinit came out, cancelled or not. */
  lemma ReinitIsReported(t: Task, reinit: Reinit)
    requires TaskOk(t) && t.pc.Reiniting?
    ensures forall m :: CanMove(t, m) ==> m.ReinitDone?
    ensures CanMove(t, ReinitDone(reinit))
    ensures Spoken(Moved(t, ReinitDone(reinit))).said == Outcome(t.kind, t.events, Decisive(t.events) + 1, reinit)
    ensures Last(Spoken(Moved(t, ReinitDone(reinit))).said).Result? <==> reinit.Ready?
  {
    MoveIsOk(t, ReinitDone(reinit));
  }

  // ---- progress -------------------------------------------------------------------------------------------

  /** A bound on the steps a task still has in it. A fired token never raises it. */
  function Rank(t: Task): nat {
    var left := if t.next <= |t.events| then |t.events| - t.next else 0;
    match t.pc
    case Starting => 8 * left + 7
    case Selecting => 8 * left + if t.cancelled then 4 else 6
    case Polled => 8 * left + 5
    case Reiniting => 4
    case Holding(_, last) => if last then 3 else 8 * left + 7
    case Ended => 2
    case Gone => 0
  }

  lemma MoveLowersRank(t: Task, m: Move)
    requires CanMove(t, m)
    ensures Rank(Moved(t, m)) < Rank(t)
  {
  }

  lemma FiredKeepsRank(t: Task)
    ensures Rank(Fired(t)) <= Rank(t)
  {
  }
}
