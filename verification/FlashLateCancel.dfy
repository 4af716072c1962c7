/** A cancel that comes after its request was decided changes nothing that anyone can see: the session with the token
    fired and the session without it can make the same steps for ever after, and send the same frames. */
module FlashLateCancel {
  import opened Protocol
  import opened Pumps
  import opened Tasks
  import opened FlashSession
  import opened FlashBookkeeping

  /** The task will not look at its token again: its stream has decided the request. */
  predicate PastCaring(t: Task) {
    Settled(t) || t.pc.Reiniting? || (t.pc.Holding? && t.pc.last)
  }

  /** The same session with one token fired. */
  function Spared(d: Desk, tid: nat): Desk
    requires tid < |d.tasks|
  {
    d.(tasks := d.tasks[tid := Fired(d.tasks[tid])])
  }

  /** `e` is `d` but for the token of a task that no longer cares. */
  predicate Twins(d: Desk, e: Desk, tid: nat) {
    tid < |d.tasks| && PastCaring(d.tasks[tid]) && e == Spared(d, tid)
  }

  lemma LateMove(t: Task, m: Move)
    requires PastCaring(t)
    ensures CanMove(t, m) <==> CanMove(Fired(t), m)
    ensures CanMove(t, m) ==> PastCaring(Moved(t, m)) && Moved(Fired(t), m) == Fired(Moved(t, m))
  {
  }

  lemma TwinsSettle(d: Desk, id: string, decision: Decision, tid: nat)
    requires tid < |d.tasks| && PastCaring(d.tasks[tid])
    ensures Twins(Settle(d, id, decision), Settle(Spared(d, tid), id, decision), tid)
  {
    match decision
    case Launch(kind, events) =>
      var task := Spawned(id, kind, events);
      assert d.tasks[tid := Fired(d.tasks[tid])] + [task] == (d.tasks + [task])[tid := Fired(d.tasks[tid])];
    case Fire =>
      assert Settle(Spared(d, tid), id, decision).tasks == Spared(Settle(d, id, decision), tid).tasks;
    case _ =>
  }

  lemma TwinsAsk(d: Desk, id: string, req: Request, tid: nat)
    requires tid < |d.tasks| && PastCaring(d.tasks[tid]) && d.reader.Reading?
    ensures Twins(Acted(d, Ask(id, req)), Acted(Spared(d, tid), Ask(id, req)), tid)
  {
    assert Dispatch(Spared(d, tid), id, req) == Dispatch(d, id, req);
    assert Noted(Spared(d, tid), id, req) == Spared(Noted(d, id, req), tid);
    TwinsSettle(Noted(d, id, req), id, Dispatch(d, id, req), tid);
  }

  lemma TwinsMove(d: Desk, t: nat, m: Move, tid: nat)
    requires tid < |d.tasks| && PastCaring(d.tasks[tid])
    ensures Can(d, TaskMove(t, m)) <==> Can(Spared(d, tid), TaskMove(t, m))
    ensures Can(d, TaskMove(t, m)) ==> Twins(Acted(d, TaskMove(t, m)), Acted(Spared(d, tid), TaskMove(t, m)), tid)
  {
    if t == tid { LateMove(d.tasks[tid], m); }
    if Can(d, TaskMove(t, m)) {
      assert Acted(Spared(d, tid), TaskMove(t, m)).tasks == Spared(Acted(d, TaskMove(t, m)), tid).tasks;
    }
  }

  lemma TwinsLeave(d: Desk, t: nat, tid: nat)
    requires tid < |d.tasks| && PastCaring(d.tasks[tid]) && t < |d.tasks|
    ensures Twins(Left(d, t), Left(Spared(d, tid), t), tid)
  {
    assert Left(Spared(d, tid), t).tasks == Spared(Left(d, t), tid).tasks;
  }

  lemma TwinsDrain(d: Desk, tid: nat)
    requires tid < |d.tasks| && PastCaring(d.tasks[tid]) && d.reader.Draining?
    ensures Twins(Acted(d, Drain), Acted(Spared(d, tid), Drain), tid)
  {
    assert Acted(Spared(d, tid), Drain).tasks == Spared(Acted(d, Drain), tid).tasks;
  }

  lemma TwinsQuiet(d: Desk, act: Act, tid: nat)
    requires tid < |d.tasks| && PastCaring(d.tasks[tid]) && LeavesTasks(act) && Can(d, act)
    ensures Can(Spared(d, tid), act) && Twins(Acted(d, act), Acted(Spared(d, tid), act), tid)
  {
  }

  lemma TwinsAct(d: Desk, act: Act, tid: nat)
    requires tid < |d.tasks| && PastCaring(d.tasks[tid])
    ensures Can(d, act) <==> Can(Spared(d, tid), act)
    ensures Can(d, act) ==> Twins(Acted(d, act), Acted(Spared(d, tid), act), tid)
  {
    match act
    case TaskMove(t, m) => TwinsMove(d, t, m, tid);
    case Ask(id, req) => if d.reader.Reading? { TwinsAsk(d, id, req, tid); }
    case TaskLeave(t) => if Can(d, act) { TwinsLeave(d, t, tid); }
    case Drain => if Can(d, act) { TwinsDrain(d, tid); }
    case _ => if Can(d, act) { TwinsQuiet(d, act, tid); }
  }

  lemma TwinsSay(d: Desk, who: Speaker, tid: nat)
    requires tid < |d.tasks| && PastCaring(d.tasks[tid])
    ensures HasToSay(d, who) <==> HasToSay(Spared(d, tid), who)
    ensures HasToSay(d, who) ==> Utterance(d, who) == Utterance(Spared(d, tid), who)
    ensures HasToSay(d, who) ==> Twins(AfterSaying(d, who), AfterSaying(Spared(d, tid), who), tid)
  {
    if HasToSay(d, who) && who.TaskNo? {
      assert AfterSaying(Spared(d, tid), who).tasks == Spared(AfterSaying(d, who), tid).tasks;
    }
  }

  lemma TwinsSenders(d: Desk, tid: nat)
    requires tid < |d.tasks|
    ensures NoSenders(d) <==> NoSenders(Spared(d, tid))
  {
    var e := Spared(d, tid);
    assert forall t :: 0 <= t < |d.tasks| ==> d.tasks[t].pc == e.tasks[t].pc;
  }

  /** The twins can make the same steps, and stay twins. */
  lemma TwinsStep(s: State, step: Step, tid: nat)
    requires tid < |s.desk.tasks| && PastCaring(s.desk.tasks[tid])
    ensures var e := s.(desk := Spared(s.desk, tid));
      && (Enabled(s, step) <==> Enabled(e, step))
      && (Enabled(s, step) ==> Next(s, step).wire == Next(e, step).wire && Twins(Next(s, step).desk, Next(e, step).desk, tid))
  {
    match step
    case Do(act) => TwinsAct(s.desk, act, tid);
    case Say(who) => TwinsSay(s.desk, who, tid);
    case WriterTurn(now) => TwinsSenders(s.desk, tid);
  }

  lemma {:induction false} TwinsRun(s: State, steps: seq<Step>, tid: nat)
    requires tid < |s.desk.tasks| && PastCaring(s.desk.tasks[tid])
    ensures var e := s.(desk := Spared(s.desk, tid));
      && (IsRun(s, steps) <==> IsRun(e, steps))
      && (IsRun(s, steps) ==>
            Final(s, steps).wire == Final(e, steps).wire && Twins(Final(s, steps).desk, Final(e, steps).desk, tid))
    decreases |steps|
  {
    if steps != [] {
      TwinsStep(s, steps[0], tid);
      if Enabled(s, steps[0]) {
        TwinsRun(Next(s, steps[0]), steps[1..], tid);
      }
    }
  }

  /** Whatever happens next, a cancel for an id whose task is decided (or gone, or was never there) leaves the wire
      just as it would have been, and the session able to do just what it could have done. */
  lemma LateCancelIsInvisible(s: State, id: string, steps: seq<Step>)
    requires FlightOk(s.desk) && s.desk.reader.Reading?
    requires forall t :: 0 <= t < |s.desk.tasks| && s.desk.tasks[t].id == id ==> PastCaring(s.desk.tasks[t])
    ensures var e := Next(s, Do(Ask(id, Cancel)));
      && (IsRun(s, steps) <==> IsRun(e, steps))
      && (IsRun(s, steps) ==> Final(s, steps).wire == Final(e, steps).wire)
  {
    var d := s.desk;
    assert Next(s, Do(Ask(id, Cancel))).desk == FireToken(d, id);
    if id in d.inFlight {
      assert d.tasks[d.inFlight[id]].id == id;
      TwinsRun(s, steps, d.inFlight[id]);
    }
  }
}
