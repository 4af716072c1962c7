/** What a reused request id does to the token map, and what it takes to reuse one safely. */
module FlashReuse {
  import opened Protocol
  import opened Frames
  import opened Pumps
  import opened Tasks
  import opened FlashSession
  import opened FlashBookkeeping

  function CompileAsked(): Step {
    Do(Ask("1", CompileSketch(None, None, [])))
  }

  function SketchFails(): Step {
    Do(TaskMove(0, StartErr(Io, "disk full")))
  }

  function Refusal(): Body {
    Failure(Io, "disk full")
  }

  /** The only task so far, at `pc`. */
  function FirstTask(pc: Pc): Task {
    var t := Spawned("1", Compile, []);
    if pc.Starting? then t
    else t.(pc := pc, cut := NeverStarted(Io, "disk full"), said := if pc.Holding? then [] else [Refusal()])
  }

  function OneTask(pc: Pc): Desk {
    FreshDesk().(asked := map["1" := Spawner], inFlight := map["1" := 0], taskOf := map["1" := 0], tasks := [FirstTask(pc)],
                 scratch := Scratch(1, 0, {TheSession, TheTask(0)}))
  }

  lemma FirstIsSpawned(accepts: nat)
    ensures Enabled(Fresh(accepts), CompileAsked())
    ensures Next(Fresh(accepts), CompileAsked()) == State(OneTask(Starting), Fresh(accepts).wire)
  {
  }

  lemma FirstFails(wire: Wire)
    ensures Enabled(State(OneTask(Starting), wire), SketchFails())
    ensures Next(State(OneTask(Starting), wire), SketchFails()) == State(OneTask(Holding(Refusal(), true)), wire)
  {
  }

  lemma FirstIsAnswered(wire: Wire)
    requires CanOffer(wire)
    ensures Enabled(State(OneTask(Holding(Refusal(), true)), wire), Say(TaskNo(0)))
    ensures Next(State(OneTask(Holding(Refusal(), true)), wire), Say(TaskNo(0)))
      == State(OneTask(Ended), Offered(wire, Response("1", Refusal())))
  {
    assert [] + [Refusal()] == [Refusal()];
  }

  lemma AnswerGoesOut(accepts: nat)
    requires accepts > 0
    ensures var s := State(OneTask(Ended), Offered(Fresh(accepts).wire, Response("1", Refusal())));
      Enabled(s, WriterTurn(0)) && Next(s, WriterTurn(0)).desk == s.desk
      && Next(s, WriterTurn(0)).wire.writer.sent == [Response("1", Refusal())]
  {
  }

  /** A compile that cannot write its sketch; its error goes out; the browser, having seen it, uses the id again before
      the first task has got round to deregistering. */
  function ReusingRun(): seq<Step> {
    [CompileAsked()] + ([SketchFails()] + ([Say(TaskNo(0))] + ([WriterTurn(0)] + ReusedRun())))
  }

  function ReusedRun(): seq<Step> {
    [CompileAsked()] + ([Do(TaskLeave(0))] + [])
  }

  /** The second task runs under its id, but its token is gone, and a cancel changes nothing at all. */
  ghost predicate LostItsToken(s: State) {
    && |s.desk.tasks| == 2 && s.desk.tasks[1].id == "1" && IsLive(s.desk.tasks[1]) && "1" !in s.desk.inFlight
    && Enabled(s, Do(Ask("1", Cancel))) && Next(s, Do(Ask("1", Cancel))) == s
  }

  lemma ReusedTokenIsLost(wire: Wire)
    ensures var s := State(OneTask(Ended), wire);
      IsRun(s, ReusedRun()) && LostItsToken(Final(s, ReusedRun())) && Final(s, ReusedRun()).wire == wire
  {
    var s := State(OneTask(Ended), wire);
    var n := Next(s, CompileAsked());
    var last := Next(n, Do(TaskLeave(0)));
    assert last.desk.inFlight == map[];
    RunCons(n, Do(TaskLeave(0)), []);
    RunCons(s, CompileAsked(), [Do(TaskLeave(0))] + []);
  }

  /** Reusing an id is unsafe even after its reply has reached the browser. */
  lemma ReuseLosesAToken(accepts: nat)
    requires accepts > 0
    ensures IsRun(Fresh(accepts), ReusingRun())
    ensures var s := Final(Fresh(accepts), ReusingRun());
      LostItsToken(s) && s.wire.writer.sent == [Response("1", Refusal())]
  {
    var wire := Fresh(accepts).wire;
    var told := Offered(wire, Response("1", Refusal()));
    FirstIsSpawned(accepts);
    FirstFails(wire);
    FirstIsAnswered(wire);
    AnswerGoesOut(accepts);
    ReusedTokenIsLost(Next(State(OneTask(Ended), told), WriterTurn(0)).wire);
    RunCons(State(OneTask(Ended), told), WriterTurn(0), ReusedRun());
    RunCons(State(OneTask(Holding(Refusal(), true)), wire), Say(TaskNo(0)), [WriterTurn(0)] + ReusedRun());
    RunCons(State(OneTask(Starting), wire), SketchFails(), [Say(TaskNo(0))] + ([WriterTurn(0)] + ReusedRun()));
    RunCons(Fresh(accepts), CompileAsked(), [SketchFails()] + ([Say(TaskNo(0))] + ([WriterTurn(0)] + ReusedRun())));
  }

  // ---- the exact condition --------------------------------------------------------------------------------

  lemma AskAgreesIffIdle(d: Desk, id: string, req: Request)
    requires FlightOk(d) && d.reader.Reading?
    ensures FlightOk(Acted(d, Ask(id, req))) <==> UsesIdleId(d, Ask(id, req))
  {
    if UsesIdleId(d, Ask(id, req)) {
      ActKeepsFlight(d, Ask(id, req));
    } else {
      var decision := Dispatch(d, id, req);
      var before := Noted(d, id, req);
      var ready := if decision.kind.Compile? then before.(scratch := EnsureScratch(before.scratch)) else before;
      SpawnAgreesIffIdIsIdle(ready, id, decision.kind, decision.events);
    }
  }

  /** One step keeps the token map in agreement with the running tasks exactly when it spawns nothing under the id of
      one of them. */
  lemma StepAgreesIffIdle(s: State, step: Step)
    requires FlightOk(s.desk) && Enabled(s, step)
    ensures FlightOk(Next(s, step).desk) <==> (step.Do? ==> UsesIdleId(s.desk, step.act))
  {
    match step
    case Do(act) => if act.Ask? { AskAgreesIffIdle(s.desk, act.id, act.req); } else { ActKeepsFlight(s.desk, act); }
    case Say(who) => SayKeepsFlight(s.desk, who);
    case WriterTurn(_) =>
  }

  /** Map and tasks agree in every state of the run. */
  ghost predicate AgreesThroughout(s: State, steps: seq<Step>)
    requires IsRun(s, steps)
    decreases |steps|
  {
    FlightOk(s.desk) && (steps != [] ==> AgreesThroughout(Next(s, steps[0]), steps[1..]))
  }

  /** No task is spawned under the id of one still running; otherwise ids may be used again. */
  ghost predicate UsesIdleIds(s: State, steps: seq<Step>)
    requires IsRun(s, steps)
    decreases |steps|
  {
    steps != [] ==> (steps[0].Do? ==> UsesIdleId(s.desk, steps[0].act)) && UsesIdleIds(Next(s, steps[0]), steps[1..])
  }

  lemma {:induction false} AgreesIffIdle(s: State, steps: seq<Step>)
    requires FlightOk(s.desk) && IsRun(s, steps)
    ensures AgreesThroughout(s, steps) <==> UsesIdleIds(s, steps)
    decreases |steps|
  {
    if steps != [] {
      StepAgreesIffIdle(s, steps[0]);
      if FlightOk(Next(s, steps[0]).desk) { AgreesIffIdle(Next(s, steps[0]), steps[1..]); }
    }
  }

  /** Over any run at all: the token map holds exactly the running tasks in every state (and after the drain none, all
      of them cancelled) if and only if no task is ever spawned under the id of one still running. */
  lemma TokensAgreeIffIdsAreIdle(accepts: nat, steps: seq<Step>)
    requires IsRun(Fresh(accepts), steps)
    ensures AgreesThroughout(Fresh(accepts), steps) <==> UsesIdleIds(Fresh(accepts), steps)
  {
    AgreesIffIdle(Fresh(accepts), steps);
  }
}
