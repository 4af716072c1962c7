/** Platform installs across every session of the helper: the daemon-wide install lock, and when an installed
    platform becomes visible to compiles (src/service/arduino/bridge.rs, src/service/arduino/daemon.rs). */
module Installs {
  import opened Protocol

  /** An install task holds the lock guard from its spawning to its end. Downloading: its stream runs. Done: the
      stream has reported success. Initing: `reinit` is under way, and the daemon has reloaded its data or not yet.
      Answering, Answered: the terminal is chosen, then sent. Released: the task is over and its guard dropped. */
  datatype JobPc = Downloading | Done | Initing(reloaded: bool) | Answering(ok: bool) | Answered(ok: bool) | Released

  datatype Job = Job(session: nat, id: string, platform: string, pc: JobPc)

  /** `disk` is what the daemon's data directory holds, `visible` what its instance has loaded, `promised` the
      platforms for which a `result` was sent, `refused` how many installs found the lock taken. */
  datatype System = System(owner: Option<nat>, jobs: seq<Job>, disk: set<string>, visible: set<string>,
                           promised: set<string>, refused: nat)

  /** A helper whose daemon has just run its first `Init` over the bundled platforms. */
  function Started(bundled: set<string>): System {
    System(None, [], bundled, bundled, {}, 0)
  }

  datatype Step =
    | Request(session: nat, id: string, platform: string)
    | Unpack(job: nat)
    | ReportDone(job: nat)
    | GiveUp(job: nat)
    | StartInit(job: nat)
    | Reload(job: nat)
    | InitOk(job: nat)
    | InitFailed(job: nat)
    | Answer(job: nat)
    | Leave(job: nat)

  predicate At(s: System, j: nat, pc: JobPc) {
    j < |s.jobs| && s.jobs[j].pc == pc
  }

  /** The daemon reports an install done only once its files are in place, and an `Init` done only after reloading. */
  predicate Enabled(s: System, step: Step) {
    match step
    case Request(_, _, _) => true
    case Unpack(j) => At(s, j, Downloading)
    case ReportDone(j) => At(s, j, Downloading) && s.jobs[j].platform in s.disk
    case GiveUp(j) => At(s, j, Downloading)
    case StartInit(j) => At(s, j, Done)
    case Reload(j) => j < |s.jobs| && s.jobs[j].pc.Initing?
    case InitOk(j) => At(s, j, Initing(true))
    case InitFailed(j) => j < |s.jobs| && s.jobs[j].pc.Initing?
    case Answer(j) => j < |s.jobs| && s.jobs[j].pc.Answering?
    case Leave(j) => j < |s.jobs| && s.jobs[j].pc.Answered?
  }

  function Put(s: System, j: nat, pc: JobPc): System
    requires j < |s.jobs|
  {
    s.(jobs := s.jobs[j := s.jobs[j].(pc := pc)])
  }

  function Next(s: System, step: Step): System
    requires Enabled(s, step)
  {
    match step
    case Request(session, id, platform) =>
      if s.owner.Some? then s.(refused := s.refused + 1)
      else s.(owner := Some(|s.jobs|), jobs := s.jobs + [Job(session, id, platform, Downloading)])
    case Unpack(j) => s.(disk := s.disk + {s.jobs[j].platform})
    case ReportDone(j) => Put(s, j, Done)
    case GiveUp(j) => Put(s, j, Answering(false))
    case StartInit(j) => Put(s, j, Initing(false))
    case Reload(j) => Put(s.(visible := s.disk), j, Initing(true))
    case InitOk(j) => Put(s, j, Answering(true))
    case InitFailed(j) => Put(s, j, Answering(false))
    case Answer(j) =>
      var t := Put(s, j, Answered(s.jobs[j].pc.ok));
      if s.jobs[j].pc.ok then t.(promised := s.promised + {s.jobs[j].platform}) else t
    case Leave(j) => Put(s, j, Released).(owner := None)
  }

  predicate IsLive(s: System, j: nat) {
    j < |s.jobs| && !s.jobs[j].pc.Released?
  }

  ghost predicate Ok(s: System) {
    && (s.owner.Some? ==> IsLive(s, s.owner.value))
    && (forall j: nat :: IsLive(s, j) ==> s.owner == Some(j))
    && s.promised <= s.visible <= s.disk
    && (forall j: nat :: j < |s.jobs| ==>
          match s.jobs[j].pc
          case Done => s.jobs[j].platform in s.disk
          case Initing(reloaded) => s.jobs[j].platform in s.disk && (reloaded ==> s.jobs[j].platform in s.visible)
          case Answering(ok) => ok ==> s.jobs[j].platform in s.visible
          case Answered(ok) => ok ==> s.jobs[j].platform in s.promised
          case _ => true)
  }

  lemma StepIsOk(s: System, step: Step)
    requires Ok(s) && Enabled(s, step)
    ensures Ok(Next(s, step)) && s.promised <= Next(s, step).promised && s.visible <= Next(s, step).visible
  {
    if step.Request? {
      var n := Next(s, step);
      assert forall j: nat :: j < |s.jobs| ==> n.jobs[j] == s.jobs[j];
    } else {
      JobStepIsOk(s, step);
    }
  }

  lemma JobStepIsOk(s: System, step: Step)
    requires Ok(s) && Enabled(s, step) && !step.Request?
    ensures Ok(Next(s, step)) && s.promised <= Next(s, step).promised && s.visible <= Next(s, step).visible
  {
    var n := Next(s, step);
    assert |n.jobs| == |s.jobs|;
    assert forall j: nat :: j < |s.jobs| && j != step.job ==> n.jobs[j] == s.jobs[j];
    assert IsLive(s, step.job);
    assert forall j: nat :: IsLive(n, j) ==> IsLive(s, j);
  }

  ghost predicate IsRun(s: System, steps: seq<Step>)
    decreases |steps|
  {
    steps == [] || (Enabled(s, steps[0]) && IsRun(Next(s, steps[0]), steps[1..]))
  }

  ghost function Final(s: System, steps: seq<Step>): System
    requires IsRun(s, steps)
    decreases |steps|
  {
    if steps == [] then s else Final(Next(s, steps[0]), steps[1..])
  }

  lemma {:induction false} RunSnoc(s: System, steps: seq<Step>, step: Step)
    requires IsRun(s, steps) && Enabled(Final(s, steps), step)
    ensures IsRun(s, steps + [step]) && Final(s, steps + [step]) == Next(Final(s, steps), step)
    decreases |steps|
  {
    if steps == [] {
      assert IsRun(Next(s, step), []);
      assert (steps + [step])[1..] == [];
    } else {
      RunSnoc(Next(s, steps[0]), steps[1..], step);
      assert (steps + [step])[1..] == steps[1..] + [step];
    }
  }

  lemma {:induction false} RunIsOk(s: System, steps: seq<Step>)
    requires Ok(s) && IsRun(s, steps)
    ensures Ok(Final(s, steps)) && s.promised <= Final(s, steps).promised && s.visible <= Final(s, steps).visible
    decreases |steps|
  {
    if steps != [] {
      StepIsOk(s, steps[0]);
      RunIsOk(Next(s, steps[0]), steps[1..]);
    }
  }

  /** Over every run, whatever the sessions ask for: at most one install task exists, it holds the lock until it is
      over, its terminal long sent, and a further request is refused exactly while one exists. */
  lemma InstallsAreSerialized(bundled: set<string>, steps: seq<Step>, session: nat, id: string, platform: string)
    requires IsRun(Started(bundled), steps)
    ensures var s := Final(Started(bundled), steps);
      && (forall i: nat, j: nat :: IsLive(s, i) && IsLive(s, j) ==> i == j)
      && (Next(s, Request(session, id, platform)).refused > s.refused <==> exists j: nat :: IsLive(s, j))
  {
    RunIsOk(Started(bundled), steps);
    var s := Final(Started(bundled), steps);
    if s.owner.Some? { assert IsLive(s, s.owner.value); }
  }

  /** Every platform whose install was answered with a `result` in `s` is visible to compiles in `later`. */
  ghost predicate ResultsVisible(s: System, later: System) {
    && s.promised <= later.visible
    && forall j: nat :: j < |s.jobs| && s.jobs[j].pc == Answered(true) ==> s.jobs[j].platform in later.visible
  }

  /** A `result` means visible: at that moment, and in every later state. */
  lemma ResultsAreVisible(bundled: set<string>, before: seq<Step>, after: seq<Step>)
    requires IsRun(Started(bundled), before) && IsRun(Final(Started(bundled), before), after)
    ensures var s := Final(Started(bundled), before);
      ResultsVisible(s, s) && ResultsVisible(s, Final(s, after))
  {
    RunIsOk(Started(bundled), before);
    RunIsOk(Final(Started(bundled), before), after);
  }

  // ---- what is installed ----------------------------------------------------------------------------------

  /** The installs asked for while none was running, in order, read off the steps. */
  ghost function Accepted(s: System, steps: seq<Step>): seq<(nat, string, string)>
    requires IsRun(s, steps)
    decreases |steps|
  {
    if steps == [] then [] else AcceptedBy(s, steps[0]) + Accepted(Next(s, steps[0]), steps[1..])
  }

  ghost function AcceptedBy(s: System, step: Step): seq<(nat, string, string)> {
    if step.Request? && forall j: nat :: !IsLive(s, j) then [(step.session, step.id, step.platform)] else []
  }

  /** The jobs are just these, in order, each for the platform asked for. */
  ghost predicate AreThese(jobs: seq<Job>, accepted: seq<(nat, string, string)>) {
    |jobs| == |accepted| && forall j :: 0 <= j < |jobs| ==> (jobs[j].session, jobs[j].id, jobs[j].platform) == accepted[j]
  }

  lemma StepAccepts(s: System, step: Step, accepted: seq<(nat, string, string)>)
    requires Ok(s) && AreThese(s.jobs, accepted) && Enabled(s, step)
    ensures AreThese(Next(s, step).jobs, accepted + AcceptedBy(s, step))
  {
    if s.owner.Some? { assert IsLive(s, s.owner.value); }
  }

  lemma {:induction false} RunAccepts(s: System, steps: seq<Step>, accepted: seq<(nat, string, string)>)
    requires Ok(s) && AreThese(s.jobs, accepted) && IsRun(s, steps)
    ensures AreThese(Final(s, steps).jobs, accepted + Accepted(s, steps))
    decreases |steps|
  {
    if steps == [] {
      assert accepted + [] == accepted;
    } else {
      var n := Next(s, steps[0]);
      StepIsOk(s, steps[0]);
      StepAccepts(s, steps[0], accepted);
      RunAccepts(n, steps[1..], accepted + AcceptedBy(s, steps[0]));
      assert accepted + AcceptedBy(s, steps[0]) + Accepted(n, steps[1..]) == accepted + (AcceptedBy(s, steps[0]) + Accepted(n, steps[1..]));
    }
  }

  /** Over every run the install tasks are those asked for while none was running, each for the platform asked for. */
  lemma InstallsAreThoseAccepted(bundled: set<string>, steps: seq<Step>)
    requires IsRun(Started(bundled), steps)
    ensures AreThese(Final(Started(bundled), steps).jobs, Accepted(Started(bundled), steps))
  {
    RunAccepts(Started(bundled), steps, []);
    assert [] + Accepted(Started(bundled), steps) == Accepted(Started(bundled), steps);
  }

  // ---- what an install is answered ------------------------------------------------------------------------

  /** The jobs whose `Init` came to a good end, read off the steps. */
  function InitedBy(step: Step, before: set<nat>): set<nat> {
    if step.InitOk? then before + {step.job} else before
  }

  function Inited(steps: seq<Step>, before: set<nat>): set<nat> {
    if steps == [] then before else Inited(steps[1..], InitedBy(steps[0], before))
  }

  /** A job is answered well exactly if its `Init` was; and a `result` was sent for just those platforms. */
  ghost predicate Answers(s: System, inited: set<nat>) {
    && (forall j :: j in inited ==> j < |s.jobs|)
    && (forall j: nat :: j < |s.jobs| ==> AnswersJob(s.jobs[j], j in inited, s.promised))
    && forall p :: p in s.promised ==> exists j :: j in inited && j < |s.jobs| && s.jobs[j].platform == p
  }

  predicate AnswersJob(job: Job, inited: bool, promised: set<string>) {
    match job.pc
    case Answering(ok) => ok == inited
    case Answered(ok) => ok == inited && (ok ==> job.platform in promised)
    case Released => inited ==> job.platform in promised
    case _ => !inited
  }

  lemma StepAnswers(s: System, step: Step, inited: set<nat>)
    requires Answers(s, inited) && Enabled(s, step)
    ensures Answers(Next(s, step), InitedBy(step, inited))
  {
    var n, after := Next(s, step), InitedBy(step, inited);
    forall p | p in n.promised ensures exists j :: j in after && j < |n.jobs| && n.jobs[j].platform == p {
      if p in s.promised {
        var j :| j in inited && j < |s.jobs| && s.jobs[j].platform == p;
        assert j in after && n.jobs[j].platform == p;
      } else {
        assert step.job in after && n.jobs[step.job].platform == p;
      }
    }
  }

  lemma {:induction false} RunAnswers(s: System, steps: seq<Step>, inited: set<nat>)
    requires Answers(s, inited) && IsRun(s, steps)
    ensures Answers(Final(s, steps), Inited(steps, inited))
    decreases |steps|
  {
    if steps != [] {
      StepAnswers(s, steps[0], inited);
      RunAnswers(Next(s, steps[0]), steps[1..], InitedBy(steps[0], inited));
    }
  }

  /** Over every run an install is answered with a `result` if and only if its reinit succeeded. */
  lemma AnswersFollowTheInit(bundled: set<string>, steps: seq<Step>)
    requires IsRun(Started(bundled), steps)
    ensures Answers(Final(Started(bundled), steps), Inited(steps, {}))
  {
    RunAnswers(Started(bundled), steps, {});
  }

  /** An install may also be refused, fail or be cancelled at any time, and its reinit may fail at any time. */
  lemma AnInstallCanFail(s: System, j: nat)
    ensures At(s, j, Downloading) ==> Enabled(s, GiveUp(j)) && At(Next(s, GiveUp(j)), j, Answering(false))
    ensures j < |s.jobs| && s.jobs[j].pc.Initing? ==> Enabled(s, InitFailed(j)) && At(Next(s, InitFailed(j)), j, Answering(false))
    ensures At(s, j, Answering(false)) ==> Enabled(s, Answer(j)) && At(Next(s, Answer(j)), j, Answered(false))
    ensures At(s, j, Answered(false)) ==> Enabled(s, Leave(j)) && At(Next(s, Leave(j)), j, Released) && Next(s, Leave(j)).owner.None?
  {
  }

  /** The steps of an install that goes well. */
  function GoodCourse(j: nat): seq<Step> {
    [Unpack(j), ReportDone(j), StartInit(j), Reload(j), InitOk(j), Answer(j), Leave(j)]
  }

  lemma RunCons(s: System, step: Step, steps: seq<Step>)
    requires Enabled(s, step) && IsRun(Next(s, step), steps)
    ensures IsRun(s, [step] + steps) && Final(s, [step] + steps) == Final(Next(s, step), steps)
  {
    assert ([step] + steps)[1..] == steps;
  }

  lemma GoodEnd(s: System, j: nat)
    requires At(s, j, Initing(false))
    ensures var end := [Reload(j)] + ([InitOk(j)] + ([Answer(j)] + ([Leave(j)] + [])));
      IsRun(s, end) && At(Final(s, end), j, Released) && Final(s, end).owner.None?
      && Final(s, end).promised == s.promised + {s.jobs[j].platform} && Final(s, end).visible == s.disk == Final(s, end).disk
  {
    var a := Next(s, Reload(j));
    var b := Next(a, InitOk(j));
    var c := Next(b, Answer(j));
    RunCons(c, Leave(j), []);
    RunCons(b, Answer(j), [Leave(j)] + []);
    RunCons(a, InitOk(j), [Answer(j)] + ([Leave(j)] + []));
    RunCons(s, Reload(j), [InitOk(j)] + ([Answer(j)] + ([Leave(j)] + [])));
  }

  /** An install can always go well: then its platform is on disk, visible and promised, and the lock is free. */
  lemma AnInstallCanSucceed(s: System, j: nat)
    requires At(s, j, Downloading)
    ensures IsRun(s, GoodCourse(j))
    ensures var n := Final(s, GoodCourse(j));
      && s.jobs[j].platform in n.disk && n.visible == n.disk && s.jobs[j].platform in n.promised
      && n.owner.None? && At(n, j, Released)
  {
    var a := Next(s, Unpack(j));
    var b := Next(a, ReportDone(j));
    var c := Next(b, StartInit(j));
    var end := [Reload(j)] + ([InitOk(j)] + ([Answer(j)] + ([Leave(j)] + [])));
    assert At(a, j, Downloading) && a.disk == s.disk + {s.jobs[j].platform} && c.disk == a.disk && At(c, j, Initing(false));
    GoodEnd(c, j);
    RunCons(b, StartInit(j), end);
    RunCons(a, ReportDone(j), [StartInit(j)] + end);
    RunCons(s, Unpack(j), [ReportDone(j)] + ([StartInit(j)] + end));
    assert GoodCourse(j) == [Unpack(j)] + ([ReportDone(j)] + ([StartInit(j)] + end));
  }
}
