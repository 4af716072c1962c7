/** Where a flash session's tasks come from: each serves the request asked under its id, and no request that passed its
    checks goes without one. */
module FlashOrigins {
  import opened Protocol
  import opened Frames
  import opened Pumps
  import opened Tasks
  import opened FlashSession
  import opened FlashBookkeeping
  import opened FlashConversations

  /** A request as it was brought, and whether it passed the checks made before anything is spawned for it. */
  datatype Asked = Asked(req: Request, passed: bool)

  /** A compile needs its libraries and options in order and a scratch directory, be it an earlier one; a firmware flash
      its image and a staged copy of it; an install its platform and the lock. */
  predicate Passes(d: Desk, req: Request) {
    match req
    case CompileSketch(refused, dirFault, _) => refused.None? && (TheSession in d.scratch.owners || dirFault.None?)
    case UploadArtifact(_) => true
    case FlashFirmware(refused, _) => refused.None?
    case InstallPlatform(refused, _) => refused.None?
    case _ => false
  }

  /** The request brought under `id`, read off the steps. */
  function AskedBy(d: Desk, step: Step, id: string, before: Option<Asked>): Option<Asked> {
    if step.Do? && step.act.Ask? && step.act.id == id && BringsId(step.act.req)
    then Some(Asked(step.act.req, Passes(d, step.act.req)))
    else before
  }

  ghost function AskedUnder(s: State, steps: seq<Step>, id: string, before: Option<Asked>): Option<Asked>
    requires IsRun(s, steps)
    decreases |steps|
  {
    if steps == [] then before else AskedUnder(Next(s, steps[0]), steps[1..], id, AskedBy(s.desk, steps[0], id, before))
  }

  /** The task is of the request's kind and is fed the very stream the daemon answers that request with. */
  predicate Serves(t: Task, req: Request) {
    match req
    case CompileSketch(_, _, events) => t.kind == Compile && t.events == events
    case UploadArtifact(events) => t.kind == Upload && t.events == events
    case FlashFirmware(_, events) => t.kind == Flash && t.events == events
    case InstallPlatform(_, events) => t.kind == Install && t.events == events
    case _ => false
  }

  /** There is a task under `id` exactly if a request under it passed its checks, and it serves that request. */
  ghost predicate IsServed(d: Desk, id: string, asked: Option<Asked>) {
    && (id in d.asked <==> asked.Some?)
    && (id in d.taskOf <==> asked.Some? && asked.value.passed)
    && (id in d.taskOf ==> d.taskOf[id] < |d.tasks| && Serves(d.tasks[d.taskOf[id]], asked.value.req))
  }

  lemma AskIsServed(d: Desk, ask: string, req: Request, id: string, asked: Option<Asked>)
    requires IsServed(d, id, asked) && d.reader.Reading? && (BringsId(req) ==> ask !in d.asked)
    ensures IsServed(Acted(d, Ask(ask, req)), id, AskedBy(d, Do(Ask(ask, req)), id, asked))
  {
    SettleIsServed(Noted(d, ask, req), ask, req, id, Dispatch(d, ask, req));
    DispatchLaunches(d, ask, req);
  }

  /** What is spawned for a request, if anything. */
  lemma DispatchLaunches(d: Desk, id: string, req: Request)
    ensures Dispatch(d, id, req).Launch? <==> Passes(d, req)
    ensures Passes(d, req) ==> Serves(Spawned(id, Dispatch(d, id, req).kind, Dispatch(d, id, req).events), req)
    ensures Passes(d, req) ==> BringsId(req)
  {
  }

  lemma SettleIsServed(d: Desk, ask: string, req: Request, id: string, decision: Decision)
    ensures var n := Settle(d, ask, decision);
      && n.asked == d.asked && |d.tasks| <= |n.tasks|
      && (forall t :: 0 <= t < |d.tasks| ==> n.tasks[t].kind == d.tasks[t].kind && n.tasks[t].events == d.tasks[t].events)
      && n.taskOf == (if decision.Launch? then d.taskOf[ask := |d.tasks|] else d.taskOf)
      && (decision.Launch? ==> |n.tasks| == |d.tasks| + 1 && n.tasks[|d.tasks|] == Spawned(ask, decision.kind, decision.events))
  {
  }

  /** Nothing but a request spawns, and no task changes what it is for. */
  lemma ActKeepsServed(d: Desk, act: Act, id: string, asked: Option<Asked>)
    requires IsServed(d, id, asked) && Can(d, act) && UsesFreshId(d, Do(act))
    ensures IsServed(Acted(d, act), id, AskedBy(d, Do(act), id, asked))
  {
    match act
    case Ask(ask, req) => AskIsServed(d, ask, req, id, asked);
    case TaskMove(_, _) =>
    case TaskLeave(_) =>
    case Drain =>
    case _ => TasksAreLeft(d, act);
  }

  lemma StepKeepsServed(s: State, step: Step, id: string, asked: Option<Asked>)
    requires IsServed(s.desk, id, asked) && Enabled(s, step) && UsesFreshId(s.desk, step)
    ensures IsServed(Next(s, step).desk, id, AskedBy(s.desk, step, id, asked))
  {
    if step.Do? { ActKeepsServed(s.desk, step.act, id, asked); }
  }

  lemma {:induction false} RunKeepsServed(s: State, steps: seq<Step>, id: string, asked: Option<Asked>)
    requires IsServed(s.desk, id, asked) && IsFreshRun(s, steps)
    ensures IsRun(s, steps) && IsServed(Final(s, steps).desk, id, AskedUnder(s, steps, id, asked))
    decreases |steps|
  {
    if steps != [] {
      StepKeepsServed(s, steps[0], id, asked);
      RunKeepsServed(Next(s, steps[0]), steps[1..], id, AskedBy(s.desk, steps[0], id, asked));
    }
  }

  /** Over any run: a task exists under an id if and only if a request under it passed its checks; it is of that request's
      kind and is fed that request's stream. */
  lemma TasksServeTheirRequests(accepts: nat, steps: seq<Step>, id: string)
    requires IsFreshRun(Fresh(accepts), steps)
    ensures IsRun(Fresh(accepts), steps)
    ensures IsServed(Final(Fresh(accepts), steps).desk, id, AskedUnder(Fresh(accepts), steps, id, None))
  {
    RunKeepsServed(Fresh(accepts), steps, id, None);
  }
}
