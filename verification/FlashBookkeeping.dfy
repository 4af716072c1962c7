/** What every step of a flash session keeps about its own bookkeeping: the token map, the scratch directories, the
    monitor, and the read loop's place in it. */
module FlashBookkeeping {
  import opened Protocol
  import opened Frames
  import opened Pumps
  import opened Tasks
  import opened FlashSession
  import MonitorLink

  // ---- the tasks ------------------------------------------------------------------------------------------

  /** Every task agrees with its pump's specification and is the one task ever spawned under its id. */
  ghost predicate Roster(tasks: seq<Task>, taskOf: map<string, nat>, asked: map<string, Role>) {
    && (forall t :: 0 <= t < |tasks| ==>
          && TaskOk(tasks[t]) && tasks[t].id != ""
          && tasks[t].id in taskOf && taskOf[tasks[t].id] == t
          && tasks[t].id in asked && asked[tasks[t].id].Spawner?)
    && (forall id :: id in taskOf ==> taskOf[id] < |tasks| && tasks[taskOf[id]].id == id)
  }

  lemma RosterUpdate(tasks: seq<Task>, taskOf: map<string, nat>, asked: map<string, Role>, tid: nat, t: Task)
    requires Roster(tasks, taskOf, asked) && tid < |tasks| && t.id == tasks[tid].id && TaskOk(t)
    ensures Roster(tasks[tid := t], taskOf, asked)
  {
  }

  lemma RosterAsked(tasks: seq<Task>, taskOf: map<string, nat>, asked: map<string, Role>, id: string, role: Role)
    requires Roster(tasks, taskOf, asked) && id !in asked
    ensures Roster(tasks, taskOf, asked[id := role])
  {
  }

  lemma RosterSpawn(tasks: seq<Task>, taskOf: map<string, nat>, asked: map<string, Role>, id: string, kind: Kind, events: seq<Event>)
    requires Roster(tasks, taskOf, asked) && id != "" && id !in taskOf && id in asked && asked[id].Spawner?
    ensures Roster(tasks + [Spawned(id, kind, events)], taskOf[id := |tasks|], asked)
  {
  }

  lemma RosterFire(tasks: seq<Task>, taskOf: map<string, nat>, asked: map<string, Role>, tokens: set<nat>)
    requires Roster(tasks, taskOf, asked)
    ensures Roster(FireAll(tasks, tokens), taskOf, asked)
  {
    var out := FireAll(tasks, tokens);
    forall t | 0 <= t < |tasks| ensures TaskOk(out[t]) && out[t].id == tasks[t].id {
      FiredIsOk(tasks[t]);
    }
  }

  lemma SettleKeepsRoster(d: Desk, id: string, decision: Decision)
    requires Roster(d.tasks, d.taskOf, d.asked)
    requires decision.Launch? ==> id != "" && id !in d.taskOf && id in d.asked && d.asked[id].Spawner?
    ensures var d' := Settle(d, id, decision); Roster(d'.tasks, d'.taskOf, d'.asked)
  {
    match decision
    case Launch(kind, events) => RosterSpawn(d.tasks, d.taskOf, d.asked, id, kind, events);
    case Fire =>
      if id in d.inFlight && d.inFlight[id] < |d.tasks| {
        FiredIsOk(d.tasks[d.inFlight[id]]);
        RosterUpdate(d.tasks, d.taskOf, d.asked, d.inFlight[id], Fired(d.tasks[d.inFlight[id]]));
      }
    case _ =>
  }

  /** What `dispatch` may decide, whatever the request. */
  predicate Sensible(d: Desk, id: string, req: Request, decision: Decision) {
    match decision
    case Await(reader, _, link) =>
      && (BringsId(req) ==> ReaderId(reader) == Some(id) && RoleFits(reader, RoleOf(d, req)) && !RoleOf(d, req).Closer?)
      && (!BringsId(req) ==> ReaderId(reader) == Some(""))
      && (match reader
          case Listing(_) => link == d.link
          case Replying(_, body) => IsTerminal(body) && link == d.link
          case Opening(_) => d.monitor.None? && BringsId(req) && link == MonitorLink.Opened()
          case Writing(_, _) => d.monitor.Some? && link == d.link
          case _ => false)
    case Close(after) => BringsId(req) && RoleOf(d, req).Closer? && after.Reply? && after.id == id
    case Launch(kind, _) => BringsId(req) && RoleOf(d, req).Spawner?
    case Fire => req.Cancel?
  }

  lemma DispatchIsSensible(d: Desk, id: string, req: Request)
    ensures Sensible(d, id, req, Dispatch(d, id, req))
  {
  }

  lemma AskKeepsRoster(d: Desk, id: string, req: Request, decision: Decision)
    requires Roster(d.tasks, d.taskOf, d.asked) && Sensible(d, id, req, decision)
    requires BringsId(req) ==> id != "" && id !in d.asked
    ensures var d' := Settle(Noted(d, id, req), id, decision); Roster(d'.tasks, d'.taskOf, d'.asked)
  {
    if BringsId(req) {
      RosterAsked(d.tasks, d.taskOf, d.asked, id, RoleOf(d, req));
      assert id !in d.taskOf;
    }
    SettleKeepsRoster(Noted(d, id, req), id, decision);
  }

  lemma ActKeepsRoster(d: Desk, act: Act)
    requires Roster(d.tasks, d.taskOf, d.asked) && Can(d, act) && UsesFreshId(d, Do(act))
    ensures Roster(Acted(d, act).tasks, Acted(d, act).taskOf, Acted(d, act).asked)
  {
    match act
    case Ask(id, req) =>
      DispatchIsSensible(d, id, req);
      AskKeepsRoster(d, id, req, Dispatch(d, id, req));
    case TaskMove(tid, move) =>
      MoveIsOk(d.tasks[tid], move);
      RosterUpdate(d.tasks, d.taskOf, d.asked, tid, Moved(d.tasks[tid], move));
    case TaskLeave(tid) =>
      RosterUpdate(d.tasks, d.taskOf, d.asked, tid, d.tasks[tid].(pc := Gone));
    case Drain => RosterFire(d.tasks, d.taskOf, d.asked, d.inFlight.Values);
    case _ => TasksAreLeft(d, act);
  }

  lemma SayKeepsRoster(d: Desk, who: Speaker)
    requires Roster(d.tasks, d.taskOf, d.asked) && HasToSay(d, who)
    ensures Roster(AfterSaying(d, who).tasks, AfterSaying(d, who).taskOf, AfterSaying(d, who).asked)
  {
    if who.TaskNo? {
      SpokenIsOk(d.tasks[who.tid]);
      RosterUpdate(d.tasks, d.taskOf, d.asked, who.tid, Spoken(d.tasks[who.tid]));
    }
  }

  // ---- the token map --------------------------------------------------------------------------------------

  predicate IsLive(t: Task) {
    !t.pc.Gone?
  }

  /** Before the teardown drain the map holds exactly the live tasks, each under its own token; afterwards it is
      empty and every live task is cancelled. */
  ghost predicate Flight(drained: bool, inFlight: map<string, nat>, tasks: seq<Task>) {
    if drained then inFlight == map[] && forall t :: 0 <= t < |tasks| && IsLive(tasks[t]) ==> tasks[t].cancelled
    else MapAgrees(inFlight, tasks)
  }

  /** The map and the live tasks agree. */
  ghost predicate MapAgrees(inFlight: map<string, nat>, tasks: seq<Task>) {
    && (forall t :: 0 <= t < |tasks| && IsLive(tasks[t]) ==> tasks[t].id in inFlight && inFlight[tasks[t].id] == t)
    && (forall id :: id in inFlight ==> inFlight[id] < |tasks| && IsLive(tasks[inFlight[id]]) && tasks[inFlight[id]].id == id)
  }

  ghost predicate FlightOk(d: Desk) {
    Flight(Drained(d), d.inFlight, d.tasks)
  }

  lemma FlightUpdate(drained: bool, inFlight: map<string, nat>, tasks: seq<Task>, tid: nat, t: Task)
    requires Flight(drained, inFlight, tasks) && tid < |tasks|
    requires t.id == tasks[tid].id && IsLive(t) == IsLive(tasks[tid]) && (tasks[tid].cancelled ==> t.cancelled)
    ensures Flight(drained, inFlight, tasks[tid := t])
  {
  }

  lemma FlightLeave(drained: bool, inFlight: map<string, nat>, tasks: seq<Task>, tid: nat, t: Task)
    requires Flight(drained, inFlight, tasks) && tid < |tasks| && IsLive(tasks[tid])
    requires t.id == tasks[tid].id && !IsLive(t)
    ensures Flight(drained, inFlight - {tasks[tid].id}, tasks[tid := t])
  {
    var m, ts := inFlight - {tasks[tid].id}, tasks[tid := t];
    if !drained {
      forall u | 0 <= u < |ts| && IsLive(ts[u]) ensures ts[u].id in m && m[ts[u].id] == u {
        assert ts[u] == tasks[u];
      }
    }
  }

  lemma FlightDrain(inFlight: map<string, nat>, tasks: seq<Task>)
    requires Flight(false, inFlight, tasks)
    ensures Flight(true, map[], FireAll(tasks, inFlight.Values))
  {
    forall t | 0 <= t < |tasks| && IsLive(tasks[t]) ensures t in inFlight.Values {
      assert inFlight[tasks[t].id] == t;
    }
  }

  /** No running task bears the id. */
  ghost predicate IsIdleId(d: Desk, id: string) {
    forall t :: 0 <= t < |d.tasks| && IsLive(d.tasks[t]) ==> d.tasks[t].id != id
  }

  /** A request that spawns a task does so under an id that no running task bears. */
  ghost predicate UsesIdleId(d: Desk, act: Act) {
    act.Ask? && Dispatch(d, act.id, act.req).Launch? ==> IsIdleId(d, act.id)
  }

  lemma FreshIsIdle(d: Desk, act: Act)
    requires Roster(d.tasks, d.taskOf, d.asked) && UsesFreshId(d, Do(act))
    ensures UsesIdleId(d, act)
  {
    if act.Ask? { DispatchIsSensible(d, act.id, act.req); }
  }

  lemma SettleKeepsFlight(d: Desk, id: string, decision: Decision)
    requires FlightOk(d) && d.reader.Reading?
    requires decision.Launch? ==> IsIdleId(d, id)
    requires decision.Await? ==> !decision.reader.Awaiting? && !decision.reader.Returned?
    ensures FlightOk(Settle(d, id, decision))
  {
    match decision
    case Fire =>
      if id in d.inFlight {
        FlightUpdate(false, d.inFlight, d.tasks, d.inFlight[id], Fired(d.tasks[d.inFlight[id]]));
      }
    case _ =>
  }

  lemma MoveFrame(t: Task, move: Move)
    requires CanMove(t, move)
    ensures Moved(t, move).id == t.id && Moved(t, move).kind == t.kind && Moved(t, move).said == t.said
    ensures IsLive(t) && IsLive(Moved(t, move)) && Moved(t, move).cancelled == t.cancelled
    ensures !Settled(t) && !Settled(Moved(t, move))
  {
  }

  /** Acts of the read loop, the pump and the command channel leave the tasks alone. */
  predicate LeavesTasks(act: Act) {
    !act.Ask? && !act.TaskMove? && !act.TaskLeave? && !act.Drain?
  }

  lemma TasksAreLeft(d: Desk, act: Act)
    requires Can(d, act) && LeavesTasks(act)
    ensures Acted(d, act).tasks == d.tasks && Acted(d, act).inFlight == d.inFlight && Acted(d, act).taskOf == d.taskOf
    ensures Acted(d, act).asked == d.asked && Drained(Acted(d, act)) == Drained(d)
  {
  }

  lemma ActKeepsFlight(d: Desk, act: Act)
    requires FlightOk(d) && Can(d, act) && UsesIdleId(d, act)
    ensures FlightOk(Acted(d, act))
  {
    match act
    case Ask(id, req) =>
      DispatchIsSensible(d, id, req);
      SettleKeepsFlight(Noted(d, id, req), id, Dispatch(d, id, req));
    case TaskMove(tid, move) =>
      MoveFrame(d.tasks[tid], move);
      FlightUpdate(Drained(d), d.inFlight, d.tasks, tid, Moved(d.tasks[tid], move));
    case TaskLeave(tid) => FlightLeave(Drained(d), d.inFlight, d.tasks, tid, d.tasks[tid].(pc := Gone));
    case Drain => FlightDrain(d.inFlight, d.tasks);
    case _ => TasksAreLeft(d, act);
  }

  lemma SayKeepsFlight(d: Desk, who: Speaker)
    requires FlightOk(d) && HasToSay(d, who)
    ensures FlightOk(AfterSaying(d, who))
  {
    if who.TaskNo? {
      FlightUpdate(Drained(d), d.inFlight, d.tasks, who.tid, Spoken(d.tasks[who.tid]));
    }
  }

  /** A cancel reaches the live task that bears its id, and nothing else in the session. */
  lemma CancelReachesOneTask(d: Desk, id: string)
    requires FlightOk(d) && d.reader.Reading?
    ensures var d' := Acted(d, Ask(id, Cancel));
      && d' == d.(tasks := d'.tasks) && |d'.tasks| == |d.tasks|
      && forall t :: 0 <= t < |d.tasks| ==>
           d'.tasks[t] == if d.tasks[t].id == id && IsLive(d.tasks[t]) then Fired(d.tasks[t]) else d.tasks[t]
  {
    assert Acted(d, Ask(id, Cancel)) == FireToken(d, id);
  }

  /** Registering a task under an id keeps the map in agreement exactly when no live task bears that id. */
  lemma SpawnAgreesIffIdIsIdle(d: Desk, id: string, kind: Kind, events: seq<Event>)
    requires MapAgrees(d.inFlight, d.tasks)
    ensures var d' := Spawn(d, id, kind, events);
      MapAgrees(d'.inFlight, d'.tasks) <==> IsIdleId(d, id)
  {
    var d' := Spawn(d, id, kind, events);
    forall t | 0 <= t < |d.tasks| && IsLive(d.tasks[t]) && d.tasks[t].id == id ensures !MapAgrees(d'.inFlight, d'.tasks) {
      assert d'.tasks[t] == d.tasks[t] && d'.inFlight[id] == |d.tasks|;
    }
  }

  // ---- the scratch directories ----------------------------------------------------------------------------

  /** At most one compile directory, alive as long as the session or one of its compiles, removed exactly once after
      the last of them; and a staged firmware copy for exactly the flashes that still run. */
  ghost predicate ScratchOk(d: Desk) {
    && d.scratch.created <= 1
    && (TheSession in d.scratch.owners <==> d.scratch.created == 1 && !d.reader.Returned?)
    && (forall tid: nat :: TheTask(tid) in d.scratch.owners <==> tid < |d.tasks| && d.tasks[tid].kind.Compile? && IsLive(d.tasks[tid]))
    && (d.scratch.created == 0 ==> d.scratch.owners == {})
    && d.scratch.removed == (if d.scratch.created == 1 && d.scratch.owners == {} then 1 else 0)
    && (forall tid: nat :: tid in d.staged <==> tid < |d.tasks| && d.tasks[tid].kind.Flash? && IsLive(d.tasks[tid]))
  }

  lemma OwnerIsOne(owners: set<Owner>, owner: Owner)
    requires owner in owners
    ensures owners != {}
  {
  }

  lemma TasksKeepScratch(d: Desk, d': Desk)
    requires ScratchOk(d) && d'.scratch == d.scratch && d'.staged == d.staged && d'.reader.Returned? == d.reader.Returned?
    requires |d'.tasks| == |d.tasks|
    requires forall t :: 0 <= t < |d.tasks| ==> d'.tasks[t].kind == d.tasks[t].kind && IsLive(d'.tasks[t]) == IsLive(d.tasks[t])
    ensures ScratchOk(d')
  {
  }

  lemma ActKeepsScratch(d: Desk, act: Act)
    requires ScratchOk(d) && Can(d, act)
    ensures ScratchOk(Acted(d, act))
  {
    match act
    case TaskLeave(tid) => LeaveKeepsScratch(d, tid);
    case Return => ReturnKeepsScratch(d);
    case Ask(id, req) =>
      DispatchIsSensible(d, id, req);
      SettleKeepsScratch(Noted(d, id, req), id, Dispatch(d, id, req));
    case TaskMove(tid, move) =>
      MoveFrame(d.tasks[tid], move);
      TasksKeepScratch(d, Acted(d, act));
    case Drain => TasksKeepScratch(d, Acted(d, act));
    case _ =>
      TasksAreLeft(d, act);
      ScratchIsLeft(d, act);
      TasksKeepScratch(d, Acted(d, act));
  }

  lemma ScratchIsLeft(d: Desk, act: Act)
    requires Can(d, act) && LeavesTasks(act) && !act.Return?
    ensures Acted(d, act).scratch == d.scratch && Acted(d, act).staged == d.staged
    ensures Acted(d, act).reader.Returned? == d.reader.Returned?
  {
  }

  lemma LeaveKeepsScratch(d: Desk, tid: nat)
    requires ScratchOk(d) && Can(d, TaskLeave(tid))
    ensures ScratchOk(Left(d, tid))
  {
    var owners := d.scratch.owners;
    if TheTask(tid) in owners {
      OwnerIsOne(owners, TheTask(tid));
    } else {
      assert owners - {TheTask(tid)} == owners;
    }
  }

  lemma ReturnKeepsScratch(d: Desk)
    requires ScratchOk(d) && Can(d, Return)
    ensures ScratchOk(Acted(d, Return))
  {
    var owners := d.scratch.owners;
    if TheSession in owners {
      OwnerIsOne(owners, TheSession);
    } else {
      assert owners - {TheSession} == owners;
    }
  }

  lemma SpawnKeepsScratch(d: Desk, id: string, kind: Kind, events: seq<Event>)
    requires ScratchOk(d) && (kind.Compile? ==> TheSession in d.scratch.owners)
    ensures ScratchOk(Spawn(d, id, kind, events))
  {
    var d' := Spawn(d, id, kind, events);
    if kind.Compile? {
      OwnerIsOne(d.scratch.owners, TheSession);
      OwnerIsOne(d'.scratch.owners, TheSession);
    }
  }

  lemma EnsureKeepsScratch(d: Desk)
    requires ScratchOk(d) && !d.reader.Returned?
    ensures ScratchOk(d.(scratch := EnsureScratch(d.scratch))) && TheSession in EnsureScratch(d.scratch).owners
  {
    OwnerIsOne(EnsureScratch(d.scratch).owners, TheSession);
  }

  lemma SettleKeepsScratch(d: Desk, id: string, decision: Decision)
    requires ScratchOk(d) && d.reader.Reading?
    requires decision.Await? ==> !decision.reader.Returned?
    ensures ScratchOk(Settle(d, id, decision))
  {
    match decision
    case Launch(kind, events) =>
      if kind.Compile? {
        EnsureKeepsScratch(d);
        SpawnKeepsScratch(d.(scratch := EnsureScratch(d.scratch)), id, kind, events);
      } else {
        SpawnKeepsScratch(d, id, kind, events);
      }
    case _ => TasksKeepScratch(d, Settle(d, id, decision));
  }

  lemma SayKeepsScratch(d: Desk, who: Speaker)
    requires ScratchOk(d) && HasToSay(d, who)
    ensures ScratchOk(AfterSaying(d, who))
  {
    TasksKeepScratch(d, AfterSaying(d, who));
  }

  // ---- the read loop and the monitor ----------------------------------------------------------------------

  /** The request the read loop is busy with. */
  function ReaderId(r: Reader): Option<string> {
    match r
    case Listing(id) => Some(id)
    case Opening(id) => Some(id)
    case Announcing(id, _) => Some(id)
    case Replying(id, _) => Some(id)
    case Writing(id, _) => Some(id)
    case Closing(Reply(id, _)) => Some(id)
    case Joining(Reply(id, _)) => Some(id)
    case _ => None
  }

  predicate RoleFits(r: Reader, role: Role) {
    match r
    case Listing(_) => role.Quick?
    case Opening(_) => role.Opener?
    case Announcing(_, _) => role.Opener?
    case Replying(_, body) => (role.Opener? || role.MonitorWriter? ==> body.Error?) && role != MonitorWriter(true)
    case Writing(_, _) => role == MonitorWriter(true)
    case _ => role.Closer?
  }

  ghost predicate ReaderOk(d: Desk) {
    && (d.reader.Replying? ==> IsTerminal(d.reader.body))
    && (ReaderId(d.reader).Some? && ReaderId(d.reader).value != "" ==>
          var id := ReaderId(d.reader).value;
          id in d.asked && id !in d.taskOf && RoleFits(d.reader, d.asked[id]) && (d.pump.Some? ==> d.pump.value.id != id))
    && (d.reader.Announcing? || d.reader.Opening? ==> ReaderId(d.reader).value != "")
  }

  lemma AskKeepsReader(d: Desk, id: string, req: Request, decision: Decision)
    requires ReaderOk(d) && MonitorOk(d) && Roster(d.tasks, d.taskOf, d.asked)
    requires d.reader.Reading? && Sensible(d, id, req, decision)
    requires BringsId(req) ==> id != "" && id !in d.asked
    ensures ReaderOk(Settle(Noted(d, id, req), id, decision))
  {
    if BringsId(req) { assert id !in d.taskOf; }
  }

  lemma ActKeepsReader(d: Desk, act: Act)
    requires ReaderOk(d) && MonitorOk(d) && Roster(d.tasks, d.taskOf, d.asked)
    requires Can(d, act) && UsesFreshId(d, Do(act))
    ensures ReaderOk(Acted(d, act))
  {
    match act
    case Ask(id, req) =>
      DispatchIsSensible(d, id, req);
      AskKeepsReader(d, id, req, Dispatch(d, id, req));
    case _ =>
  }

  lemma SayKeepsReader(d: Desk, who: Speaker)
    requires ReaderOk(d) && HasToSay(d, who)
    ensures ReaderOk(AfterSaying(d, who))
  {
  }

  predicate IsClosing(r: Reader) {
    r.Closing? || r.Joining?
  }

  /** At most one monitor: a pump runs only for the monitor the session holds or is just closing, and neither exists
      while another is being opened or once the session winds down. */
  ghost predicate MonitorOk(d: Desk) {
    && (d.pump.Some? ==>
          && d.pump.value.id in d.asked && d.asked[d.pump.value.id].Opener? && d.pump.value.id != ""
          && (d.pump.value.pc.Sending? ==> if d.pump.value.pc.last then d.pump.value.pc.body.Error? else d.pump.value.pc.body.MonitorData?)
          && (IsClosing(d.reader) || d.monitor == Some(d.pump.value.id)))
    && (d.monitor.Some? ==> !IsClosing(d.reader) && d.link.sender)
    && (d.reader.Opening? || d.reader.Announcing? || d.reader.Draining? || Drained(d) ==> d.monitor.None? && d.pump.None?)
    && (d.reader.Writing? ==> d.monitor.Some?)
    && (d.reader.Closing? || d.reader.Announcing? || d.reader.Opening? ==> d.link.sender)
    && (d.reader.Joining? ==> !d.link.sender)
  }

  lemma AskKeepsMonitor(d: Desk, id: string, req: Request, decision: Decision)
    requires MonitorOk(d) && d.reader.Reading? && Sensible(d, id, req, decision)
    requires BringsId(req) ==> id != "" && id !in d.asked
    ensures MonitorOk(Settle(Noted(d, id, req), id, decision))
  {
  }

  lemma ActKeepsMonitor(d: Desk, act: Act)
    requires MonitorOk(d) && Can(d, act) && UsesFreshId(d, Do(act))
    ensures MonitorOk(Acted(d, act))
  {
    match act
    case Ask(id, req) =>
      DispatchIsSensible(d, id, req);
      AskKeepsMonitor(d, id, req, Dispatch(d, id, req));
    case _ =>
  }

  lemma SayKeepsMonitor(d: Desk, who: Speaker)
    requires MonitorOk(d) && ReaderOk(d) && HasToSay(d, who)
    ensures MonitorOk(AfterSaying(d, who))
  {
  }

  /** The command channel: the outbound protocol holds, nothing was ever accepted behind a close, and a living stream is
      let go of only with one. */
  ghost predicate CommandsOk(l: MonitorLink.Link) {
    && MonitorLink.Ok(l)
    && (forall i :: 0 <= i < |l.accepted| - 1 ==> l.accepted[i].Write?)
    && (l.sender && l.accepted != [] ==> Last(l.accepted).Write?)
    && (!l.sender && l.attached ==> l.accepted != [] && Last(l.accepted).Close?)
  }

  ghost predicate LinkOk(d: Desk) {
    CommandsOk(d.link)
  }

  /** Writes keep the sender's end open; a close drops it. */
  lemma CommandIsOk(l: MonitorLink.Link, c: MonitorLink.Command)
    requires CommandsOk(l) && MonitorLink.CanSend(l)
    ensures c.Write? ==> CommandsOk(MonitorLink.Send(l, c))
    ensures c.Close? ==> CommandsOk(MonitorLink.Send(l, c).(sender := false))
  {
    MonitorLink.SendIsOk(l, c);
  }

  lemma EndsMayGo(l: MonitorLink.Link)
    requires CommandsOk(l)
    ensures CommandsOk(l.(attached := false)) && CommandsOk(l.(attached := false, sender := false))
  {
  }

  lemma PullKeepsCommands(l: MonitorLink.Link)
    requires CommandsOk(l) && MonitorLink.CanPull(l)
    ensures CommandsOk(MonitorLink.Pull(l))
  {
    MonitorLink.PullIsOk(l);
  }

  lemma AskKeepsLink(d: Desk, id: string, req: Request)
    requires LinkOk(d) && d.reader.Reading?
    ensures LinkOk(Settle(Noted(d, id, req), id, Dispatch(d, id, req)))
  {
    DispatchIsSensible(d, id, req);
  }

  lemma ActKeepsLink(d: Desk, act: Act)
    requires LinkOk(d) && MonitorOk(d) && Can(d, act)
    ensures LinkOk(Acted(d, act))
  {
    match act
    case Ask(id, req) => AskKeepsLink(d, id, req);
    case SendCommand => SendKeepsLink(d);
    case LinkPull => PullKeepsCommands(d.link);
    case _ => EndsMayGo(d.link);
  }

  lemma SendKeepsLink(d: Desk)
    requires LinkOk(d) && Can(d, SendCommand)
    ensures LinkOk(Acted(d, SendCommand))
  {
    EndsMayGo(d.link);
    if d.link.sender { CommandIsOk(d.link, Command(d)); }
  }
}
