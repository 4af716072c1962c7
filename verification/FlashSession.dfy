/** One flash session as a step system: the read loop, the spawned tasks, the monitor pump, the response channel and
    the writer, interleaved in any order (src/server/session.rs, src/service/arduino/bridge.rs). */
module FlashSession {
  import opened Protocol
  import opened Frames
  import opened Pumps
  import opened Tasks
  import MonitorLink
  import WriterModel

  /** The channel between those who answer and the writer holds this many responses; then senders wait. */
  const RESPONSE_CHANNEL_CAPACITY: nat := 64

  // ---- the state ------------------------------------------------------------------------------------------

  /** What a request id is owed: one reply at once, one reply after a monitor is closed, a spawned task's terminal,
      nothing if a monitor was held and else an error (monitorWrite), or a monitor's transcript (monitorOpen). */
  datatype Role = Quick | Closer | Spawner | MonitorWriter(held: bool) | Opener

  /** What the read loop does once a monitor is closed. */
  datatype After = Reply(id: string, clearsPort: bool) | TearDown

  /** The await the read loop stands at. Draining, Awaiting and Returned come after the loop has ended. */
  datatype Reader =
    | Reading
    | Listing(id: string)
    | Opening(id: string)
    | Announcing(id: string, inbound: seq<MonitorEvent>)
    | Replying(id: string, body: Body)
    | Writing(id: string, data: string)
    | Closing(after: After)
    | Joining(after: After)
    | Draining
    | Awaiting
    | Returned

  datatype MonitorEvent = PortOpened | SerialData(text: string) | PortError(message: string) | StreamError(detail: string)

  datatype PumpPc = Pulling | Sending(body: Body, last: bool)

  /** The spawned `monitor_pump`; `inbound` is all the daemon will still send after the port opened. */
  datatype Pump = Pump(id: string, inbound: seq<MonitorEvent>, next: nat, pc: PumpPc)

  /** Who holds the compile scratch directory alive. */
  datatype Owner = TheSession | TheTask(tid: nat)

  datatype Scratch = Scratch(created: nat, removed: nat, owners: set<Owner>)

  /** Everything but the channel and the writer. A task is known by its position in `tasks`, which is also its
      token; `asked` and `taskOf` record the past. */
  datatype Desk = Desk(
    reader: Reader, port: Option<string>, asked: map<string, Role>,
    inFlight: map<string, nat>, taskOf: map<string, nat>, tasks: seq<Task>,
    monitor: Option<string>, pump: Option<Pump>, link: MonitorLink.Link,
    scratch: Scratch, staged: set<nat>)

  /** The response channel and the writer behind it. `offered` is everything anyone said, `received` what the
      writer has taken out. The channel is open while the writer runs. */
  datatype Wire = Wire(
    queue: seq<Response>, offered: seq<Response>, received: seq<Response>, writer: WriterModel.Writer, clock: int)

  datatype State = State(desk: Desk, wire: Wire)

  function FreshDesk(): Desk {
    Desk(Reading, None, map[], map[], map[], [], None, None, MonitorLink.Opened().(attached := false, sender := false),
         Scratch(0, 0, {}), {})
  }

  /** A new session on a socket that will take `accepts` frames before it fails. */
  function Fresh(accepts: nat): State {
    State(FreshDesk(), Wire([], [], [], WriterModel.Fresh(accepts), 0))
  }

  const PORT_REQUIRED := "connect requires a non-empty port"
  const MONITOR_IS_OPEN := "a monitor is already open; close it before opening another"
  const NO_MONITOR := "monitorWrite with no monitor open"

  // ---- requests -------------------------------------------------------------------------------------------

  datatype Fault = Fault(code: Code, detail: string)

  /** A request, together with how its checks come out and the stream the daemon would answer it with. */
  datatype Request =
    | ListBoards
    | Connect(port: string)
    | Disconnect
    | CompileSketch(refused: Option<Fault>, dirFault: Option<string>, events: seq<Event>)
    | UploadArtifact(events: seq<Event>)
    | FlashFirmware(refused: Option<Fault>, events: seq<Event>)
    | OpenMonitor
    | WriteMonitor(data: string)
    | CloseMonitor
    | InstallPlatform(refused: Option<Fault>, events: seq<Event>)
    | Cancel
    | Malformed(detail: string)

  predicate BringsId(req: Request) {
    !req.Cancel? && !req.Malformed?
  }

  function RoleOf(d: Desk, req: Request): Role
    requires BringsId(req)
  {
    match req
    case ListBoards => Quick
    case Connect(_) => Quick
    case Disconnect => Closer
    case CloseMonitor => Closer
    case OpenMonitor => Opener
    case WriteMonitor(_) => MonitorWriter(d.monitor.Some?)
    case _ => Spawner
  }

  /** `ensure_temp_base`, when the directory can be made. */
  function EnsureScratch(s: Scratch): Scratch {
    if TheSession in s.owners then s else s.(created := s.created + 1, owners := s.owners + {TheSession})
  }

  /** Registers the token and spawns the task. */
  function Spawn(d: Desk, id: string, kind: Kind, events: seq<Event>): Desk {
    var tid := |d.tasks|;
    d.(inFlight := d.inFlight[id := tid], taskOf := d.taskOf[id := tid], tasks := d.tasks + [Spawned(id, kind, events)],
       scratch := if kind.Compile? then d.scratch.(owners := d.scratch.owners + {TheTask(tid)}) else d.scratch,
       staged := if kind.Flash? then d.staged + {tid} else d.staged)
  }

  function FireToken(d: Desk, id: string): Desk {
    if id in d.inFlight && d.inFlight[id] < |d.tasks|
    then d.(tasks := d.tasks[d.inFlight[id] := Fired(d.tasks[d.inFlight[id]])])
    else d
  }

  /** The monitor leaves the session at once; its command sender and task are awaited next. */
  function BeginClose(d: Desk, after: After): Desk {
    if d.monitor.Some? then d.(monitor := None, reader := Closing(after)) else AfterClose(d, after)
  }

  function AfterClose(d: Desk, after: After): Desk {
    match after
    case Reply(id, clearsPort) =>
      d.(reader := Replying(id, Result("{}")), port := if clearsPort then None else d.port)
    case TearDown => d.(reader := Draining)
  }

  /** What `dispatch` settles on before its first await: wait at `reader`, close the monitor first, spawn a task, or
      fire a token. */
  datatype Decision =
    | Await(reader: Reader, port: Option<string>, link: MonitorLink.Link)
    | Close(after: After)
    | Launch(kind: Kind, events: seq<Event>)
    | Fire

  function Refuse(d: Desk, id: string, code: Code, detail: string): Decision {
    Await(Replying(id, Failure(code, detail)), d.port, d.link)
  }

  function Dispatch(d: Desk, id: string, req: Request): Decision {
    match req
    case ListBoards => Await(Listing(id), d.port, d.link)
    case Connect(port) =>
      if port == "" then Refuse(d, id, InvalidRequest, PORT_REQUIRED)
      else Await(Replying(id, Result("{}")), Some(port), d.link)
    case Disconnect => Close(Reply(id, true))
    case CloseMonitor => Close(Reply(id, false))
    case CompileSketch(refused, dirFault, events) =>
      if refused.Some? then Refuse(d, id, refused.value.code, refused.value.detail)
      else if TheSession !in d.scratch.owners && dirFault.Some? then Refuse(d, id, Io, dirFault.value)
      else Launch(Compile, events)
    case UploadArtifact(events) => Launch(Upload, events)
    case FlashFirmware(refused, events) =>
      if refused.Some? then Refuse(d, id, refused.value.code, refused.value.detail) else Launch(Flash, events)
    case InstallPlatform(refused, events) =>
      if refused.Some? then Refuse(d, id, refused.value.code, refused.value.detail) else Launch(Install, events)
    case OpenMonitor =>
      if d.monitor.Some? then Refuse(d, id, InvalidRequest, MONITOR_IS_OPEN)
      else Await(Opening(id), d.port, MonitorLink.Opened())
    case WriteMonitor(data) =>
      if d.monitor.None? then Refuse(d, id, InvalidRequest, NO_MONITOR)
      else Await(Writing(id, data), d.port, d.link)
    case Cancel => Fire
    case Malformed(detail) => Refuse(d, "", InvalidRequest, "malformed envelope: " + detail)
  }

  function Settle(d: Desk, id: string, decision: Decision): Desk {
    match decision
    case Await(reader, port, link) => d.(reader := reader, port := port, link := link)
    case Close(after) => BeginClose(d, after)
    case Launch(kind, events) =>
      Spawn(if kind.Compile? then d.(scratch := EnsureScratch(d.scratch)) else d, id, kind, events)
    case Fire => FireToken(d, id)
  }

  function Noted(d: Desk, id: string, req: Request): Desk {
    if BringsId(req) then d.(asked := d.asked[id := RoleOf(d, req)]) else d
  }

  // ---- steps that involve neither channel nor writer ------------------------------------------------------

  datatype Act =
    | Ask(id: string, req: Request)
    | BoardsBack(fault: Option<Fault>, payload: string)
    | PortUp(inbound: seq<MonitorEvent>)
    | PortRefused(code: Code, detail: string)
    | SendCommand
    | Joined
    | HangUp
    | Drain
    | Return
    | TaskMove(tid: nat, move: Move)
    | TaskLeave(tid: nat)
    | PumpPull
    | LinkPull
    | LinkDrop

  /** Once the token map is drained, no request is ever registered again. */
  predicate Drained(d: Desk) {
    d.reader.Awaiting? || d.reader.Returned?
  }

  predicate Can(d: Desk, act: Act) {
    match act
    case Ask(_, _) => d.reader.Reading?
    case BoardsBack(_, _) => d.reader.Listing?
    case PortUp(_) => d.reader.Opening?
    case PortRefused(_, _) => d.reader.Opening?
    case SendCommand => (d.reader.Writing? || d.reader.Closing?) && (!d.link.sender || MonitorLink.CanSend(d.link))
    case Joined => d.reader.Joining? && d.pump.None?
    case HangUp => d.reader.Reading?
    case Drain => d.reader.Draining?
    case Return => d.reader.Awaiting?
    case TaskMove(tid, move) => tid < |d.tasks| && CanMove(d.tasks[tid], move)
    case TaskLeave(tid) => tid < |d.tasks| && d.tasks[tid].pc.Ended?
    case PumpPull => d.pump.Some? && d.pump.value.pc.Pulling?
    case LinkPull => MonitorLink.CanPull(d.link)
    case LinkDrop => d.link.attached
  }

  function Command(d: Desk): MonitorLink.Command
    requires d.reader.Writing? || d.reader.Closing?
  {
    if d.reader.Writing? then MonitorLink.Write(d.reader.data) else MonitorLink.Close
  }

  /** The next inbound monitor event; the stream's end ends the pump. */
  function Pulled(p: Pump): Option<Pump> {
    if p.next >= |p.inbound| then None
    else
      var took := p.(next := p.next + 1);
      match p.inbound[p.next]
      case PortOpened => Some(took)
      case SerialData(text) => Some(took.(pc := Sending(MonitorData(text), false)))
      case PortError(message) => Some(took.(pc := Sending(Failure(Daemon, message), true)))
      case StreamError(detail) => Some(took.(pc := Sending(Failure(Grpc, detail), true)))
  }

  /** A task's end: deregister, then drop what it owns. */
  function Left(d: Desk, tid: nat): Desk
    requires tid < |d.tasks|
  {
    d.(tasks := d.tasks[tid := d.tasks[tid].(pc := Gone)],
       inFlight := d.inFlight - {d.tasks[tid].id},
       scratch := Released(d.scratch, TheTask(tid)),
       staged := d.staged - {tid})
  }

  /** Dropping one owner; the last one out removes the directory. */
  function Released(s: Scratch, owner: Owner): Scratch {
    var owners := s.owners - {owner};
    s.(owners := owners, removed := if owner in s.owners && owners == {} then s.removed + 1 else s.removed)
  }

  /** Every token still registered is fired. */
  function FireAll(tasks: seq<Task>, tokens: set<nat>): (out: seq<Task>)
    ensures |out| == |tasks|
    ensures forall t :: 0 <= t < |tasks| ==> out[t] == if t in tokens then Fired(tasks[t]) else tasks[t]
  {
    seq(|tasks|, t requires 0 <= t < |tasks| => if t in tokens then Fired(tasks[t]) else tasks[t])
  }

  function Acted(d: Desk, act: Act): Desk
    requires Can(d, act)
  {
    match act
    case Ask(id, req) =>
      Settle(Noted(d, id, req), id, Dispatch(d, id, req))
    case BoardsBack(fault, payload) =>
      d.(reader := Replying(d.reader.id,
                            if fault.Some? then Failure(fault.value.code, fault.value.detail) else Result(payload)))
    case PortUp(inbound) => d.(reader := Announcing(d.reader.id, inbound))
    case PortRefused(code, detail) =>
      d.(link := d.link.(attached := false, sender := false), reader := Replying(d.reader.id, Failure(code, detail)))
    case SendCommand =>
      var link := if d.link.sender then MonitorLink.Send(d.link, Command(d)) else d.link;
      if d.reader.Writing? then d.(link := link, reader := Reading)
      else d.(link := link.(sender := false), reader := Joining(d.reader.after))
    case Joined => AfterClose(d, d.reader.after)
    case HangUp => BeginClose(d, TearDown)
    case Drain => d.(tasks := FireAll(d.tasks, d.inFlight.Values), inFlight := map[], reader := Awaiting)
    case Return => d.(reader := Returned, scratch := Released(d.scratch, TheSession))
    case TaskMove(tid, move) => d.(tasks := d.tasks[tid := Moved(d.tasks[tid], move)])
    case TaskLeave(tid) => Left(d, tid)
    case PumpPull => d.(pump := Pulled(d.pump.value))
    case LinkPull => d.(link := MonitorLink.Pull(d.link))
    case LinkDrop => d.(link := d.link.(attached := false))
  }

  // ---- steps that put a response into the channel ---------------------------------------------------------

  datatype Speaker = TheReader | TaskNo(tid: nat) | ThePump

  predicate HasToSay(d: Desk, who: Speaker) {
    match who
    case TheReader => d.reader.Replying? || d.reader.Announcing?
    case TaskNo(tid) => tid < |d.tasks| && d.tasks[tid].pc.Holding?
    case ThePump => d.pump.Some? && d.pump.value.pc.Sending?
  }

  function Utterance(d: Desk, who: Speaker): Response
    requires HasToSay(d, who)
  {
    match who
    case TheReader =>
      (match d.reader
       case Replying(id, body) => Response(id, body)
       case Announcing(id, _) => Response(id, Result("{}")))
    case TaskNo(tid) => Response(d.tasks[tid].id, d.tasks[tid].pc.body)
    case ThePump => Response(d.pump.value.id, d.pump.value.pc.body)
  }

  function AfterSaying(d: Desk, who: Speaker): Desk
    requires HasToSay(d, who)
  {
    match who
    case TheReader =>
      (match d.reader
       case Replying(_, _) => d.(reader := Reading)
       // The pump is spawned, and the monitor installed, only after the reply is on its way.
       case Announcing(id, inbound) =>
         d.(reader := Reading, monitor := Some(id), pump := Some(Pump(id, inbound, 0, Pulling))))
    case TaskNo(tid) => d.(tasks := d.tasks[tid := Spoken(d.tasks[tid])])
    case ThePump =>
      if d.pump.value.pc.last then d.(pump := None) else d.(pump := Some(d.pump.value.(pc := Pulling)))
  }

  // ---- the channel and the writer -------------------------------------------------------------------------

  predicate ChannelOpen(w: Wire) {
    w.writer.status.Running?
  }

  /** A send completes when there is room, or at once with an error when the writer is gone. */
  predicate CanOffer(w: Wire) {
    ChannelOpen(w) ==> |w.queue| < RESPONSE_CHANNEL_CAPACITY
  }

  function Offered(w: Wire, r: Response): Wire {
    w.(offered := w.offered + [r], queue := if ChannelOpen(w) then w.queue + [r] else w.queue)
  }

  predicate NoSenders(d: Desk) {
    Drained(d) && d.pump.None? && forall t :: 0 <= t < |d.tasks| ==> d.tasks[t].pc.Gone?
  }

  /** One turn of the writer's biased select at time `now`. */
  predicate CanTurn(w: Wire, now: int, closed: bool) {
    ChannelOpen(w) && w.clock <= now && (WriterModel.Due(w.writer, now) || w.queue != [] || closed)
  }

  function Turned(w: Wire, now: int, closed: bool): Wire
    requires CanTurn(w, now, closed)
  {
    if WriterModel.Due(w.writer, now) then w.(writer := WriterModel.OnTick(w.writer), clock := now)
    else if w.queue != [] then
      w.(writer := WriterModel.OnMessage(w.writer, w.queue[0], now), queue := w.queue[1..],
         received := w.received + [w.queue[0]], clock := now)
    else w.(writer := WriterModel.OnClosed(w.writer), clock := now)
  }

  // ---- the whole session ----------------------------------------------------------------------------------

  datatype Step = Do(act: Act) | Say(who: Speaker) | WriterTurn(now: int)

  /** The browser's doing. */
  predicate IsRequest(step: Step) {
    step.Do? && (step.act.Ask? || step.act.HangUp?)
  }

  /** The daemon's doing: it answers a call, a stream of its yields or ends. */
  predicate IsDaemons(step: Step) {
    step.Do? &&
    match step.act
    case TaskMove(_, StartOk) => true
    case TaskMove(_, StartErr(_, _)) => true
    case TaskMove(_, Ready) => true
    case TaskMove(_, ReinitDone(_)) => true
    case BoardsBack(_, _) => true
    case PortUp(_) => true
    case PortRefused(_, _) => true
    case PumpPull => true
    case LinkDrop => true
    case _ => false
  }

  /** What the helper can do by itself. */
  predicate IsOwn(step: Step) {
    !IsRequest(step) && !IsDaemons(step)
  }

  ghost predicate Enabled(s: State, step: Step) {
    match step
    case Do(act) => Can(s.desk, act) && (act.Return? ==> !ChannelOpen(s.wire))
    case Say(who) => HasToSay(s.desk, who) && CanOffer(s.wire)
    case WriterTurn(now) => CanTurn(s.wire, now, NoSenders(s.desk))
  }

  ghost function Next(s: State, step: Step): State
    requires Enabled(s, step)
  {
    match step
    case Do(act) => s.(desk := Acted(s.desk, act))
    case Say(who) => State(AfterSaying(s.desk, who), Offered(s.wire, Utterance(s.desk, who)))
    case WriterTurn(now) => s.(wire := Turned(s.wire, now, NoSenders(s.desk)))
  }

  /** A request id is never empty and never used twice; a cancel names an earlier request. */
  predicate UsesFreshId(d: Desk, step: Step) {
    step.Do? && step.act.Ask? && BringsId(step.act.req) ==> step.act.id != "" && step.act.id !in d.asked
  }

  ghost predicate IsRun(s: State, steps: seq<Step>)
    decreases |steps|
  {
    steps == [] || (Enabled(s, steps[0]) && IsRun(Next(s, steps[0]), steps[1..]))
  }

  ghost function Final(s: State, steps: seq<Step>): State
    requires IsRun(s, steps)
    decreases |steps|
  {
    if steps == [] then s else Final(Next(s, steps[0]), steps[1..])
  }

  lemma RunCons(s: State, step: Step, steps: seq<Step>)
    requires Enabled(s, step) && IsRun(Next(s, step), steps)
    ensures IsRun(s, [step] + steps) && Final(s, [step] + steps) == Final(Next(s, step), steps)
  {
    assert ([step] + steps)[1..] == steps;
  }

  /** A run in which every request brings an id of its own. */
  ghost predicate IsFreshRun(s: State, steps: seq<Step>)
    decreases |steps|
  {
    steps == [] || (Enabled(s, steps[0]) && UsesFreshId(s.desk, steps[0]) && IsFreshRun(Next(s, steps[0]), steps[1..]))
  }
}
