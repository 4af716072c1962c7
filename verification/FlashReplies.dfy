/** What the read loop itself answers in a flash session: the right reply to each request it does not hand to a task, and
    the port it remembers. */
module FlashReplies {
  import opened Protocol
  import opened Batch
  import opened Conversation
  import opened Pumps
  import opened Tasks
  import opened FlashSession
  import opened FlashBookkeeping
  import opened FlashConversations
  import opened FlashTheorems
  import opened FlashOrigins
  import MonitorLink

  // ---- replies --------------------------------------------------------------------------------------------

  datatype Reply = Succeeds(payload: string) | Fails(code: Code, detail: string)

  ghost predicate Fits(body: Body, reply: Reply) {
    match reply
    case Succeeds(payload) => body == Result(payload)
    case Fails(code, detail) => Reports(body, code, detail)
  }

  /** What a request is owed from the moment it is dispatched, if that settles it. */
  function OwedAtOnce(d: Desk, req: Request): Option<Reply> {
    match req
    case Connect(port) => Some(if port == "" then Fails(InvalidRequest, PORT_REQUIRED) else Succeeds("{}"))
    case Disconnect => Some(Succeeds("{}"))
    case CloseMonitor => Some(Succeeds("{}"))
    case OpenMonitor => if d.monitor.Some? then Some(Fails(InvalidRequest, MONITOR_IS_OPEN)) else None
    case WriteMonitor(_) => if d.monitor.None? then Some(Fails(InvalidRequest, NO_MONITOR)) else None
    case CompileSketch(refused, dirFault, _) =>
      if refused.Some? then Some(Fails(refused.value.code, refused.value.detail))
      else if Passes(d, req) then None else Some(Fails(Io, dirFault.value))
    case FlashFirmware(refused, _) => if refused.Some? then Some(Fails(refused.value.code, refused.value.detail)) else None
    case InstallPlatform(refused, _) => if refused.Some? then Some(Fails(refused.value.code, refused.value.detail)) else None
    case _ => None
  }

  /** What the read loop owes `id`, read off the steps: settled at once, or by what the daemon answers. */
  function OwedBy(d: Desk, step: Step, id: string, before: Option<Reply>): Option<Reply> {
    if !step.Do? then before
    else
      match step.act
      case Ask(ask, req) => if ask == id && BringsId(req) then OwedAtOnce(d, req) else before
      case BoardsBack(fault, payload) =>
        if d.reader != Listing(id) then before
        else Some(if fault.Some? then Fails(fault.value.code, fault.value.detail) else Succeeds(payload))
      case PortRefused(code, detail) => if d.reader == Opening(id) then Some(Fails(code, detail)) else before
      case _ => before
  }

  ghost function Owed(s: State, steps: seq<Step>, id: string, before: Option<Reply>): Option<Reply>
    requires IsRun(s, steps)
    decreases |steps|
  {
    if steps == [] then before else Owed(Next(s, steps[0]), steps[1..], id, OwedBy(s.desk, steps[0], id, before))
  }

  /** The read loop is about to give `id` the reply. */
  ghost predicate Holds(r: Reader, reply: Reply) {
    match r
    case Replying(_, body) => Fits(body, reply)
    case Closing(_) => reply == Succeeds("{}")
    case Joining(_) => reply == Succeeds("{}")
    case _ => false
  }

  /** The reply owed is what the reader holds, or all that was said. */
  ghost predicate Pays(d: Desk, id: string, owed: Option<Reply>, said: seq<Body>) {
    match owed
    case None => ReaderId(d.reader) == Some(id) ==> !d.reader.Replying? && !d.reader.Closing? && !d.reader.Joining?
    case Some(reply) =>
      id in d.asked && id !in d.taskOf && (d.pump.Some? ==> d.pump.value.id != id) && PaysOwed(d.reader, id, reply, said)
  }

  ghost predicate PaysOwed(r: Reader, id: string, reply: Reply, said: seq<Body>) {
    if ReaderId(r) == Some(id) then said == [] && Holds(r, reply) else |said| == 1 && Fits(said[0], reply)
  }

  /** What dispatch makes the reader do with a request of its own. */
  lemma AskHolds(d: Desk, id: string, req: Request)
    requires d.reader.Reading? && BringsId(req)
    ensures var n := Settle(d, id, Dispatch(d, id, req));
      match OwedAtOnce(d, req)
      case None => ReaderId(n.reader) == Some(id) ==> !n.reader.Replying? && !n.reader.Closing? && !n.reader.Joining?
      case Some(reply) => ReaderId(n.reader) == Some(id) && Holds(n.reader, reply) && n.taskOf == d.taskOf
  {
    AllFail(d, req);
  }

  lemma AllFail(d: Desk, req: Request)
    ensures OwedAtOnce(d, req).Some? && OwedAtOnce(d, req).value.Fails? ==>
      var reply := OwedAtOnce(d, req).value;
      Fits(Failure(reply.code, reply.detail), reply)
  {
    if OwedAtOnce(d, req).Some? && OwedAtOnce(d, req).value.Fails? {
      FailureReports(OwedAtOnce(d, req).value.code, OwedAtOnce(d, req).value.detail);
    }
  }

  /** Dispatch does not look at what was asked before. */
  lemma NotingChangesNothing(d: Desk, id: string, req: Request)
    ensures Dispatch(Noted(d, id, req), id, req) == Dispatch(d, id, req)
    ensures OwedAtOnce(Noted(d, id, req), req) == OwedAtOnce(d, req)
  {
  }

  /** What is asked under another id touches neither this one's task nor its pump. */
  lemma OthersAsk(d: Desk, ask: string, req: Request, decision: Decision, id: string)
    requires d.reader.Reading? && Sensible(d, ask, req, decision) && id != "" && (ask != id || !BringsId(req))
    ensures var n := Settle(Noted(d, ask, req), ask, decision);
      && ReaderId(n.reader) != Some(id) && n.pump == d.pump
      && (id in n.asked <==> id in d.asked) && (id in n.taskOf <==> id in d.taskOf)
  {
  }

  lemma AskPays(d: Desk, ask: string, req: Request, id: string, owed: Option<Reply>, said: seq<Body>)
    requires Pays(d, id, owed, said) && d.reader.Reading? && id != ""
    requires ask == id && BringsId(req) ==> id !in d.taskOf && said == [] && (d.pump.Some? ==> d.pump.value.id != id)
    ensures Pays(Acted(d, Ask(ask, req)), id, OwedBy(d, Do(Ask(ask, req)), id, owed), said)
  {
    NotingChangesNothing(d, ask, req);
    if ask == id && BringsId(req) {
      AskHolds(Noted(d, ask, req), ask, req);
      PumpIsLeft(Noted(d, ask, req), ask, Dispatch(d, ask, req));
    } else {
      DispatchIsSensible(d, ask, req);
      OthersAsk(d, ask, req, Dispatch(d, ask, req), id);
    }
  }

  lemma PumpIsLeft(d: Desk, id: string, decision: Decision)
    ensures Settle(d, id, decision).pump == d.pump && Settle(d, id, decision).asked == d.asked
  {
  }

  /** The acts that neither ask nor settle a reply. */
  predicate IsPlainAct(act: Act) {
    !act.Ask? && !act.BoardsBack? && !act.PortRefused?
  }

  lemma PlainActPays(d: Desk, act: Act, id: string, owed: Option<Reply>, said: seq<Body>)
    requires Pays(d, id, owed, said) && Can(d, act) && IsPlainAct(act) && id != ""
    ensures Pays(Acted(d, act), id, owed, said)
  {
    if LeavesTasks(act) { TasksAreLeft(d, act); }
  }

  lemma ActPays(d: Desk, act: Act, id: string, owed: Option<Reply>, said: seq<Body>)
    requires Pays(d, id, owed, said) && Can(d, act) && id != ""
    requires ReaderId(d.reader) == Some(id) || (act.Ask? && act.id == id && BringsId(act.req)) ==>
      said == [] && id !in d.taskOf && (d.pump.Some? ==> d.pump.value.id != id)
    requires ReaderId(d.reader) == Some(id) ==> id in d.asked
    ensures Pays(Acted(d, act), id, OwedBy(d, Do(act), id, owed), said)
  {
    match act
    case Ask(ask, req) => AskPays(d, ask, req, id, owed, said);
    case BoardsBack(fault, payload) => if fault.Some? { FailureReports(fault.value.code, fault.value.detail); }
    case PortRefused(code, detail) => FailureReports(code, detail);
    case _ => PlainActPays(d, act, id, owed, said);
  }

  lemma SayPays(d: Desk, who: Speaker, id: string, owed: Option<Reply>, said: seq<Body>)
    requires Pays(d, id, owed, said) && HasToSay(d, who) && id != "" && Roster(d.tasks, d.taskOf, d.asked)
    ensures var r := Utterance(d, who);
      Pays(AfterSaying(d, who), id, owed, if r.id == id then said + [r.body] else said)
  {
    if who.TaskNo? { assert d.tasks[who.tid].id in d.taskOf; }
  }

  /** A request the reader is busy with, or is just being asked, has been told nothing yet. */
  lemma BusyIsSilent(d: Desk, offered: seq<Response>, id: string)
    requires Roster(d.tasks, d.taskOf, d.asked) && ReaderOk(d) && MonitorOk(d) && Conversing(d, offered) && id != ""
    requires ReaderId(d.reader) == Some(id) || id !in d.asked
    ensures Under(offered, id) == [] && id !in d.taskOf && (d.pump.Some? ==> d.pump.value.id != id)
    ensures ReaderId(d.reader) == Some(id) ==> id in d.asked
  {
    assert Allows(StandingOf(d, id), Heard(offered, id));
    PhaseStreaming(Under(offered, id));
  }

  lemma StepPays(s: State, step: Step, id: string, owed: Option<Reply>)
    requires SessionOk(s) && Enabled(s, step) && UsesFreshId(s.desk, step) && id != ""
    requires Pays(s.desk, id, owed, Under(s.wire.offered, id))
    ensures Pays(Next(s, step).desk, id, OwedBy(s.desk, step, id, owed), Under(Next(s, step).wire.offered, id))
  {
    match step
    case Do(act) =>
      if ReaderId(s.desk.reader) == Some(id) || id !in s.desk.asked { BusyIsSilent(s.desk, s.wire.offered, id); }
      ActPays(s.desk, act, id, owed, Under(s.wire.offered, id));
    case Say(who) =>
      SayPays(s.desk, who, id, owed, Under(s.wire.offered, id));
      UnderSnoc(s.wire.offered, Utterance(s.desk, who), id);
    case WriterTurn(_) =>
  }

  lemma {:induction false} RunPays(s: State, steps: seq<Step>, id: string, owed: Option<Reply>)
    requires SessionOk(s) && IsFreshRun(s, steps) && id != "" && Pays(s.desk, id, owed, Under(s.wire.offered, id))
    ensures IsRun(s, steps)
    ensures Pays(Final(s, steps).desk, id, Owed(s, steps, id, owed), Under(Final(s, steps).wire.offered, id))
    decreases |steps|
  {
    if steps != [] {
      StepKeepsSession(s, steps[0]);
      StepPays(s, steps[0], id, owed);
      RunPays(Next(s, steps[0]), steps[1..], id, OwedBy(s.desk, steps[0], id, owed));
    }
  }

  /** The wire carries this one reply under `id`. */
  ghost predicate IsPaid(s: State, id: string, reply: Reply) {
    |Under(s.wire.writer.sent, id)| == 1 && Fits(Under(s.wire.writer.sent, id)[0], reply)
  }

  lemma AloneStaysAlone(id: string, body: Body, coarse: seq<Body>)
    requires IsTerminal(body) && Coarsens(Stamp(id, [body]), Stamp(id, coarse))
    ensures coarse == [body]
  {
    var fine, out := Stamp(id, [body]), Stamp(id, coarse);
    assert Front(fine) == [] && Last(fine) == Response(id, body);
    assert Alone(fine, out) && Coarsens([], Front(out));
    assert Front(out) == [] && Last(out) == Response(id, body);
  }

  /** Over any run the read loop gives each request that it answers itself the reply that is right for it: what was wrong
      with it, what the daemon made of it, or that it is done; and once the writer has finished well that reply, alone,
      is on the wire. */
  lemma RepliesAreRight(accepts: nat, steps: seq<Step>, id: string)
    requires IsFreshRun(Fresh(accepts), steps) && id != ""
    ensures IsRun(Fresh(accepts), steps)
    ensures var s := Final(Fresh(accepts), steps);
      var owed := Owed(Fresh(accepts), steps, id, None);
      && Pays(s.desk, id, owed, Under(s.wire.offered, id))
      && (owed.Some? && s.wire.writer.status.Done? ==> IsPaid(s, id, owed.value))
  {
    FreshIsOk(accepts);
    RunPays(Fresh(accepts), steps, id, None);
    RunKeepsClosed(Fresh(accepts), steps);
    var s := Final(Fresh(accepts), steps);
    if Owed(Fresh(accepts), steps, id, None).Some? && s.wire.writer.status.Done? {
      PaidOnTheWire(s, id, Owed(Fresh(accepts), steps, id, None).value);
    }
  }

  lemma PaidOnTheWire(s: State, id: string, reply: Reply)
    requires Closed(s) && SessionOk(s) && s.wire.writer.status.Done?
    requires PaysOwed(s.desk.reader, id, reply, Under(s.wire.offered, id))
    ensures IsPaid(s, id, reply)
  {
    var rest := SentUnder(s.wire, id);
    var said := Under(s.wire.offered, id);
    assert Under(s.wire.writer.sent, id) + rest == Under(s.wire.writer.sent, id);
    assert said == [said[0]];
    AloneStaysAlone(id, said[0], Under(s.wire.writer.sent, id));
  }

  // ---- the port -------------------------------------------------------------------------------------------

  /** The port chosen last and not given up since, read off the steps. */
  function ChosenBy(step: Step, before: Option<string>): Option<string> {
    if !step.Do? || !step.act.Ask? then before
    else
      match step.act.req
      case Connect(port) => if port == "" then before else Some(port)
      case Disconnect => None
      case _ => before
  }

  function Chosen(steps: seq<Step>, before: Option<string>): Option<string> {
    if steps == [] then before else Chosen(steps[1..], ChosenBy(steps[0], before))
  }

  /** A disconnect that still waits for its monitor to close has yet to give up the port. */
  predicate IsDisconnecting(r: Reader) {
    (r.Closing? || r.Joining?) && r.after.Reply? && r.after.clearsPort
  }

  predicate Remembers(d: Desk, chosen: Option<string>) {
    if IsDisconnecting(d.reader) then chosen.None? else d.port == chosen
  }

  lemma ActRemembers(d: Desk, act: Act, chosen: Option<string>)
    requires Remembers(d, chosen) && Can(d, act)
    ensures Remembers(Acted(d, act), ChosenBy(Do(act), chosen))
  {
    if act.Ask? { AskRemembers(d, act.id, act.req, chosen); }
  }

  lemma AskRemembers(d: Desk, id: string, req: Request, chosen: Option<string>)
    requires Remembers(d, chosen) && d.reader.Reading?
    ensures Remembers(Acted(d, Ask(id, req)), ChosenBy(Do(Ask(id, req)), chosen))
  {
  }

  lemma {:induction false} RunRemembers(s: State, steps: seq<Step>, chosen: Option<string>)
    requires IsRun(s, steps) && Remembers(s.desk, chosen)
    ensures Remembers(Final(s, steps).desk, Chosen(steps, chosen))
    decreases |steps|
  {
    if steps != [] {
      if steps[0].Do? { ActRemembers(s.desk, steps[0].act, chosen); }
      RunRemembers(Next(s, steps[0]), steps[1..], ChosenBy(steps[0], chosen));
    }
  }

  /** Over any run the session remembers the port connected last, and none after a disconnect. */
  lemma ThePortIsTheLastChosen(accepts: nat, steps: seq<Step>)
    requires IsRun(Fresh(accepts), steps)
    ensures Remembers(Final(Fresh(accepts), steps).desk, Chosen(steps, None))
  {
    RunRemembers(Fresh(accepts), steps, None);
  }

  // ---- messages without an id -----------------------------------------------------------------------------

  function GarbledBy(step: Step, before: seq<string>): seq<string> {
    if step.Do? && step.act.Ask? && step.act.req.Malformed? then before + [step.act.req.detail] else before
  }

  function Garbled(steps: seq<Step>, before: seq<string>): seq<string> {
    if steps == [] then before else Garbled(steps[1..], GarbledBy(steps[0], before))
  }

  /** The first `n` malformed messages were each refused with what was wrong with them. */
  ghost predicate Refuses(said: seq<Body>, garbled: seq<string>, n: nat) {
    |said| == n <= |garbled| && forall i :: 0 <= i < n ==> Reports(said[i], InvalidRequest, garbled[i])
  }

  ghost predicate RefusesGarbled(d: Desk, garbled: seq<string>, said: seq<Body>) {
    if ReaderId(d.reader) == Some("") then
      d.reader.Replying? && garbled != [] && Reports(d.reader.body, InvalidRequest, Last(garbled)) && Refuses(said, garbled, |garbled| - 1)
    else Refuses(said, garbled, |garbled|)
  }

  lemma AskRefuses(d: Desk, id: string, req: Request, garbled: seq<string>, said: seq<Body>)
    requires RefusesGarbled(d, garbled, said) && d.reader.Reading? && (BringsId(req) ==> id != "")
    ensures RefusesGarbled(Acted(d, Ask(id, req)), GarbledBy(Do(Ask(id, req)), garbled), said)
  {
    DispatchIsSensible(d, id, req);
    AskTurnsTo(d, id, req, Dispatch(d, id, req));
    if req.Malformed? {
      var text := "malformed envelope: " + req.detail;
      FailureReports(InvalidRequest, text);
      SuffixOfSuffix(Failure(InvalidRequest, text).message, text, req.detail);
    }
  }

  lemma SuffixOfSuffix(a: string, b: string, c: string)
    requires |c| <= |b| <= |a| && a[|a| - |b|..] == b && b[|b| - |c|..] == c
    ensures a[|a| - |c|..] == c
  {
    assert a[|a| - |c|..] == a[|a| - |b|..][|b| - |c|..];
  }

  lemma AskTurnsTo(d: Desk, id: string, req: Request, decision: Decision)
    requires d.reader.Reading? && decision == Dispatch(d, id, req)
    ensures var n := Settle(Noted(d, id, req), id, decision);
      if req.Malformed? then n.reader == Replying("", Failure(InvalidRequest, "malformed envelope: " + req.detail))
      else BringsId(req) && id != "" ==> ReaderId(n.reader) in {None, Some(id)}
    ensures req.Cancel? ==> Settle(Noted(d, id, req), id, decision).reader == d.reader
  {
  }

  lemma ActRefuses(d: Desk, act: Act, garbled: seq<string>, said: seq<Body>)
    requires RefusesGarbled(d, garbled, said) && Can(d, act) && UsesFreshId(d, Do(act))
    ensures RefusesGarbled(Acted(d, act), GarbledBy(Do(act), garbled), said)
  {
    if act.Ask? { AskRefuses(d, act.id, act.req, garbled, said); }
  }

  lemma SayRefuses(d: Desk, who: Speaker, garbled: seq<string>, said: seq<Body>)
    requires RefusesGarbled(d, garbled, said) && HasToSay(d, who) && Roster(d.tasks, d.taskOf, d.asked) && MonitorOk(d)
    ensures var r := Utterance(d, who);
      RefusesGarbled(AfterSaying(d, who), garbled, if r.id == "" then said + [r.body] else said)
  {
  }

  lemma {:induction false} RunRefuses(s: State, steps: seq<Step>, garbled: seq<string>)
    requires SessionOk(s) && IsFreshRun(s, steps) && RefusesGarbled(s.desk, garbled, Under(s.wire.offered, ""))
    ensures IsRun(s, steps)
    ensures RefusesGarbled(Final(s, steps).desk, Garbled(steps, garbled), Under(Final(s, steps).wire.offered, ""))
    decreases |steps|
  {
    if steps != [] {
      StepKeepsSession(s, steps[0]);
      match steps[0] {
        case Do(act) => ActRefuses(s.desk, act, garbled, Under(s.wire.offered, ""));
        case Say(who) =>
          SayRefuses(s.desk, who, garbled, Under(s.wire.offered, ""));
          UnderSnoc(s.wire.offered, Utterance(s.desk, who), "");
        case WriterTurn(_) =>
      }
      RunRefuses(Next(s, steps[0]), steps[1..], GarbledBy(steps[0], garbled));
    }
  }

  /** Over any run the empty id is told of each malformed message, in order, what was wrong with it, and nothing else. */
  lemma GarbledMessagesAreRefused(accepts: nat, steps: seq<Step>)
    requires IsFreshRun(Fresh(accepts), steps)
    ensures IsRun(Fresh(accepts), steps)
    ensures var s := Final(Fresh(accepts), steps); RefusesGarbled(s.desk, Garbled(steps, []), Under(s.wire.offered, ""))
  {
    FreshIsOk(accepts);
    RunRefuses(Fresh(accepts), steps, []);
  }
}
