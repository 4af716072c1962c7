/** What passes through a serial monitor: everything the daemon sends reaches the browser as it came, and everything the
    browser writes reaches the daemon, in order. */
module FlashSerial {
  import opened Protocol
  import opened Batch
  import opened Conversation
  import opened Frames
  import opened Pumps
  import opened Tasks
  import opened FlashSession
  import opened FlashBookkeeping
  import opened FlashConversations
  import opened FlashTheorems
  import opened FlashMonitor
  import MonitorLink

  // ---- inbound --------------------------------------------------------------------------------------------

  predicate IsFault(e: MonitorEvent) {
    e.PortError? || e.StreamError?
  }

  /** What a browser is to be told of one event from an open port. */
  function Shown(e: MonitorEvent): seq<Body> {
    match e
    case PortOpened => []
    case SerialData(text) => [MonitorData(text)]
    case PortError(message) => [Failure(Daemon, message)]
    case StreamError(detail) => [Failure(Grpc, detail)]
  }

  /** What it is to be told of all that comes in: every event in order, up to and including the first fault. */
  function Transcript(inbound: seq<MonitorEvent>): seq<Body> {
    if inbound == [] then []
    else Shown(inbound[0]) + if IsFault(inbound[0]) then [] else Transcript(inbound[1..])
  }

  ghost predicate FaultFree(inbound: seq<MonitorEvent>) {
    forall i :: 0 <= i < |inbound| ==> !IsFault(inbound[i])
  }

  lemma {:induction false} TranscriptOf(a: seq<MonitorEvent>, b: seq<MonitorEvent>)
    requires FaultFree(a)
    ensures Transcript(a + b) == Transcript(a) + Transcript(b)
  {
    if a == [] {
      assert a + b == b;
    } else {
      assert (a + b)[1..] == a[1..] + b;
      calc {
        Transcript(a + b);
      ==
        Shown(a[0]) + Transcript(a[1..] + b);
      ==  { TranscriptOf(a[1..], b); }
        Shown(a[0]) + (Transcript(a[1..]) + Transcript(b));
      ==  { Associative(Shown(a[0]), Transcript(a[1..]), Transcript(b)); }
        (Shown(a[0]) + Transcript(a[1..])) + Transcript(b);
      }
    }
  }

  /** One more event. */
  lemma TranscriptNext(inbound: seq<MonitorEvent>, n: nat)
    requires n < |inbound| && FaultFree(inbound[..n])
    ensures Transcript(inbound[..n + 1]) == Transcript(inbound[..n]) + Shown(inbound[n])
    ensures !IsFault(inbound[n]) ==> FaultFree(inbound[..n + 1])
    ensures IsFault(inbound[n]) ==> Transcript(inbound) == Transcript(inbound[..n]) + Shown(inbound[n])
  {
    var before, event, rest := inbound[..n], inbound[n], inbound[n + 1..];
    SplitAt(inbound, n);
    TranscriptSnoc(before, event);
    if IsFault(event) { TranscriptFault(before, event, rest); } else { StaysFaultFree(before, event); }
  }

  lemma SplitAt<T>(s: seq<T>, n: nat)
    requires n < |s|
    ensures s[..n + 1] == s[..n] + [s[n]] && s == s[..n] + ([s[n]] + s[n + 1..])
  {
  }

  lemma StaysFaultFree(before: seq<MonitorEvent>, event: MonitorEvent)
    requires FaultFree(before) && !IsFault(event)
    ensures FaultFree(before + [event])
  {
  }

  lemma TranscriptSnoc(before: seq<MonitorEvent>, event: MonitorEvent)
    requires FaultFree(before)
    ensures Transcript(before + [event]) == Transcript(before) + Shown(event)
  {
    calc {
      Transcript(before + [event]);
    ==  { TranscriptOf(before, [event]); }
      Transcript(before) + Transcript([event]);
    ==  { OneEvent(event); }
      Transcript(before) + Shown(event);
    }
  }

  lemma TranscriptFault(before: seq<MonitorEvent>, event: MonitorEvent, rest: seq<MonitorEvent>)
    requires FaultFree(before) && IsFault(event)
    ensures Transcript(before + ([event] + rest)) == Transcript(before) + Shown(event)
  {
    calc {
      Transcript(before + ([event] + rest));
    ==  { TranscriptOf(before, [event] + rest); }
      Transcript(before) + Transcript([event] + rest);
    ==  { assert ([event] + rest)[0] == event && Shown(event) + [] == Shown(event); }
      Transcript(before) + Shown(event);
    }
  }

  lemma OneEvent(event: MonitorEvent)
    ensures Transcript([event]) == Shown(event)
  {
    assert [event][1..] == [] && Shown(event) + [] == Shown(event);
  }

  const OPENED: Body := Result("{}")

  /** How far the pump has got with telling. */
  ghost predicate PumpTells(p: Pump, inbound: seq<MonitorEvent>, said: seq<Body>) {
    && p.inbound == inbound && p.next <= |inbound|
    && match p.pc
       case Pulling => FaultFree(inbound[..p.next]) && said == [OPENED] + Transcript(inbound[..p.next])
       case Sending(body, last) =>
         && p.next > 0 && FaultFree(inbound[..p.next - 1]) && said == [OPENED] + Transcript(inbound[..p.next - 1])
         && Shown(inbound[p.next - 1]) == [body] && last == IsFault(inbound[p.next - 1])
  }

  predicate HasPump(d: Desk, id: string) {
    d.pump.Some? && d.pump.value.id == id
  }

  predicate Announces(d: Desk, id: string) {
    d.reader.Announcing? && d.reader.id == id
  }

  /** `brought` is what the port opened under `id` sends, if one was opened; `said` what `id` was told. */
  ghost predicate Relays(d: Desk, id: string, brought: Option<seq<MonitorEvent>>, said: seq<Body>) {
    match brought
    case None => !Announces(d, id) && !HasPump(d, id)
    case Some(inbound) =>
      id in d.asked && d.asked[id].Opener? && RelaysOpened(d, id, inbound, said)
  }

  ghost predicate RelaysOpened(d: Desk, id: string, inbound: seq<MonitorEvent>, said: seq<Body>) {
    if Announces(d, id) then d.reader.inbound == inbound && said == [] && !HasPump(d, id)
    else if ReaderId(d.reader) == Some(id) then false
    else if HasPump(d, id) then PumpTells(d.pump.value, inbound, said)
    else said == [OPENED] + Transcript(inbound)
  }

  /** What the port opened under `id` brings, read off the steps themselves. */
  ghost function Brought(s: State, steps: seq<Step>, id: string, before: Option<seq<MonitorEvent>>): Option<seq<MonitorEvent>>
    requires IsRun(s, steps)
    decreases |steps|
  {
    if steps == [] then before else Brought(Next(s, steps[0]), steps[1..], id, BroughtBy(s.desk, steps[0], id, before))
  }

  function BroughtBy(d: Desk, step: Step, id: string, before: Option<seq<MonitorEvent>>): Option<seq<MonitorEvent>> {
    if step.Do? && step.act.PortUp? && d.reader == Opening(id) then Some(step.act.inbound) else before
  }

  lemma AskRelays(d: Desk, ask: string, req: Request, id: string, brought: Option<seq<MonitorEvent>>, said: seq<Body>)
    requires Relays(d, id, brought, said) && d.reader.Reading? && id != ""
    requires BringsId(req) ==> ask !in d.asked
    ensures Relays(Acted(d, Ask(ask, req)), id, brought, said)
  {
    DispatchIsSensible(d, ask, req);
    AskLeavesMonitor(d, ask, req, Dispatch(d, ask, req));
  }

  /** Whatever is asked, the pump goes on, and the reader is busy with that request or with none. */
  lemma AskLeavesMonitor(d: Desk, id: string, req: Request, decision: Decision)
    requires d.reader.Reading? && Sensible(d, id, req, decision)
    ensures var n := Settle(Noted(d, id, req), id, decision);
      && n.pump == d.pump && !n.reader.Announcing?
      && (ReaderId(n.reader) in {None, Some("")} || (BringsId(req) && ReaderId(n.reader) == Some(id)))
      && n.asked == Noted(d, id, req).asked
  {
  }

  lemma PumpPullTells(p: Pump, inbound: seq<MonitorEvent>, said: seq<Body>)
    requires p.pc.Pulling? && PumpTells(p, inbound, said)
    ensures match Pulled(p)
      case None => said == [OPENED] + Transcript(inbound)
      case Some(n) => n.id == p.id && PumpTells(n, inbound, said)
  {
    if p.next < |inbound| { PullTells(p, inbound, said); } else { assert inbound[..p.next] == inbound; }
  }

  lemma PullTells(p: Pump, inbound: seq<MonitorEvent>, said: seq<Body>)
    requires p.pc.Pulling? && PumpTells(p, inbound, said) && p.next < |inbound|
    ensures Pulled(p).Some? && Pulled(p).value.id == p.id && PumpTells(Pulled(p).value, inbound, said)
  {
    if inbound[p.next].PortOpened? { DuplicateOpenTells(inbound, p.next); }
  }

  /** A duplicate confirmation is told to nobody. */
  lemma DuplicateOpenTells(inbound: seq<MonitorEvent>, n: nat)
    requires n < |inbound| && FaultFree(inbound[..n]) && inbound[n].PortOpened?
    ensures FaultFree(inbound[..n + 1]) && Transcript(inbound[..n + 1]) == Transcript(inbound[..n])
  {
    TranscriptNext(inbound, n);
    assert Transcript(inbound[..n]) + [] == Transcript(inbound[..n]);
  }

  lemma PumpSendTells(p: Pump, inbound: seq<MonitorEvent>, said: seq<Body>)
    requires p.pc.Sending? && PumpTells(p, inbound, said)
    ensures p.pc.last ==> said + [p.pc.body] == [OPENED] + Transcript(inbound)
    ensures !p.pc.last ==> PumpTells(p.(pc := Pulling), inbound, said + [p.pc.body])
  {
    TranscriptNext(inbound, p.next - 1);
    assert said + [p.pc.body] == [OPENED] + (Transcript(inbound[..p.next - 1]) + [p.pc.body]);
  }

  lemma ActRelays(d: Desk, act: Act, id: string, brought: Option<seq<MonitorEvent>>, said: seq<Body>)
    requires Relays(d, id, brought, said) && Can(d, act) && UsesFreshId(d, Do(act)) && id != ""
    requires act.PortUp? && d.reader == Opening(id) ==> id in d.asked && d.asked[id].Opener? && said == [] && !HasPump(d, id)
    ensures Relays(Acted(d, act), id, BroughtBy(d, Do(act), id, brought), said)
  {
    match act
    case Ask(ask, req) => AskRelays(d, ask, req, id, brought, said);
    case PumpPull => if HasPump(d, id) && brought.Some? && !Announces(d, id) { PumpPullTells(d.pump.value, brought.value, said); }
    case PortUp(_) =>
    case _ => ActLeavesMonitor(d, act);
  }

  /** The other acts leave the pump alone and the reader where it was, or busy with the same request, or with none. */
  lemma ActLeavesMonitor(d: Desk, act: Act)
    requires Can(d, act) && !act.Ask? && !act.PumpPull? && !act.PortUp?
    ensures var n := Acted(d, act);
      && n.pump == d.pump && n.asked == d.asked && (n.reader == d.reader || !n.reader.Announcing?)
      && (d.reader.Announcing? ==> n.reader == d.reader)
      && (ReaderId(n.reader) == ReaderId(d.reader) || ReaderId(n.reader).None?)
  {
  }

  lemma SayRelays(d: Desk, who: Speaker, id: string, brought: Option<seq<MonitorEvent>>, said: seq<Body>)
    requires Relays(d, id, brought, said) && HasToSay(d, who) && id != ""
    requires Roster(d.tasks, d.taskOf, d.asked) && MonitorOk(d)
    ensures var r := Utterance(d, who);
      Relays(AfterSaying(d, who), id, brought, if r.id == id then said + [r.body] else said)
  {
    match who
    case TheReader => ReaderSayRelays(d, id, brought, said);
    case TaskNo(tid) => assert d.tasks[tid].id in d.asked && d.asked[d.tasks[tid].id].Spawner?;
    case ThePump => if HasPump(d, id) && brought.Some? && !Announces(d, id) { PumpSendTells(d.pump.value, brought.value, said); }
  }

  lemma ReaderSayRelays(d: Desk, id: string, brought: Option<seq<MonitorEvent>>, said: seq<Body>)
    requires Relays(d, id, brought, said) && HasToSay(d, TheReader) && id != "" && MonitorOk(d)
    ensures var r := Utterance(d, TheReader);
      Relays(AfterSaying(d, TheReader), id, brought, if r.id == id then said + [r.body] else said)
  {
    if Announces(d, id) && brought.Some? {
      assert brought.value[..0] == [] && [] + [OPENED] == [OPENED] && [OPENED] + [] == [OPENED];
    }
  }

  lemma StepRelays(s: State, step: Step, id: string, brought: Option<seq<MonitorEvent>>)
    requires SessionOk(s) && Enabled(s, step) && UsesFreshId(s.desk, step) && id != ""
    requires Relays(s.desk, id, brought, Under(s.wire.offered, id))
    ensures Relays(Next(s, step).desk, id, BroughtBy(s.desk, step, id, brought), Under(Next(s, step).wire.offered, id))
  {
    match step
    case Do(act) =>
      if act.PortUp? && s.desk.reader == Opening(id) { OpeningIsSilent(s.desk, s.wire.offered, id); }
      ActRelays(s.desk, act, id, brought, Under(s.wire.offered, id));
    case Say(who) =>
      SayRelays(s.desk, who, id, brought, Under(s.wire.offered, id));
      UnderSnoc(s.wire.offered, Utterance(s.desk, who), id);
    case WriterTurn(_) =>
  }

  lemma OpeningIsSilent(d: Desk, offered: seq<Response>, id: string)
    requires DeskOk(d) && Conversing(d, offered) && d.reader == Opening(id) && id != ""
    ensures Under(offered, id) == [] && id in d.asked && d.asked[id].Opener? && !HasPump(d, id)
  {
    assert Allows(StandingOf(d, id), Heard(offered, id));
    PhaseStreaming(Under(offered, id));
  }

  lemma {:induction false} RunRelays(s: State, steps: seq<Step>, id: string, brought: Option<seq<MonitorEvent>>)
    requires SessionOk(s) && IsFreshRun(s, steps) && id != ""
    requires Relays(s.desk, id, brought, Under(s.wire.offered, id))
    ensures IsRun(s, steps)
    ensures Relays(Final(s, steps).desk, id, Brought(s, steps, id, brought), Under(Final(s, steps).wire.offered, id))
    decreases |steps|
  {
    if steps != [] {
      StepKeepsSession(s, steps[0]);
      StepRelays(s, steps[0], id, brought);
      RunRelays(Next(s, steps[0]), steps[1..], id, BroughtBy(s.desk, steps[0], id, brought));
    }
  }

  /** What the browser has on the wire under `id` is the reply to its monitorOpen and then all that came in. */
  ghost predicate HeardAll(s: State, id: string, inbound: seq<MonitorEvent>) {
    Coarsens(Stamp(id, [OPENED] + Transcript(inbound)), Stamp(id, Under(s.wire.writer.sent, id)))
  }

  /** Over any run, a monitor's id is told its `result` and then everything its port sends, untouched and in order, up
      to the first fault; and once the writer has finished well that is what is on the wire, chunks glued. */
  lemma MonitorsRelayWhatComesIn(accepts: nat, steps: seq<Step>, id: string)
    requires IsFreshRun(Fresh(accepts), steps) && id != ""
    ensures IsRun(Fresh(accepts), steps)
    ensures var s := Final(Fresh(accepts), steps);
      var brought := Brought(Fresh(accepts), steps, id, None);
      && Relays(s.desk, id, brought, Under(s.wire.offered, id))
      && (brought.Some? && s.wire.writer.status.Done? ==> HeardAll(s, id, brought.value))
  {
    FreshIsOk(accepts);
    RunRelays(Fresh(accepts), steps, id, None);
    RunKeepsClosed(Fresh(accepts), steps);
    var s := Final(Fresh(accepts), steps);
    if s.wire.writer.status.Done? {
      var rest := SentUnder(s.wire, id);
      assert Under(s.wire.writer.sent, id) + rest == Under(s.wire.writer.sent, id);
    }
  }

  // ---- outbound -------------------------------------------------------------------------------------------

  /** The data written to the monitor opened last, read off the requests themselves. */
  function WrittenBy(d: Desk, step: Step, before: seq<string>): seq<string> {
    if !step.Do? || !step.act.Ask? then before
    else
      match step.act.req
      case OpenMonitor => if d.monitor.None? then [] else before
      case WriteMonitor(data) => if d.monitor.Some? then before + [data] else before
      case _ => before
  }

  ghost function Written(s: State, steps: seq<Step>, before: seq<string>): seq<string>
    requires IsRun(s, steps)
    decreases |steps|
  {
    if steps == [] then before else Written(Next(s, steps[0]), steps[1..], WrittenBy(s.desk, steps[0], before))
  }

  /** Every write asked for has been accepted, in order, but for the one being made; when the monitor's stream has gone
      the later ones may be missing. */
  ghost predicate Accepts(d: Desk, written: seq<string>) {
    && (d.reader.Writing? ==> written != [] && Last(written) == d.reader.data)
    && var made := if d.reader.Writing? then Front(written) else written;
      MonitorLink.Data(d.link.accepted) <= made && (d.link.attached ==> MonitorLink.Data(d.link.accepted) == made)
  }

  lemma AskAccepts(d: Desk, id: string, req: Request, written: seq<string>)
    requires Accepts(d, written) && MonitorOk(d) && d.reader.Reading?
    ensures Accepts(Acted(d, Ask(id, req)), WrittenBy(d, Do(Ask(id, req)), written))
  {
    if req.WriteMonitor? { assert Front(written + [req.data]) == written; }
    AskAcceptsBy(d, id, req, Dispatch(d, id, req));
  }

  lemma AskAcceptsBy(d: Desk, id: string, req: Request, decision: Decision)
    requires d.reader.Reading? && decision == Dispatch(d, id, req)
    ensures var n := Settle(Noted(d, id, req), id, decision);
      && n.link == (if req.OpenMonitor? && d.monitor.None? then MonitorLink.Opened() else d.link)
      && n.reader.Writing? == (req.WriteMonitor? && d.monitor.Some?)
      && (n.reader.Writing? ==> n.reader.data == req.data)
  {
  }

  lemma SendAccepts(d: Desk, written: seq<string>)
    requires Accepts(d, written) && MonitorOk(d) && Can(d, SendCommand)
    ensures Accepts(Acted(d, SendCommand), written)
  {
    MonitorLink.DataSnoc(d.link.accepted, Command(d));
    if d.reader.Writing? { assert Front(written) + [Last(written)] == written; }
  }

  lemma ActAccepts(d: Desk, act: Act, written: seq<string>)
    requires Accepts(d, written) && MonitorOk(d) && Can(d, act)
    ensures Accepts(Acted(d, act), WrittenBy(d, Do(act), written))
  {
    match act
    case Ask(id, req) => AskAccepts(d, id, req, written);
    case SendCommand => SendAccepts(d, written);
    case _ =>
  }

  lemma StepAccepts(s: State, step: Step, written: seq<string>)
    requires MonitorOk(s.desk) && Accepts(s.desk, written) && Enabled(s, step)
    ensures Accepts(Next(s, step).desk, WrittenBy(s.desk, step, written))
  {
    if step.Do? { ActAccepts(s.desk, step.act, written); }
  }

  lemma {:induction false} RunAccepts(s: State, steps: seq<Step>, written: seq<string>)
    requires SessionOk(s) && IsFreshRun(s, steps) && Accepts(s.desk, written)
    ensures IsRun(s, steps) && Accepts(Final(s, steps).desk, Written(s, steps, written))
    decreases |steps|
  {
    if steps != [] {
      StepKeepsSession(s, steps[0]);
      StepAccepts(s, steps[0], written);
      RunAccepts(Next(s, steps[0]), steps[1..], WrittenBy(s.desk, steps[0], written));
    }
  }

  // ---- the close ------------------------------------------------------------------------------------------

  /** Whether the session has let go of the port opened last while its stream was alive, read off the steps. */
  function LetGoBy(d: Desk, step: Step, before: bool): bool {
    if !step.Do? then before
    else
      match step.act
      case Ask(_, OpenMonitor) => if d.monitor.None? then false else before
      case SendCommand => if d.reader.Closing? then d.link.attached else before
      case _ => before
  }

  ghost function LetGo(s: State, steps: seq<Step>, before: bool): bool
    requires IsRun(s, steps)
    decreases |steps|
  {
    if steps == [] then before else LetGo(Next(s, steps[0]), steps[1..], LetGoBy(s.desk, steps[0], before))
  }

  predicate EndsInClose(l: MonitorLink.Link) {
    !l.sender && l.accepted != [] && Last(l.accepted).Close?
  }

  /** The session lets go of a living stream only with a close. */
  ghost predicate Closes(d: Desk, letGo: bool) {
    letGo || (!d.link.sender && d.link.attached) ==> EndsInClose(d.link)
  }

  lemma AskCloses(d: Desk, id: string, req: Request, letGo: bool)
    requires Closes(d, letGo) && d.reader.Reading?
    ensures Closes(Acted(d, Ask(id, req)), LetGoBy(d, Do(Ask(id, req)), letGo))
  {
    AskAcceptsBy(d, id, req, Dispatch(d, id, req));
  }

  lemma StepCloses(s: State, step: Step, letGo: bool)
    requires MonitorOk(s.desk) && Closes(s.desk, letGo) && Enabled(s, step)
    ensures Closes(Next(s, step).desk, LetGoBy(s.desk, step, letGo))
  {
    if step.Do? && step.act.Ask? { AskCloses(s.desk, step.act.id, step.act.req, letGo); }
  }

  lemma {:induction false} RunCloses(s: State, steps: seq<Step>, letGo: bool)
    requires SessionOk(s) && IsFreshRun(s, steps) && Closes(s.desk, letGo)
    ensures IsRun(s, steps) && Closes(Final(s, steps).desk, LetGo(s, steps, letGo))
    decreases |steps|
  {
    if steps != [] {
      StepKeepsSession(s, steps[0]);
      StepCloses(s, steps[0], letGo);
      RunCloses(Next(s, steps[0]), steps[1..], LetGoBy(s.desk, steps[0], letGo));
    }
  }

  /** A stream that has nothing more to yield has yielded it all: the open request, every write asked for, the close. */
  ghost predicate EndsComplete(d: Desk, written: seq<string>) {
    MonitorLink.CanPull(d.link) && !MonitorLink.Pull(d.link).attached ==>
      && EndsInClose(d.link) && MonitorLink.Data(d.link.accepted) == written
      && d.link.out == [MonitorLink.OpenRequest] + MonitorLink.Messages(d.link.accepted)
      && MonitorLink.SentData(d.link.out) == written && Last(d.link.out).CloseRequest?
  }

  /** The messages sent are framed by the open request and at most one close, and carry a beginning of what was written;
      a close is among them exactly if one was pulled. */
  ghost predicate SendsWritten(l: MonitorLink.Link, written: seq<string>) {
    MonitorLink.SendsWhatWasPulled(l) && MonitorLink.SentData(l.out) <= written
  }

  lemma SentIsWritten(d: Desk, written: seq<string>)
    requires LinkOk(d) && Accepts(d, written)
    ensures SendsWritten(d.link, written)
  {
    MonitorLink.LinkSendsWhatWasPulled(d.link);
    MonitorLink.DataOfPrefix(d.link.accepted, d.link.pulled);
    assert d.reader.Writing? ==> Front(written) <= written;
  }

  lemma ClosedIsComplete(d: Desk, written: seq<string>, letGo: bool)
    requires LinkOk(d) && MonitorOk(d) && Closes(d, letGo) && Accepts(d, written)
    ensures EndsComplete(d, written)
  {
    var l := d.link;
    if MonitorLink.CanPull(l) && !MonitorLink.Pull(l).attached { EndedIsComplete(l); }
  }

  lemma EndedIsComplete(l: MonitorLink.Link)
    requires CommandsOk(l) && MonitorLink.CanPull(l) && !MonitorLink.Pull(l).attached
    ensures EndsInClose(l) && l.out == [MonitorLink.OpenRequest] + MonitorLink.Messages(l.accepted)
    ensures MonitorLink.SentData(l.out) == MonitorLink.Data(l.accepted) && Last(l.out).CloseRequest?
  {
    assert l.done && l.pulled == |l.accepted|;
    assert l.accepted[..l.pulled] == l.accepted;
    MonitorLink.SentDataOf(l.accepted);
  }

  /** What the daemon is sent is a beginning of the open request, the accepted writes in order and at most one close,
      and no write is accepted behind a close. */
  ghost predicate SendsInOrder(l: MonitorLink.Link) {
    && l.out <= [MonitorLink.OpenRequest] + MonitorLink.Messages(l.accepted)
    && forall i :: 0 <= i < |l.accepted| - 1 ==> l.accepted[i].Write?
  }

  /** Over any run, what the daemon is sent on the monitor's stream is the open request, then the data of the
      monitorWrite requests since the port was last opened, untouched and in order, then at most one close: all of the
      writes are accepted while the stream lives, a beginning of them ever after. A session that lets go of a living
      stream has had a close accepted, and a stream pulled to its end has yielded all of it. */
  lemma OutboundOverAnyRun(accepts: nat, steps: seq<Step>)
    requires IsFreshRun(Fresh(accepts), steps)
    ensures IsRun(Fresh(accepts), steps)
    ensures SendsInOrder(Final(Fresh(accepts), steps).desk.link)
    ensures SendsWritten(Final(Fresh(accepts), steps).desk.link, Written(Fresh(accepts), steps, []))
    ensures Accepts(Final(Fresh(accepts), steps).desk, Written(Fresh(accepts), steps, []))
    ensures Closes(Final(Fresh(accepts), steps).desk, LetGo(Fresh(accepts), steps, false))
    ensures EndsComplete(Final(Fresh(accepts), steps).desk, Written(Fresh(accepts), steps, []))
  {
    FreshIsOk(accepts);
    RunKeepsSession(Fresh(accepts), steps);
    RunAccepts(Fresh(accepts), steps, []);
    SentIsWritten(Final(Fresh(accepts), steps).desk, Written(Fresh(accepts), steps, []));
    RunCloses(Fresh(accepts), steps, false);
    ClosedIsComplete(Final(Fresh(accepts), steps).desk, Written(Fresh(accepts), steps, []), LetGo(Fresh(accepts), steps, false));
    LinkProtocol(Final(Fresh(accepts), steps).desk);
  }
}
