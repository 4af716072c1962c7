/** The order of monitor traffic within a flash session. */
module FlashMonitor {
  import opened Protocol
  import opened Batch
  import opened Conversation
  import opened Pumps
  import opened Tasks
  import opened FlashSession
  import opened FlashBookkeeping
  import opened FlashConversations
  import MonitorLink

  /** A response that may only come once the monitor opened under `a` is finished: another monitor's result or data,
      or the reply to a monitorClose or disconnect. */
  predicate Interrupts(asked: map<string, Role>, r: Response, a: string) {
    || (r.body.MonitorData? && r.id != a)
    || (r.body.Result? && r.id != a && r.id in asked && asked[r.id].Opener?)
    || (r.id in asked && asked[r.id].Closer?)
  }

  /** Among the first `n` responses, none under `a` is followed by an interruption. */
  ghost predicate Uninterrupted(asked: map<string, Role>, said: seq<Response>, a: string, n: nat)
    requires n <= |said|
  {
    forall i, j :: 0 <= i < j < n && said[i].id == a ==> !Interrupts(asked, said[j], a)
  }

  predicate IsOpener(asked: map<string, Role>, id: string) {
    id in asked && asked[id].Opener?
  }

  /** No monitor's conversation straddles another monitor's data or the reply to a close. */
  ghost predicate Unstraddled(asked: map<string, Role>, said: seq<Response>) {
    forall k :: 0 <= k < |said| && IsOpener(asked, said[k].id) ==> Uninterrupted(asked, said, said[k].id, k)
  }

  ghost predicate MonitorOrder(d: Desk, said: seq<Response>) {
    && "" !in d.asked
    && Unstraddled(d.asked, said)
    && (d.pump.Some? ==> Uninterrupted(d.asked, said, d.pump.value.id, |said|))
    && CloserIsLast(d)
  }

  lemma {:induction false} NeverNamed(said: seq<Response>, id: string)
    requires Under(said, id) == []
    ensures forall i :: 0 <= i < |said| ==> said[i].id != id
  {
    if said != [] {
      NeverNamed(Front(said), id);
      assert forall i :: 0 <= i < |said| - 1 ==> said[i] == Front(said)[i];
    }
  }

  lemma SilentIsNeverNamed(said: seq<Response>, id: string)
    requires Heard(said, id).Silent?
    ensures forall i :: 0 <= i < |said| ==> said[i].id != id
  {
    PhaseStreaming(Under(said, id));
    NeverNamed(said, id);
  }

  lemma AskedKeepsOrder(asked: map<string, Role>, said: seq<Response>, id: string, role: Role)
    requires Unstraddled(asked, said) && forall i :: 0 <= i < |said| ==> said[i].id != id
    ensures Unstraddled(asked[id := role], said)
    ensures forall a, n: nat :: n <= |said| && Uninterrupted(asked, said, a, n) ==> Uninterrupted(asked[id := role], said, a, n)
  {
    forall a, n: nat | n <= |said| && Uninterrupted(asked, said, a, n) ensures Uninterrupted(asked[id := role], said, a, n) {
      assert forall j :: 0 <= j < n ==> Interrupts(asked[id := role], said[j], a) == Interrupts(asked, said[j], a);
    }
  }

  /** The reply to a close is due only when no monitor is left. */
  predicate CloserIsLast(d: Desk) {
    d.reader.Replying? && d.reader.id in d.asked && d.asked[d.reader.id].Closer? ==> d.monitor.None? && d.pump.None?
  }

  lemma AskKeepsOrder(d: Desk, id: string, req: Request, decision: Decision, said: seq<Response>)
    requires MonitorOk(d) && MonitorOrder(d, said) && d.reader.Reading? && Sensible(d, id, req, decision)
    requires BringsId(req) ==> id != "" && id !in d.asked && forall i :: 0 <= i < |said| ==> said[i].id != id
    ensures MonitorOrder(Settle(Noted(d, id, req), id, decision), said)
  {
    if BringsId(req) { AskedKeepsOrder(d.asked, said, id, RoleOf(d, req)); }
    AskKeepsCloser(d, id, req, decision);
    var d' := Settle(Noted(d, id, req), id, decision);
    assert d'.pump == d.pump && d'.asked == Noted(d, id, req).asked;
  }

  lemma AskKeepsCloser(d: Desk, id: string, req: Request, decision: Decision)
    requires MonitorOk(d) && d.reader.Reading? && Sensible(d, id, req, decision) && "" !in d.asked
    ensures CloserIsLast(Settle(Noted(d, id, req), id, decision))
  {
  }

  lemma ActKeepsCloser(d: Desk, act: Act)
    requires MonitorOk(d) && ReaderOk(d) && CloserIsLast(d) && "" !in d.asked && Can(d, act) && !act.Ask?
    ensures CloserIsLast(Acted(d, act)) && Acted(d, act).asked == d.asked
    ensures Acted(d, act).pump.Some? ==> d.pump.Some? && Acted(d, act).pump.value.id == d.pump.value.id
  {
  }

  lemma ActKeepsOrder(d: Desk, act: Act, said: seq<Response>)
    requires DeskOk(d) && Conversing(d, said) && MonitorOrder(d, said) && Can(d, act) && UsesFreshId(d, Do(act))
    ensures MonitorOrder(Acted(d, act), said)
  {
    if act.Ask? {
      DispatchIsSensible(d, act.id, act.req);
      if BringsId(act.req) {
        assert Allows(StandingOf(d, act.id), Heard(said, act.id));
        SilentIsNeverNamed(said, act.id);
      }
      AskKeepsOrder(d, act.id, act.req, Dispatch(d, act.id, act.req), said);
    } else {
      ActKeepsCloser(d, act);
    }
  }

  /** One more response keeps the order if its own conversation was not interrupted. */
  lemma SaidKeepsOrder(asked: map<string, Role>, said: seq<Response>, r: Response)
    requires Unstraddled(asked, said)
    requires IsOpener(asked, r.id) ==> Uninterrupted(asked, said, r.id, |said|)
    ensures Unstraddled(asked, said + [r])
  {
    var after := said + [r];
    forall k | 0 <= k < |after| && IsOpener(asked, after[k].id) ensures Uninterrupted(asked, after, after[k].id, k) {
      assert forall i :: 0 <= i < k ==> after[i] == said[i];
      if k < |said| { assert Uninterrupted(asked, said, said[k].id, k); }
    }
  }

  lemma TurnGoesOn(asked: map<string, Role>, said: seq<Response>, r: Response, a: string)
    requires Uninterrupted(asked, said, a, |said|) && !Interrupts(asked, r, a)
    ensures Uninterrupted(asked, said + [r], a, |said| + 1)
  {
  }

  lemma SayKeepsOrder(d: Desk, who: Speaker, said: seq<Response>)
    requires DeskOk(d) && Conversing(d, said) && MonitorOrder(d, said) && HasToSay(d, who)
    ensures MonitorOrder(AfterSaying(d, who), said + [Utterance(d, who)])
  {
    var r := Utterance(d, who);
    match who
    case TheReader => ReaderSayKeepsOrder(d, said);
    case TaskNo(tid) =>
      SpokenIsOk(d.tasks[tid]);
      SaidKeepsOrder(d.asked, said, r);
      if d.pump.Some? { TurnGoesOn(d.asked, said, r, d.pump.value.id); }
    case ThePump =>
      SaidKeepsOrder(d.asked, said, r);
      TurnGoesOn(d.asked, said, r, d.pump.value.id);
  }

  lemma ReaderSayKeepsOrder(d: Desk, said: seq<Response>)
    requires DeskOk(d) && Conversing(d, said) && MonitorOrder(d, said) && HasToSay(d, TheReader)
    ensures MonitorOrder(AfterSaying(d, TheReader), said + [Utterance(d, TheReader)])
  {
    var r := Utterance(d, TheReader);
    if r.id != "" {
      assert Allows(StandingOf(d, r.id), Heard(said, r.id));
      SilentIsNeverNamed(said, r.id);
    }
    SaidKeepsOrder(d.asked, said, r);
    if d.reader.Announcing? {
      assert Uninterrupted(d.asked, said + [r], r.id, |said| + 1);
    } else if d.pump.Some? {
      TurnGoesOn(d.asked, said, r, d.pump.value.id);
    }
  }

  lemma {:induction false} RunKeepsOrder(s: State, steps: seq<Step>)
    requires SessionOk(s) && MonitorOrder(s.desk, s.wire.offered) && IsFreshRun(s, steps)
    ensures IsRun(s, steps) && SessionOk(Final(s, steps)) && MonitorOrder(Final(s, steps).desk, Final(s, steps).wire.offered)
    decreases |steps|
  {
    if steps != [] {
      StepKeepsSession(s, steps[0]);
      match steps[0] {
        case Do(act) => ActKeepsOrder(s.desk, act, s.wire.offered);
        case Say(who) => SayKeepsOrder(s.desk, who, s.wire.offered);
        case WriterTurn(_) =>
      }
      RunKeepsOrder(Next(s, steps[0]), steps[1..]);
    }
  }

  lemma PrefixKeepsOrder(asked: map<string, Role>, said: seq<Response>, more: seq<Response>)
    requires Unstraddled(asked, said + more)
    ensures Unstraddled(asked, said)
  {
    forall k | 0 <= k < |said| && IsOpener(asked, said[k].id) ensures Uninterrupted(asked, said, said[k].id, k) {
      assert (said + more)[k] == said[k] && Uninterrupted(asked, said + more, said[k].id, k);
      assert forall i :: 0 <= i < k ==> (said + more)[i] == said[i];
    }
  }

  /** Gluing neither reorders conversations nor makes one straddle another. */
  lemma GluingKeepsOrder(asked: map<string, Role>, fine: seq<Response>, coarse: seq<Response>)
    requires Unstraddled(asked, fine) && Coarsens(fine, coarse)
    ensures Unstraddled(asked, coarse)
  {
    var at := CoarsensPicks(fine, coarse);
    forall k | 0 <= k < |coarse| && IsOpener(asked, coarse[k].id) ensures Uninterrupted(asked, coarse, coarse[k].id, k) {
      var a := coarse[k].id;
      assert Uninterrupted(asked, fine, a, at[k]);
      forall i, j | 0 <= i < j < k && coarse[i].id == a ensures !Interrupts(asked, coarse[j], a) {
        assert fine[at[i]].id == a && !Interrupts(asked, fine[at[j]], a);
      }
    }
  }

  lemma WireKeepsOrder(asked: map<string, Role>, w: Wire)
    requires WireOk(w) && Unstraddled(asked, w.offered)
    ensures Unstraddled(asked, w.writer.sent)
  {
    var v := w.writer;
    assert w.offered == w.received + w.offered[|w.received|..];
    PrefixKeepsOrder(asked, w.received, w.offered[|w.received|..]);
    GluingKeepsOrder(asked, w.received, v.sent + v.buf + v.lost);
    assert v.sent + v.buf + v.lost == v.sent + (v.buf + v.lost);
    PrefixKeepsOrder(asked, v.sent, v.buf + v.lost);
  }

  /** Over any fresh run there is never more than one monitor: everything said under one monitorOpen comes before the
      reply to the close or disconnect that ends it and before any later monitor's result and data. It is so in what was said,
      and in the frames on the wire. */
  lemma MonitorsTakeTurns(accepts: nat, steps: seq<Step>)
    requires IsFreshRun(Fresh(accepts), steps)
    ensures IsRun(Fresh(accepts), steps)
    ensures var s := Final(Fresh(accepts), steps);
      Unstraddled(s.desk.asked, s.wire.offered) && Unstraddled(s.desk.asked, s.wire.writer.sent)
  {
    FreshIsOk(accepts);
    RunKeepsOrder(Fresh(accepts), steps);
    var s := Final(Fresh(accepts), steps);
    WireKeepsOrder(s.desk.asked, s.wire);
  }

  lemma LinkProtocol(d: Desk)
    requires LinkOk(d)
    ensures d.link.out <= [MonitorLink.OpenRequest] + MonitorLink.Messages(d.link.accepted)
  {
    MonitorLink.OutboundProtocol(d.link);
    WritesUpToClose(d.link.accepted);
  }

  lemma {:induction false} WritesUpToClose(cmds: seq<MonitorLink.Command>)
    requires forall i :: 0 <= i < |cmds| - 1 ==> cmds[i].Write?
    ensures MonitorLink.UpToClose(cmds) == cmds
  {
    if cmds != [] && cmds[0].Write? {
      WritesUpToClose(cmds[1..]);
      assert cmds == [cmds[0]] + cmds[1..];
    }
  }
}
