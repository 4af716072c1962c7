/** The coalescing writer task as a value: what each turn of its select loop does (src/server/session.rs). */
module WriterModel {
  import opened Protocol
  import opened Batch

  /** Milliseconds that streamed text may wait before it is flushed. */
  const BATCH_COOLDOWN: int := 100

  /** Done: the channel closed and everything was flushed. Broken: the socket refused a frame. */
  datatype Status = Running | Done | Broken

  /** `accepts` is how many more frames the socket will take before it fails; `lost` are frames it refused. */
  datatype Writer = Writer(
    buf: seq<Response>, flushAt: Option<int>, sent: seq<Response>, lost: seq<Response>, accepts: nat, status: Status)

  function Fresh(accepts: nat): Writer {
    Writer([], None, [], [], accepts, Running)
  }

  function Min(a: nat, b: nat): nat {
    if a <= b then a else b
  }

  predicate Due(w: Writer, now: int) {
    w.flushAt.Some? && w.flushAt.value <= now
  }

  /** Sends frames in order until the socket refuses one; that one and those behind it are lost. */
  function Send(w: Writer, rs: seq<Response>): Writer {
    var n := Min(|rs|, w.accepts);
    w.(sent := w.sent + rs[..n], lost := w.lost + rs[n..], accepts := w.accepts - n,
       status := if n < |rs| then Broken else w.status)
  }

  function Flush(w: Writer): Writer {
    Send(w.(buf := []), w.buf)
  }

  function OnTick(w: Writer): Writer {
    var f := Flush(w);
    if f.status.Broken? then f else f.(flushAt := None)
  }

  function OnText(w: Writer, r: Response, now: int): Writer {
    w.(buf := Push(w.buf, r), flushAt := if w.flushAt.Some? then w.flushAt else Some(now + BATCH_COOLDOWN))
  }

  function OnPrompt(w: Writer, r: Response): Writer {
    var f := Flush(w);
    if f.status.Broken? then f.(lost := f.lost + [r]) else Send(f.(flushAt := None), [r])
  }

  function OnMessage(w: Writer, r: Response, now: int): Writer {
    if IsBatchable(r.body) then OnText(w, r, now) else OnPrompt(w, r)
  }

  function OnClosed(w: Writer): Writer {
    var f := Flush(w);
    if f.status.Broken? then f else f.(status := Done)
  }

  /** What the writer owes to the responses it has received, at every turn of its loop: the frames sent, then
      the ones still buffered, then the ones a dead socket swallowed, are the received responses up to gluing. */
  ghost predicate Faithful(w: Writer, received: seq<Response>) {
    && Coarsens(received, w.sent + w.buf + w.lost)
    && (!w.status.Broken? ==> w.lost == [])
    && (!w.status.Running? ==> w.buf == [])
    && (w.status.Running? ==> (w.flushAt.Some? <==> w.buf != []))
    && Tight(w.buf)
    && forall i :: 0 <= i < |w.buf| ==> IsBatchable(w.buf[i].body)
  }

  lemma FreshIsFaithful(accepts: nat)
    ensures Faithful(Fresh(accepts), [])
  {
  }

  lemma FlushIsFaithful(w: Writer, received: seq<Response>)
    requires Faithful(w, received) && w.status.Running?
    ensures Coarsens(received, Flush(w).sent + Flush(w).lost)
    ensures Flush(w).buf == [] && (!Flush(w).status.Broken? ==> Flush(w).lost == [] && Flush(w).status.Running?)
  {
    var n := Min(|w.buf|, w.accepts);
    assert w.buf[..n] + w.buf[n..] == w.buf;
    assert Flush(w).sent + Flush(w).lost == w.sent + w.buf + w.lost;
  }

  lemma TickIsFaithful(w: Writer, received: seq<Response>)
    requires Faithful(w, received) && w.status.Running?
    ensures Faithful(OnTick(w), received) && (OnTick(w).status.Broken? || OnTick(w).flushAt.None?)
  {
    FlushIsFaithful(w, received);
    var t := OnTick(w);
    assert t.sent + t.buf + t.lost == Flush(w).sent + Flush(w).lost;
  }

  lemma ClosedIsFaithful(w: Writer, received: seq<Response>)
    requires Faithful(w, received) && w.status.Running?
    ensures Faithful(OnClosed(w), received) && !OnClosed(w).status.Running?
  {
    FlushIsFaithful(w, received);
    var t := OnClosed(w);
    assert t.sent + t.buf + t.lost == Flush(w).sent + Flush(w).lost;
  }

  lemma MessageIsFaithful(w: Writer, received: seq<Response>, r: Response, now: int)
    requires Faithful(w, received) && w.status.Running?
    ensures Faithful(OnMessage(w, r, now), received + [r])
  {
    if IsBatchable(r.body) { TextIsFaithful(w, received, r, now); } else { PromptIsFaithful(w, received, r); }
  }

  lemma TextIsFaithful(w: Writer, received: seq<Response>, r: Response, now: int)
    requires Faithful(w, received) && w.status.Running? && IsBatchable(r.body)
    ensures Faithful(OnText(w, r, now), received + [r])
  {
    assert w.sent + w.buf + w.lost == w.sent + w.buf;
    CoarsensPush(received, w.sent, w.buf, r);
    TightPush(w.buf, r);
    var t := OnText(w, r, now);
    assert t.sent + t.buf + t.lost == w.sent + Push(w.buf, r);
  }

  lemma PromptIsFaithful(w: Writer, received: seq<Response>, r: Response)
    requires Faithful(w, received) && w.status.Running? && !IsBatchable(r.body)
    ensures Faithful(OnPrompt(w, r), received + [r])
  {
    FlushIsFaithful(w, received);
    var f, t := Flush(w), OnPrompt(w, r);
    CoarsensAlone(received, f.sent + f.lost, r);
    assert t.sent + t.buf + t.lost == f.sent + f.lost + [r];
  }

  /** After a socket failure what went out is still an unreordered beginning; otherwise everything is accounted for. */
  lemma WhatTheSocketSaw(w: Writer, received: seq<Response>)
    requires Faithful(w, received)
    ensures Expand(w.sent) <= Expand(received)
    ensures w.status.Running? ==> Expand(received) == Expand(w.sent) + Expand(w.buf)
    ensures w.status.Done? ==> Expand(received) == Expand(w.sent) && Coarsens(received, w.sent)
  {
    SpeltInThree(received, w.sent, w.buf, w.lost);
  }

  lemma SpeltInThree(received: seq<Response>, sent: seq<Response>, buf: seq<Response>, lost: seq<Response>)
    requires Coarsens(received, sent + buf + lost)
    ensures Expand(sent) <= Expand(received)
    ensures lost == [] ==> Expand(received) == Expand(sent) + Expand(buf)
    ensures lost == [] && buf == [] ==> Coarsens(received, sent)
  {
    assert sent + buf + lost == sent + (buf + lost);
    SpeltInTwo(received, sent, buf + lost);
    if lost == [] {
      assert buf + lost == buf;
      if buf == [] { assert sent + buf + lost == sent; }
    }
  }

  lemma SpeltInTwo(received: seq<Response>, sent: seq<Response>, rest: seq<Response>)
    requires Coarsens(received, sent + rest)
    ensures Expand(received) == Expand(sent) + Expand(rest)
  {
    CoarsensExpand(received, sent + rest);
    ExpandAppend(sent, rest);
  }
}
