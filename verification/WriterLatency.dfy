/** How long the writer may hold text back (src/server/session.rs). */
module WriterLatency {
  import opened Protocol
  import opened Batch
  import opened WriterModel

  /** `times` says when each response was received. The first `out` of them have been sent (or lost to a dead socket),
      the others are exactly what is buffered, and the timer stands one window after the oldest of those came in. */
  ghost predicate Timely(w: Writer, received: seq<Response>, times: seq<int>, out: nat) {
    && out <= |received| == |times|
    && Coarsens(received[..out], w.sent + w.lost)
    && Coarsens(received[out..], w.buf)
    && (w.status.Running? && out < |received| ==> w.flushAt == Some(times[out] + BATCH_COOLDOWN))
  }

  /** Responses come in one after the other, none later than `now`. */
  ghost predicate InOrder(times: seq<int>, now: int) {
    && (forall i, j :: 0 <= i <= j < |times| ==> times[i] <= times[j])
    && (times != [] ==> Last(times) <= now)
  }

  /** At `now`, everything received a whole window ago or more is out. */
  ghost predicate NothingOverdue(times: seq<int>, out: nat, now: int) {
    forall i :: 0 <= i < |times| && times[i] + BATCH_COOLDOWN <= now ==> i < out
  }

  lemma BufferedSplit(w: Writer, received: seq<Response>, times: seq<int>, out: nat)
    requires Faithful(w, received) && w.status.Running? && Timely(w, received, times, out)
    ensures Coarsens(received, w.sent + w.buf)
    ensures w.buf == [] <==> out == |received|
  {
    assert w.sent + w.lost == w.sent;
    CoarsensAppend(received[..out], w.sent, received[out..], w.buf);
    assert received[..out] + received[out..] == received;
  }

  /** With nothing left in the buffer all that was received is out. */
  lemma EmptiedIsTimely(w: Writer, received: seq<Response>, times: seq<int>)
    requires |times| == |received| && w.buf == [] && Coarsens(received, w.sent + w.lost)
    ensures Timely(w, received, times, |received|)
  {
    assert received[..|received|] == received;
  }

  lemma FlushEmpties(w: Writer, received: seq<Response>, times: seq<int>, out: nat)
    requires Faithful(w, received) && w.status.Running? && Timely(w, received, times, out)
    ensures Flush(w).buf == [] && Coarsens(received, Flush(w).sent + Flush(w).lost)
  {
    BufferedSplit(w, received, times, out);
    FlushIsFaithful(w, received);
  }

  lemma TickIsTimely(w: Writer, received: seq<Response>, times: seq<int>, out: nat)
    requires Faithful(w, received) && w.status.Running? && Timely(w, received, times, out)
    ensures Timely(OnTick(w), received, times, |received|)
    ensures Timely(OnClosed(w), received, times, |received|)
  {
    FlushEmpties(w, received, times, out);
    EmptiedIsTimely(OnTick(w), received, times);
    EmptiedIsTimely(OnClosed(w), received, times);
  }

  /** A chunk joins those that wait; only the first of them sets the timer. */
  lemma TextIsTimely(w: Writer, received: seq<Response>, times: seq<int>, out: nat, r: Response, now: int)
    requires Faithful(w, received) && w.status.Running? && Timely(w, received, times, out) && IsBatchable(r.body)
    ensures Timely(OnText(w, r, now), received + [r], times + [now], out)
  {
    BufferedSplit(w, received, times, out);
    CoarsensPushWhole(received[out..], w.buf, r);
    assert (received + [r])[..out] == received[..out] && (received + [r])[out..] == received[out..] + [r];
  }

  lemma PromptIsTimely(w: Writer, received: seq<Response>, times: seq<int>, out: nat, r: Response, now: int)
    requires Faithful(w, received) && w.status.Running? && Timely(w, received, times, out) && !IsBatchable(r.body)
    ensures Timely(OnPrompt(w, r), received + [r], times + [now], |received| + 1)
  {
    FlushEmpties(w, received, times, out);
    PromptEmpties(w, received, r);
    EmptiedIsTimely(OnPrompt(w, r), received + [r], times + [now]);
  }

  lemma PromptEmpties(w: Writer, received: seq<Response>, r: Response)
    requires Faithful(w, received) && w.status.Running?
    ensures OnPrompt(w, r).buf == [] && Coarsens(received + [r], OnPrompt(w, r).sent + OnPrompt(w, r).lost)
  {
    FlushIsFaithful(w, received);
    var f, t := Flush(w), OnPrompt(w, r);
    CoarsensAlone(received, f.sent + f.lost, r);
    assert t.sent + t.lost == f.sent + f.lost + [r];
  }

  lemma MessageIsTimely(w: Writer, received: seq<Response>, times: seq<int>, out: nat, r: Response, now: int) returns (out': nat)
    requires Faithful(w, received) && w.status.Running? && Timely(w, received, times, out)
    ensures Timely(OnMessage(w, r, now), received + [r], times + [now], out')
  {
    if IsBatchable(r.body) {
      TextIsTimely(w, received, times, out, r, now);
      out' := out;
    } else {
      PromptIsTimely(w, received, times, out, r, now);
      out' := |received| + 1;
    }
  }

  /** A timer that lies ahead of `now`, or a task that has ended, leaves nothing overdue. */
  lemma AheadIsNotOverdue(w: Writer, received: seq<Response>, times: seq<int>, out: nat, now: int)
    requires Timely(w, received, times, out) && InOrder(times, now)
    requires w.status.Running? && w.buf != [] ==> w.flushAt.Some? && now < w.flushAt.value
    requires !w.status.Running? ==> w.buf == []
    ensures NothingOverdue(times, out, now)
  {
    forall i | out <= i < |times| ensures now < times[i] + BATCH_COOLDOWN {
      assert received[out..] != [] && times[out] <= times[i];
    }
  }
}
