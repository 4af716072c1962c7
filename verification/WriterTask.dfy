/** The writer task itself: the buffer, the timer and the select loop (src/server/session.rs, src/server/batch.rs). */
module WriterTask {
  import opened Protocol
  import opened Batch
  import opened WriterLatency
  import opened WriterModel

  /** One poll of the select: the clock, how many messages have reached the channel by then, and whether every
      sender is gone. */
  datatype Wake = Wake(now: int, arrived: nat, closed: bool)

  function TextFrames(rs: seq<Response>): nat {
    if rs == [] then 0 else TextFrames(Front(rs)) + (if IsBatchable(Last(rs).body) then 1 else 0)
  }

  function Prompts(rs: seq<Response>): nat {
    if rs == [] then 0 else Prompts(Front(rs)) + (if IsBatchable(Last(rs).body) then 0 else 1)
  }

  lemma {:induction false} TextFramesAppend(a: seq<Response>, b: seq<Response>)
    ensures TextFrames(a + b) == TextFrames(a) + TextFrames(b)
  {
    if b == [] {
      assert a + b == a;
    } else {
      TextFramesAppend(a, Front(b));
      assert Front(a + b) == a + Front(b);
    }
  }

  /** Every frame is text or a prompt message. */
  lemma {:induction false} FramesAreCounted(rs: seq<Response>)
    ensures TextFrames(rs) + Prompts(rs) == |rs|
  {
    if rs != [] { FramesAreCounted(Front(rs)); }
  }

  lemma TextFramesAtMost(rs: seq<Response>)
    ensures TextFrames(rs) <= |rs|
  {
  }

  /** All streamed text among `rs` belongs to the stream of `key`. */
  ghost predicate OneStream(rs: seq<Response>, key: Response) {
    forall i :: 0 <= i < |rs| && IsBatchable(rs[i].body) ==> SameStream(key, rs[i])
  }

  lemma OneStreamBuffer(buf: seq<Response>, key: Response)
    requires OneStream(buf, key) && Tight(buf) && forall i :: 0 <= i < |buf| ==> IsBatchable(buf[i].body)
    ensures |buf| <= 1
  {
    assert |buf| > 1 ==> SameStream(buf[0], buf[1]);
  }

  ghost predicate ClockIsMonotone(wakes: seq<Wake>) {
    forall i, j :: 0 <= i <= j < |wakes| ==> wakes[i].now <= wakes[j].now
  }

  /** One turn of the select loop: a due timer wins over a waiting message, and a closed channel ends the task. */
  function Turn(w: WriterModel.Writer, taken: nat, msgs: seq<Response>, wake: Wake): (WriterModel.Writer, nat) {
    if !w.status.Running? then (w, taken)
    else if Due(w, wake.now) then (OnTick(w), taken)
    else if taken < wake.arrived && taken < |msgs| then (OnMessage(w, msgs[taken], wake.now), taken + 1)
    else if wake.closed && taken == |msgs| then (OnClosed(w), taken)
    else (w, taken)
  }

  function Life(w: WriterModel.Writer, msgs: seq<Response>, wakes: seq<Wake>): (WriterModel.Writer, nat) {
    if wakes == [] then (w, 0)
    else
      var (before, taken) := Life(w, msgs, wakes[..|wakes| - 1]);
      Turn(before, taken, msgs, wakes[|wakes| - 1])
  }

  /** When each message was received. */
  function Receipts(w: WriterModel.Writer, msgs: seq<Response>, wakes: seq<Wake>): seq<int> {
    if wakes == [] then []
    else
      var (before, taken) := Life(w, msgs, wakes[..|wakes| - 1]);
      var wake := wakes[|wakes| - 1];
      Receipts(w, msgs, wakes[..|wakes| - 1]) + if Turn(before, taken, msgs, wake).1 > taken then [wake.now] else []
  }

  lemma {:induction false} LifeEnds(w: WriterModel.Writer, msgs: seq<Response>, wakes: seq<Wake>, k: nat)
    requires k <= |wakes| && !Life(w, msgs, wakes[..k]).0.status.Running?
    ensures Life(w, msgs, wakes) == Life(w, msgs, wakes[..k])
    decreases |wakes| - k
  {
    if k == |wakes| {
      assert wakes[..k] == wakes;
    } else {
      assert wakes[..k + 1][..k] == wakes[..k];
      LifeEnds(w, msgs, wakes, k + 1);
    }
  }

  class Writer {
    var buf: seq<Response>
    var flushAt: Option<int>
    var sent: seq<Response>
    var accepts: nat
    var status: Status
    ghost var lost: seq<Response>

    ghost function View(): WriterModel.Writer
      reads this
    {
      WriterModel.Writer(buf, flushAt, sent, lost, accepts, status)
    }

    constructor (accepts: nat)
      ensures View() == Fresh(accepts)
    {
      buf, flushAt, sent, lost := [], None, [], [];
      this.accepts, status := accepts, Running;
    }

    method PushCoalesced(resp: Response)
      modifies this`buf
      ensures buf == Push(old(buf), resp)
    {
      if buf != [] && Last(buf).id == resp.id {
        var last := Last(buf);
        match (last.body, resp.body) {
          case (Log(chunk), Log(more)) =>
            buf := buf[|buf| - 1 := last.(body := Log(chunk + more))];
            assert buf == Push(old(buf), resp);
            return;
          case (MonitorData(data), MonitorData(more)) =>
            buf := buf[|buf| - 1 := last.(body := MonitorData(data + more))];
            assert buf == Push(old(buf), resp);
            return;
          case (_, _) =>
            buf := buf + [resp];
            return;
        }
      }
      buf := buf + [resp];
    }

    method SendResponse(r: Response) returns (ok: bool)
      modifies this`sent, this`accepts
      ensures ok == (old(accepts) > 0)
      ensures ok ==> sent == old(sent) + [r] && accepts == old(accepts) - 1
      ensures !ok ==> sent == old(sent) && accepts == old(accepts)
    {
      ok := accepts > 0;
      if ok {
        sent, accepts := sent + [r], accepts - 1;
      }
    }

    method Flush() returns (ok: bool)
      modifies this
      ensures View() == WriterModel.Flush(old(View()))
      ensures old(status) == Running ==> (ok <==> status == Running)
    {
      var pending, i := buf, 0;
      buf := [];
      while i < |pending|
        invariant 0 <= i <= |pending| && i <= old(accepts)
        invariant sent == old(sent) + pending[..i] && accepts == old(accepts) - i
        invariant buf == [] && unchanged(this`flushAt) && unchanged(this`status) && unchanged(this`lost)
      {
        ok := SendResponse(pending[i]);
        if !ok {
          status, lost := Broken, lost + pending[i..];
          return;
        }
        i := i + 1;
      }
      assert lost == lost + pending[i..];
      ok := true;
    }

    /** The timer arm of the select. */
    method Tick()
      requires status == Running
      modifies this
      ensures View() == OnTick(old(View()))
    {
      var ok := Flush();
      if ok { flushAt := None; }
    }

    /** The receive arm: text is buffered and arms the timer; anything else flushes the buffer and goes out at once. */
    method Receive(r: Response, now: int)
      requires status == Running
      modifies this
      ensures View() == OnMessage(old(View()), r, now)
    {
      if IsBatchable(r.body) {
        PushCoalesced(r);
        if flushAt.None? { flushAt := Some(now + BATCH_COOLDOWN); }
      } else {
        var ok := Flush();
        if ok {
          flushAt := None;
          ok := SendResponse(r);
          if !ok { status, lost := Broken, lost + [r]; }
        } else {
          lost := lost + [r];
        }
      }
    }

    /** The channel has closed: flush and leave the loop. */
    method Close()
      requires status == Running
      modifies this
      ensures View() == OnClosed(old(View()))
    {
      var ok := Flush();
      if ok { status := Done; }
    }

    /** The whole life of the task over any polls of its channel and timer. `taken` counts the messages received,
        `out` those no longer held back. */
    method Run(msgs: seq<Response>, wakes: seq<Wake>, ghost key: Response) returns (taken: nat, ghost out: nat)
      requires View() == Fresh(accepts)
      requires ClockIsMonotone(wakes)
      requires forall i :: 0 <= i < |wakes| ==> wakes[i].arrived <= |msgs|
      modifies this
      ensures (View(), taken) == Life(old(View()), msgs, wakes)
      ensures taken <= |msgs| && Faithful(View(), msgs[..taken])
      // The loop ends well only after every message has gone out.
      ensures status == Done ==> taken == |msgs|
      // The timer stands one window after the oldest chunk held back came in, whatever came in since, and a poll
      // leaves nothing behind that came in a window ago.
      ensures Timely(View(), msgs[..taken], Receipts(old(View()), msgs, wakes), out)
      ensures wakes != [] ==> NothingOverdue(Receipts(old(View()), msgs, wakes), out, Last(wakes).now)
      // One stream costs a frame per full window, plus one per prompt message, plus the closing flush.
      ensures wakes != [] && OneStream(msgs, key) ==>
        BATCH_COOLDOWN * (TextFrames(sent) - Prompts(msgs[..taken]) - (if status == Running then 0 else 1)) <= Last(wakes).now - wakes[0].now
    {
      taken := 0;
      var k := 0;
      ghost var w0, accepts0 := View(), accepts;
      ghost var pace := if wakes == [] then Pace(0, 0, 0) else Pace(wakes[0].now, wakes[0].now, 0);
      assert msgs[..0] == [];
      while k < |wakes| && status == Running
        invariant 0 <= k <= |wakes| && taken <= |msgs|
        invariant (View(), taken) == Life(w0, msgs, wakes[..k])
        invariant Faithful(View(), msgs[..taken])
        invariant status == Done ==> taken == |msgs|
        invariant if k == 0 then View() == Fresh(accepts) else Prompt(View(), wakes[k - 1].now)
        invariant wakes != [] ==> pace.start == wakes[0].now && pace.lastTick <= wakes[if k == 0 then 0 else k - 1].now
        invariant wakes != [] && OneStream(msgs, key) ==> Paced(View(), key, msgs[..taken], pace)
      {
        pace := TurnKeeps(View(), msgs, taken, wakes[k], key, pace);
        taken := Poll(msgs, taken, wakes[k]);
        k := k + 1;
        LifeStep(w0, msgs, wakes, k);
      }
      assert wakes[..|wakes|] == wakes;
      if status != Running { LifeEnds(w0, msgs, wakes, k); }
      out := LifeIsTimely(accepts0, msgs, wakes);
    }

    /** One poll of the biased select. */
    method Poll(msgs: seq<Response>, taken: nat, wake: Wake) returns (taken': nat)
      requires status == Running && taken <= |msgs| && wake.arrived <= |msgs|
      modifies this
      ensures (View(), taken') == Turn(old(View()), taken, msgs, wake)
    {
      taken' := taken;
      if flushAt.Some? && flushAt.value <= wake.now {
        Tick();
      } else if taken < wake.arrived {
        Receive(msgs[taken], wake.now);
        taken' := taken + 1;
      } else if wake.closed && taken == |msgs| {
        Close();
      }
    }
  }

  lemma LifeStep(w: WriterModel.Writer, msgs: seq<Response>, wakes: seq<Wake>, k: nat)
    requires 0 < k <= |wakes|
    ensures Life(w, msgs, wakes[..k]) ==
      var (before, taken) := Life(w, msgs, wakes[..k - 1]);
      Turn(before, taken, msgs, wakes[k - 1])
  {
    assert wakes[..k][..k - 1] == wakes[..k - 1];
  }

  /** What one turn keeps of the timing, and the messages that are out after it. */
  lemma TurnIsTimely(w: WriterModel.Writer, msgs: seq<Response>, taken: nat, wake: Wake, times: seq<int>, out: nat) returns (out': nat)
    requires w.status.Running? && taken <= |msgs| && wake.arrived <= |msgs|
    requires Faithful(w, msgs[..taken]) && Timely(w, msgs[..taken], times, out)
    ensures var (w', taken') := Turn(w, taken, msgs, wake);
      && taken' <= |msgs| && Timely(w', msgs[..taken'], times + (if taken' > taken then [wake.now] else []), out')
  {
    assert times + [] == times;
    out' := out;
    if Due(w, wake.now) {
      TickIsTimely(w, msgs[..taken], times, out);
      out' := taken;
    } else if taken < wake.arrived {
      assert msgs[..taken + 1] == msgs[..taken] + [msgs[taken]];
      out' := MessageIsTimely(w, msgs[..taken], times, out, msgs[taken], wake.now);
    } else if wake.closed && taken == |msgs| {
      TickIsTimely(w, msgs[..taken], times, out);
      out' := taken;
    }
  }

  /** Everything the writer owes at `now` to what it has received. */
  ghost predicate Account(w: WriterModel.Writer, received: seq<Response>, times: seq<int>, out: nat, now: int) {
    Faithful(w, received) && Timely(w, received, times, out) && InOrder(times, now) && Prompt(w, now)
  }

  lemma TurnKeepsAccount(w: WriterModel.Writer, msgs: seq<Response>, taken: nat, wake: Wake, times: seq<int>, out: nat, before: int)
    returns (out': nat)
    requires taken <= |msgs| && wake.arrived <= |msgs| && Account(w, msgs[..taken], times, out, before) && before <= wake.now
    ensures var (w', taken') := Turn(w, taken, msgs, wake);
      && taken' <= |msgs|
      && Account(w', msgs[..taken'], times + (if taken' > taken then [wake.now] else []), out', wake.now)
  {
    InOrderGrows(times, before, wake.now);
    if w.status.Running? {
      out' := RunningKeepsAccount(w, msgs, taken, wake, times, out);
    } else {
      assert times + [] == times;
      out' := out;
    }
  }

  lemma RunningKeepsAccount(w: WriterModel.Writer, msgs: seq<Response>, taken: nat, wake: Wake, times: seq<int>, out: nat)
    returns (out': nat)
    requires w.status.Running? && taken <= |msgs| && wake.arrived <= |msgs| && Faithful(w, msgs[..taken])
    requires Timely(w, msgs[..taken], times, out) && (w.flushAt.Some? ==> w.flushAt.value <= wake.now + BATCH_COOLDOWN)
    requires InOrder(times + [], wake.now) && InOrder(times + [wake.now], wake.now)
    ensures var (w', taken') := Turn(w, taken, msgs, wake);
      && taken' <= |msgs|
      && Account(w', msgs[..taken'], times + (if taken' > taken then [wake.now] else []), out', wake.now)
  {
    TurnKeepsFaith(w, msgs, taken, wake);
    out' := TurnIsTimely(w, msgs, taken, wake, times, out);
  }

  lemma InOrderGrows(times: seq<int>, before: int, now: int)
    requires InOrder(times, before) && before <= now
    ensures InOrder(times + [], now) && InOrder(times + [now], now)
  {
    assert times + [] == times;
  }

  lemma TurnKeepsFaith(w: WriterModel.Writer, msgs: seq<Response>, taken: nat, wake: Wake)
    requires w.status.Running? && taken <= |msgs| && wake.arrived <= |msgs| && Faithful(w, msgs[..taken])
    requires w.flushAt.Some? ==> w.flushAt.value <= wake.now + BATCH_COOLDOWN
    ensures var (w', taken') := Turn(w, taken, msgs, wake);
      taken' <= |msgs| && Faithful(w', msgs[..taken']) && Prompt(w', wake.now)
  {
    if Due(w, wake.now) {
      TickIsFaithful(w, msgs[..taken]);
    } else if taken < wake.arrived {
      assert msgs[..taken + 1] == msgs[..taken] + [msgs[taken]];
      MessageIsFaithful(w, msgs[..taken], msgs[taken], wake.now);
    } else if wake.closed && taken == |msgs| {
      ClosedIsFaithful(w, msgs[..taken]);
    }
  }

  lemma {:induction false} LifeKeepsAccount(accepts: nat, msgs: seq<Response>, wakes: seq<Wake>, now: int) returns (out: nat)
    requires ClockIsMonotone(wakes) && forall i :: 0 <= i < |wakes| ==> wakes[i].arrived <= |msgs|
    requires wakes != [] ==> now == Last(wakes).now
    ensures var (w, taken) := Life(Fresh(accepts), msgs, wakes);
      taken <= |msgs| && Account(w, msgs[..taken], Receipts(Fresh(accepts), msgs, wakes), out, now)
    decreases |wakes|
  {
    if wakes == [] {
      FreshIsFaithful(accepts);
      EmptiedIsTimely(Fresh(accepts), msgs[..0], []);
      out := 0;
    } else {
      var past, wake := wakes[..|wakes| - 1], Last(wakes);
      var before := if past == [] then now else Last(past).now;
      out := LifeKeepsAccount(accepts, msgs, past, before);
      var (w, taken) := Life(Fresh(accepts), msgs, past);
      out := TurnKeepsAccount(w, msgs, taken, wake, Receipts(Fresh(accepts), msgs, past), out, before);
    }
  }

  /** Over any life: the timer stands where the oldest chunk held back has put it, and each poll leaves only text that
      came in less than a window before it. */
  lemma LifeIsTimely(accepts: nat, msgs: seq<Response>, wakes: seq<Wake>) returns (out: nat)
    requires ClockIsMonotone(wakes) && forall i :: 0 <= i < |wakes| ==> wakes[i].arrived <= |msgs|
    ensures var (w, taken) := Life(Fresh(accepts), msgs, wakes);
      var times := Receipts(Fresh(accepts), msgs, wakes);
      && taken <= |msgs| && Timely(w, msgs[..taken], times, out)
      && (wakes != [] ==> NothingOverdue(times, out, Last(wakes).now))
  {
    var now := if wakes == [] then 0 else Last(wakes).now;
    out := LifeKeepsAccount(accepts, msgs, wakes, now);
    var (w, taken) := Life(Fresh(accepts), msgs, wakes);
    AheadIsNotOverdue(w, msgs[..taken], Receipts(Fresh(accepts), msgs, wakes), out, now);
  }

  // ---- the end of the task --------------------------------------------------------------------------------

  /** How many turns the task still has in it once everything has arrived and every sender is gone. */
  function TurnsLeft(w: WriterModel.Writer, taken: nat, msgs: seq<Response>): nat {
    if !w.status.Running? then 0
    else 1 + (if w.flushAt.Some? then 1 else 0) + if taken <= |msgs| then 2 * (|msgs| - taken) else 0
  }

  lemma TurnProgresses(w: WriterModel.Writer, taken: nat, msgs: seq<Response>, wake: Wake)
    requires taken <= |msgs| && wake.arrived == |msgs| && wake.closed
    ensures var (w', taken') := Turn(w, taken, msgs, wake);
      && taken <= taken' <= |msgs| && (w.status.Running? ==> TurnsLeft(w', taken', msgs) < TurnsLeft(w, taken, msgs))
      && (!w.status.Running? ==> !w'.status.Running?)
  {
  }

  /** The last `n` polls find all messages there and the channel closed. */
  ghost predicate AllThere(msgs: seq<Response>, wakes: seq<Wake>, n: nat) {
    n <= |wakes| && forall i :: |wakes| - n <= i < |wakes| ==> wakes[i].arrived == |msgs| && wakes[i].closed
  }

  lemma {:induction false} LifeProgresses(w: WriterModel.Writer, msgs: seq<Response>, wakes: seq<Wake>, n: nat)
    requires AllThere(msgs, wakes, n) && Life(w, msgs, wakes[..|wakes| - n]).1 <= |msgs|
    ensures var (before, had) := Life(w, msgs, wakes[..|wakes| - n]);
      var (after, taken) := Life(w, msgs, wakes);
      taken <= |msgs| && (after.status.Running? ==> TurnsLeft(after, taken, msgs) + n <= TurnsLeft(before, had, msgs))
    decreases n
  {
    if n == 0 {
      assert wakes[..|wakes|] == wakes;
    } else {
      var past := wakes[..|wakes| - 1];
      assert past[..|past| - (n - 1)] == wakes[..|wakes| - n];
      LifeProgresses(w, msgs, past, n - 1);
      var (v, taken) := Life(w, msgs, past);
      TurnProgresses(v, taken, msgs, wakes[|wakes| - 1]);
    }
  }

  /** Every frame that went out is one the socket took, and the task breaks only on one it did not. */
  ghost predicate CountsFrames(w: WriterModel.Writer, accepts: nat) {
    |w.sent| + w.accepts == accepts && (w.status.Broken? ==> w.accepts == 0 && w.lost != [])
  }

  lemma TurnCountsFrames(w: WriterModel.Writer, taken: nat, msgs: seq<Response>, wake: Wake, accepts: nat)
    requires CountsFrames(w, accepts)
    ensures CountsFrames(Turn(w, taken, msgs, wake).0, accepts)
  {
  }

  lemma {:induction false} LifeCountsFrames(accepts: nat, msgs: seq<Response>, wakes: seq<Wake>)
    ensures CountsFrames(Life(Fresh(accepts), msgs, wakes).0, accepts)
  {
    if wakes != [] {
      var past := wakes[..|wakes| - 1];
      LifeCountsFrames(accepts, msgs, past);
      var (w, taken) := Life(Fresh(accepts), msgs, past);
      TurnCountsFrames(w, taken, msgs, wakes[|wakes| - 1], accepts);
    }
  }

  /** A socket that takes as many frames as there are messages never breaks the task. */
  lemma EnoughIsEnough(accepts: nat, msgs: seq<Response>, wakes: seq<Wake>)
    requires ClockIsMonotone(wakes) && forall i :: 0 <= i < |wakes| ==> wakes[i].arrived <= |msgs|
    requires |msgs| <= accepts
    ensures !Life(Fresh(accepts), msgs, wakes).0.status.Broken?
  {
    var (w, taken) := Life(Fresh(accepts), msgs, wakes);
    LifeCountsFrames(accepts, msgs, wakes);
    var now := if wakes == [] then 0 else Last(wakes).now;
    var out := LifeKeepsAccount(accepts, msgs, wakes, now);
    CoarseIsNoLonger(msgs[..taken], w.sent + w.buf + w.lost);
  }

  /** Once everything has arrived and every sender is gone, the task ends within two polls for each message and three more;
      and it ends well if the socket takes that many frames. */
  lemma WriterFinishes(accepts: nat, msgs: seq<Response>, wakes: seq<Wake>)
    requires ClockIsMonotone(wakes) && forall i :: 0 <= i < |wakes| ==> wakes[i].arrived <= |msgs|
    requires AllThere(msgs, wakes, 2 * |msgs| + 3)
    ensures var (w, taken) := Life(Fresh(accepts), msgs, wakes);
      (w.status.Done? || w.status.Broken?) && (|msgs| <= accepts ==> w.status.Done?)
  {
    if |msgs| <= accepts { EnoughIsEnough(accepts, msgs, wakes); }
    var n := 2 * |msgs| + 3;
    var before := wakes[..|wakes| - n];
    var out := LifeIsTimely(accepts, msgs, before);
    LifeProgresses(Fresh(accepts), msgs, wakes, n);
  }

  /** No message is taken before it has arrived. */
  lemma {:induction false} NothingIsTakenEarly(w: WriterModel.Writer, msgs: seq<Response>, wakes: seq<Wake>)
    requires forall i, j :: 0 <= i <= j < |wakes| ==> wakes[i].arrived <= wakes[j].arrived
    ensures Life(w, msgs, wakes).1 <= if wakes == [] then 0 else Last(wakes).arrived
  {
    if wakes != [] {
      NothingIsTakenEarly(w, msgs, wakes[..|wakes| - 1]);
    }
  }

  /** What one turn keeps: nothing is lost, the timer is honoured, and the frame-rate account balances. */
  lemma TurnKeeps(w: WriterModel.Writer, msgs: seq<Response>, taken: nat, wake: Wake, key: Response, p: Pace) returns (p': Pace)
    requires w.status.Running? && taken <= |msgs| && wake.arrived <= |msgs|
    requires Faithful(w, msgs[..taken]) && p.lastTick <= wake.now
    requires w.flushAt.Some? ==> w.flushAt.value <= wake.now + BATCH_COOLDOWN
    ensures var (w', taken') := Turn(w, taken, msgs, wake);
      && taken' <= |msgs| && Faithful(w', msgs[..taken'])
      && (w'.status.Done? ==> taken' == |msgs|)
      && Prompt(w', wake.now)
      && p'.start == p.start && p'.lastTick <= wake.now
      && (OneStream(msgs, key) && Paced(w, key, msgs[..taken], p) ==> Paced(w', key, msgs[..taken'], p'))
  {
    p' := p;
    TurnKeepsFaith(w, msgs, taken, wake);
    if OneStream(msgs, key) && Paced(w, key, msgs[..taken], p) {
      if Due(w, wake.now) {
        p' := PacedTick(w, key, msgs[..taken], p, wake.now);
      } else if taken < wake.arrived {
        assert msgs[..taken + 1] == msgs[..taken] + [msgs[taken]];
        PacedMessage(w, key, msgs[..taken], p, msgs[taken], wake.now);
      } else if wake.closed && taken == |msgs| {
        PacedClosed(w, key, msgs[..taken], p);
      }
    }
  }

  /** After a poll at `now`, text is waiting only behind a timer that lies ahead, by at most one window. */
  ghost predicate Prompt(w: WriterModel.Writer, now: int) {
    w.status.Running? && w.buf != [] ==> w.flushAt.Some? && now < w.flushAt.value <= now + BATCH_COOLDOWN
  }

  /** When the writer started, when its timer last went off (or the start), and how often it did. */
  datatype Pace = Pace(start: int, lastTick: int, ticks: nat)

  /** The invariant behind the frame-rate bound of a single stream. */
  ghost predicate Paced(w: WriterModel.Writer, key: Response, received: seq<Response>, p: Pace) {
    && BATCH_COOLDOWN * p.ticks <= p.lastTick - p.start
    && (w.status.Running? && w.flushAt.Some? ==> p.lastTick + BATCH_COOLDOWN <= w.flushAt.value)
    && OneStream(w.buf, key)
    && TextFrames(w.sent) <= p.ticks + Prompts(received) + (if w.status.Running? then 0 else 1)
  }

  lemma PacedTick(w: WriterModel.Writer, key: Response, received: seq<Response>, p: Pace, now: int) returns (p': Pace)
    requires Faithful(w, received) && w.status.Running? && Paced(w, key, received, p) && Due(w, now)
    ensures p'.start == p.start && p'.lastTick <= now && Paced(OnTick(w), key, received, p')
  {
    OneStreamBuffer(w.buf, key);
    FlushedFrames(w);
    p' := Pace(p.start, w.flushAt.value, p.ticks + 1);
  }

  lemma PacedMessage(w: WriterModel.Writer, key: Response, received: seq<Response>, p: Pace, r: Response, now: int)
    requires Faithful(w, received) && w.status.Running? && Paced(w, key, received, p) && p.lastTick <= now
    requires IsBatchable(r.body) ==> SameStream(key, r)
    ensures Paced(OnMessage(w, r, now), key, received + [r], p)
  {
    assert Front(received + [r]) == received;
    OneStreamBuffer(w.buf, key);
    if IsBatchable(r.body) {
      OneStreamPush(w.buf, r, key);
    } else {
      PromptFrames(w, r);
    }
  }

  lemma PacedClosed(w: WriterModel.Writer, key: Response, received: seq<Response>, p: Pace)
    requires Faithful(w, received) && w.status.Running? && Paced(w, key, received, p)
    ensures !OnClosed(w).status.Running? && Paced(OnClosed(w), key, received, p)
  {
    OneStreamBuffer(w.buf, key);
    FlushedFrames(w);
  }

  lemma OneStreamPush(buf: seq<Response>, r: Response, key: Response)
    requires OneStream(buf, key) && (IsBatchable(r.body) ==> SameStream(key, r))
    ensures OneStream(Push(buf, r), key)
  {
  }

  lemma PromptFrames(w: WriterModel.Writer, r: Response)
    requires !IsBatchable(r.body)
    ensures TextFrames(OnPrompt(w, r).sent) <= TextFrames(w.sent) + |w.buf|
  {
    FlushedFrames(w);
    TextFramesAppend(WriterModel.Flush(w).sent, [r]);
    TextFramesAppend(WriterModel.Flush(w).sent, []);
  }

  /** A flush adds at most one text frame when the buffer holds at most one entry. */
  lemma FlushedFrames(w: WriterModel.Writer)
    ensures TextFrames(WriterModel.Flush(w).sent) <= TextFrames(w.sent) + |w.buf|
  {
    var n := Min(|w.buf|, w.accepts);
    TextFramesAppend(w.sent, w.buf[..n]);
    TextFramesAtMost(w.buf[..n]);
  }
}
