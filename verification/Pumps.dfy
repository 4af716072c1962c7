/** The stream pumps: a gRPC frame stream turned into events, and the select loop that turns events into the
    responses of one request (src/service/arduino/grpc, src/service/arduino/bridge.rs). */
module Pumps {
  import opened Protocol
  import opened Conversation
  import opened Frames

  datatype Kind = Compile | Upload | Flash | Install

  /** How `Daemon::reinit` came out, which only an install waits for. */
  datatype Reinit = Ready | Broke(code: Code, detail: string)

  /** The `Display` text of an error. */
  function Describe(code: Code, detail: string): string {
    match code
    case InvalidRequest => "invalid request: " + detail
    case Daemon => "daemon: " + detail
    case Grpc => "grpc: " + detail
    case Cancelled => "cancelled"
    case Resource => "resource: " + detail
    case Io => detail
  }

  function Failure(code: Code, detail: string): Body {
    Error(code, Describe(code, detail))
  }

  // ---- the event stream -----------------------------------------------------------------------------------

  /** A prefix that ends with the first failure. */
  function UpToFailure(events: seq<Event>): seq<Event> {
    if events == [] then []
    else if events[0].Failed? then [events[0]]
    else [events[0]] + UpToFailure(events[1..])
  }

  lemma UpToFailureFront(event: Option<Event>, rest: seq<Event>)
    ensures UpToFailure(AsSeq(event) + rest)
      == AsSeq(event) + if event.Some? && event.value.Failed? then [] else UpToFailure(rest)
  {
    if event.Some? {
      assert (AsSeq(event) + rest)[1..] == rest;
    } else {
      assert AsSeq(event) + rest == rest;
    }
  }

  class EventStream {
    const items: seq<Item>
    var pos: nat
    var done: bool
    var phase: string

    ghost predicate Valid()
      reads this
    {
      pos <= |items|
    }

    /** The events still to come. */
    ghost function Rest(): seq<Event>
      reads this
      requires Valid()
    {
      if done then [] else UpToFailure(EventsIn(items, pos, |items|, phase))
    }

    /** Since `from`, where the label was `label0`, the stream has read exactly `events`. */
    ghost predicate HasRead(from: nat, label0: string, events: seq<Event>)
      reads this
      requires Valid()
    {
      from <= pos && phase == PhaseIn(items, from, pos, label0) && events == EventsIn(items, from, pos, label0)
    }

    constructor (items: seq<Item>)
      ensures Valid() && this.items == items && pos == 0 && phase == "" && !done
      ensures Rest() == UpToFailure(AllEvents(items))
    {
      this.items := items;
      pos, done, phase := 0, false, "";
    }

    /** Reads and translates one item. */
    method Read(ghost from: nat, ghost label0: string, ghost events: seq<Event>) returns (event: Option<Event>)
      requires Valid() && pos < |items| && !done && HasRead(from, label0, events)
      modifies this
      ensures Valid() && pos == old(pos) + 1
      ensures HasRead(from, label0, events + AsSeq(event))
      ensures done == (event.Some? && event.value.Failed?)
      ensures old(Rest()) == AsSeq(event) + Rest()
    {
      EventsFront(items, pos, phase);
      UpToFailureFront(One(items[pos], phase).0, EventsIn(items, pos + 1, |items|, One(items[pos], phase).1));
      match items[pos] {
        case Message(frame) =>
          event, phase := Translate(frame, phase).0, Translate(frame, phase).1;
        case Status(detail) =>
          event := Some(Event.Failed(Grpc, detail));
      }
      pos, done := pos + 1, event.Some? && event.value.Failed?;
    }

    /** Yields the next event: skips empty frames, stops at the frame it yields, and ends after an error. */
    method Next(ghost from: nat, ghost label0: string, ghost events: seq<Event>) returns (event: Option<Event>)
      requires Valid() && HasRead(from, label0, events)
      modifies this
      ensures Valid() && old(Rest()) == AsSeq(event) + Rest()
      ensures event.None? ==> Rest() == []
      ensures HasRead(from, label0, events + AsSeq(event))
      ensures event.Some? ==> from < pos && EventsIn(items, from, pos - 1, label0) == events
      ensures event.None? ==> old(done) || pos == |items|
      ensures done ==> old(done) || (event.Some? && event.value.Failed?)
    {
      event := None;
      if done { return; }
      while pos < |items|
        invariant Valid() && !done && event.None?
        invariant Rest() == old(Rest()) && HasRead(from, label0, events)
      {
        assert EventsIn(items, from, pos, label0) == events;
        event := Read(from, label0, events);
        if event.Some? { return; }
      }
    }
  }

  // ---- the select loop ------------------------------------------------------------------------------------

  predicate Decides(e: Event) {
    e.Finished? || e.Failed?
  }

  /** Where the first event that decides the request stands, or the length if the stream just ends. */
  function Decisive(events: seq<Event>): (k: nat)
    ensures k <= |events|
    ensures k < |events| ==> Decides(events[k])
    ensures forall i :: 0 <= i < k ==> !Decides(events[i])
  {
    DecisiveFrom(events, 0)
  }

  function DecisiveFrom(events: seq<Event>, from: nat): (k: nat)
    requires from <= |events|
    ensures from <= k <= |events|
    ensures k < |events| ==> Decides(events[k])
    ensures forall i :: from <= i < k ==> !Decides(events[i])
    decreases |events| - from
  {
    if from == |events| || Decides(events[from]) then from else DecisiveFrom(events, from + 1)
  }

  function Forwarded(e: Event): Body
    requires !Decides(e)
  {
    match e
    case Line(chunk) => Log(chunk)
    case Stage(phase, percent) => Progress(phase, percent)
  }

  function Forward(events: seq<Event>): (bodies: seq<Body>)
    requires forall i :: 0 <= i < |events| ==> !Decides(events[i])
    ensures |bodies| == |events|
    ensures forall i :: 0 <= i < |bodies| ==> bodies[i] == Forwarded(events[i]) && IsStreamed(bodies[i])
  {
    seq(|events|, i requires 0 <= i < |events| => Forwarded(events[i]))
  }

  const COMPILE_ENDED := "compile ended without producing an artifact"
  const UPLOAD_ENDED := "upload ended without completing"
  const INSTALL_ENDED := "platform install ended without completing"

  function EndOfStream(kind: Kind): Body {
    match kind
    case Compile => Failure(Daemon, COMPILE_ENDED)
    case Upload | Flash => Failure(Daemon, UPLOAD_ENDED)
    case Install => Failure(Daemon, INSTALL_ENDED)
  }

  const CANCELLED: Body := Error(Cancelled, "cancelled")

  /** The terminal that event `k` (or the stream's end) earns. */
  function Verdict(kind: Kind, events: seq<Event>, k: nat, reinit: Reinit): (b: Body)
    requires k <= |events| && (k < |events| ==> Decides(events[k]))
    ensures IsTerminal(b)
  {
    if k == |events| then EndOfStream(kind)
    else
      match events[k]
      case Failed(code, detail) => Failure(code, detail)
      case Finished(payload) =>
        if kind.Install? && reinit.Broke? then Failure(reinit.code, reinit.detail) else Result(payload)
  }

  /** What a request's pump must say about its stream when its token is first seen set at poll number `cancelAt`:
      the events up to the deciding one, then one terminal; a token seen first wins over the event at hand. */
  function Outcome(kind: Kind, events: seq<Event>, cancelAt: nat, reinit: Reinit): seq<Body> {
    var k := Decisive(events);
    if cancelAt <= k
    then Forward(events[..cancelAt]) + [CANCELLED]
    else Forward(events[..k]) + [Verdict(kind, events, k, reinit)]
  }

  /** How many events such a run takes from its stream. */
  function Taken(events: seq<Event>, cancelAt: nat): nat {
    var k := Decisive(events);
    if cancelAt <= k then cancelAt else if k < |events| then k + 1 else k
  }

  lemma {:induction false} UpToFailureIsPrefix(events: seq<Event>)
    ensures var cut := UpToFailure(events);
      && cut <= events
      && (forall i :: 0 <= i < |cut| - 1 ==> !cut[i].Failed?)
      && (|cut| < |events| ==> cut != [] && Last(cut).Failed?)
  {
    if events != [] && !events[0].Failed? {
      UpToFailureIsPrefix(events[1..]);
      var cut, rest := UpToFailure(events), UpToFailure(events[1..]);
      assert forall i :: 0 < i < |cut| ==> cut[i] == rest[i - 1];
    }
  }

  lemma DecisiveUpToFailure(events: seq<Event>)
    ensures Decisive(UpToFailure(events)) == Decisive(events)
    ensures UpToFailure(events) <= events
    ensures |UpToFailure(events)| < |events| ==> Decisive(events) < |UpToFailure(events)|
  {
    UpToFailureIsPrefix(events);
    var cut := UpToFailure(events);
    assert |cut| < |events| ==> Decides(cut[|cut| - 1]);
  }

  lemma SamePrefix(a: seq<Event>, b: seq<Event>, n: nat)
    requires a <= b && n <= |a|
    ensures a[..n] == b[..n] && (n < |a| ==> a[n] == b[n])
  {
  }

  /** The stream's own stop after an error is never visible behind the select loop. */
  lemma OutcomeUpToFailure(kind: Kind, events: seq<Event>, cancelAt: nat, reinit: Reinit)
    ensures Outcome(kind, UpToFailure(events), cancelAt, reinit) == Outcome(kind, events, cancelAt, reinit)
    ensures Taken(UpToFailure(events), cancelAt) == Taken(events, cancelAt)
  {
    DecisiveUpToFailure(events);
    var cut, k := UpToFailure(events), Decisive(events);
    SamePrefix(cut, events, k);
    if cancelAt <= k { SamePrefix(cut, events, cancelAt); }
  }

  /** Whatever the stream and the moment of cancellation, the request is answered once, at the end. */
  lemma OutcomeIsAnswered(kind: Kind, events: seq<Event>, cancelAt: nat, reinit: Reinit)
    ensures OneTerminalLast(Outcome(kind, events, cancelAt, reinit))
    ensures |Outcome(kind, events, cancelAt, reinit)| <= cancelAt + 1
  {
  }

  // ---- what a request is told, in plain words -------------------------------------------------------------

  /** The error bears this code, and its message ends with what went wrong. */
  ghost predicate Reports(body: Body, code: Code, detail: string) {
    && body.Error? && body.code == code
    && (code.Cancelled? || (|detail| <= |body.message| && body.message[|body.message| - |detail|..] == detail))
  }

  /** A tool's text goes out as it came, a stage under its name with its percentage. */
  predicate Shows(body: Body, event: Event) {
    match event
    case Line(chunk) => body == Log(chunk)
    case Stage(phase, percent) => body == Progress(phase, percent)
    case _ => false
  }

  /** The first event that decides the request is `events[k]`, or none does and `k` is their number. */
  ghost predicate DecidesAt(events: seq<Event>, k: nat) {
    && k <= |events| && (k < |events| ==> events[k].Finished? || events[k].Failed?)
    && forall i :: 0 <= i < k ==> !events[i].Finished? && !events[i].Failed?
  }

  /** The terminal a request gets when event `k`, or the end of its stream, decides it: the result handed over, unless
      it is an install whose reinit failed; else the failure, or what was left undone. */
  ghost predicate Concludes(kind: Kind, events: seq<Event>, k: nat, reinit: Reinit, body: Body) {
    if k >= |events| then
      Reports(body, Daemon, match kind case Compile => COMPILE_ENDED case Install => INSTALL_ENDED case _ => UPLOAD_ENDED)
    else
      match events[k]
      case Finished(payload) =>
        if kind.Install? && reinit.Broke? then Reports(body, reinit.code, reinit.detail) else body == Result(payload)
      case Failed(code, detail) => Reports(body, code, detail)
      case _ => false
  }

  /** One body for each of the first `n` events, showing it, and one more. */
  ghost predicate ShowsFirst(out: seq<Body>, events: seq<Event>, n: nat) {
    |out| == n + 1 && n <= |events| && forall i :: 0 <= i < n ==> Shows(out[i], events[i])
  }

  /** `out` tells a request all it is owed about its stream: every event before the deciding one, then how that one
      concludes it; or, if its token is first seen set at an earlier poll, the events before that poll and that it was
      cancelled. */
  ghost predicate Tells(kind: Kind, events: seq<Event>, cancelAt: nat, reinit: Reinit, out: seq<Body>) {
    exists k :: TellsUpTo(kind, events, k, cancelAt, reinit, out)
  }

  ghost predicate TellsUpTo(kind: Kind, events: seq<Event>, k: nat, cancelAt: nat, reinit: Reinit, out: seq<Body>) {
    && DecidesAt(events, k)
    && if cancelAt <= k then ShowsFirst(out, events, cancelAt) && out[cancelAt].Error? && out[cancelAt].code == Cancelled
       else ShowsFirst(out, events, k) && Concludes(kind, events, k, reinit, out[k])
  }

  /** An error's message names its kind before what went wrong; an I/O error speaks for itself. */
  lemma FailureReports(code: Code, detail: string)
    ensures Reports(Failure(code, detail), code, detail)
    ensures code.InvalidRequest? ==> "invalid request: " <= Failure(code, detail).message
    ensures code.Daemon? ==> "daemon: " <= Failure(code, detail).message
    ensures code.Grpc? ==> "grpc: " <= Failure(code, detail).message
    ensures code.Resource? ==> "resource: " <= Failure(code, detail).message
    ensures code.Io? ==> Failure(code, detail).message == detail
    ensures code.Cancelled? ==> Failure(code, detail) == CANCELLED
  {
    var message := Describe(code, detail);
    assert !code.Cancelled? ==> message[|message| - |detail|..] == detail;
  }

  lemma VerdictConcludes(kind: Kind, events: seq<Event>, k: nat, reinit: Reinit)
    requires k <= |events| && (k < |events| ==> Decides(events[k]))
    ensures Concludes(kind, events, k, reinit, Verdict(kind, events, k, reinit))
  {
    FailureReports(Daemon, match kind case Compile => COMPILE_ENDED case Install => INSTALL_ENDED case _ => UPLOAD_ENDED);
    if k < |events| && events[k].Failed? { FailureReports(events[k].code, events[k].detail); }
    if reinit.Broke? { FailureReports(reinit.code, reinit.detail); }
  }

  lemma ForwardShows(events: seq<Event>, n: nat, last: Body)
    requires n <= |events| && forall i :: 0 <= i < n ==> !Decides(events[i])
    ensures ShowsFirst(Forward(events[..n]) + [last], events, n)
  {
    forall i | 0 <= i < n ensures Shows((Forward(events[..n]) + [last])[i], events[i]) {
      assert events[..n][i] == events[i];
    }
  }

  /** The specified outcome tells the request what it is owed. */
  lemma OutcomeTells(kind: Kind, events: seq<Event>, cancelAt: nat, reinit: Reinit)
    ensures Tells(kind, events, cancelAt, reinit, Outcome(kind, events, cancelAt, reinit))
  {
    var k := Decisive(events);
    if cancelAt <= k { ForwardShows(events, cancelAt, CANCELLED); } else { ForwardShows(events, k, Verdict(kind, events, k, reinit)); }
    VerdictConcludes(kind, events, k, reinit);
    assert TellsUpTo(kind, events, k, cancelAt, reinit, Outcome(kind, events, cancelAt, reinit));
  }

  /** What is told of a stream is all but fixed by it: two accounts of one stream agree on every body shown and on
      everything handed over. */
  lemma TellingIsUnique(kind: Kind, events: seq<Event>, cancelAt: nat, reinit: Reinit, a: seq<Body>, b: seq<Body>)
    requires Tells(kind, events, cancelAt, reinit, a) && Tells(kind, events, cancelAt, reinit, b)
    ensures |a| == |b| > 0 && forall i :: 0 <= i < |a| ==> a[i] == b[i] || (i == |a| - 1 && a[i].Error? && b[i].Error? && a[i].code == b[i].code)
  {
    var k :| TellsUpTo(kind, events, k, cancelAt, reinit, a);
    var l :| TellsUpTo(kind, events, l, cancelAt, reinit, b);
    DecidesOnce(events, k, l);
  }

  lemma DecidesOnce(events: seq<Event>, k: nat, l: nat)
    requires DecidesAt(events, k) && DecidesAt(events, l)
    ensures k == l
  {
  }

  /** One poll of the stream, seen on the whole event sequence. */
  lemma PollStep(events: seq<Event>, poll: nat, event: Option<Event>, rest: seq<Event>)
    requires poll <= Decisive(events)
    requires events[poll..] == AsSeq(event) + rest && (event.None? ==> rest == [])
    ensures event.None? ==> poll == |events| && events[..poll] + AsSeq(event) == events[..poll]
    ensures event.Some? ==> poll < |events| && event.value == events[poll] && events[..poll + 1] == events[..poll] + AsSeq(event)
    ensures event.Some? && !Decides(event.value) ==>
      poll < Decisive(events) && rest == events[poll + 1..] && Forward(events[..poll + 1]) == Forward(events[..poll]) + [Forwarded(event.value)]
  {
    if event.Some? {
      assert events[poll] == events[poll..][0];
      assert rest == events[poll..][1..];
    }
  }

  /** The stream decides the request at poll `n`, before the token is seen. */
  lemma DecidedAt(kind: Kind, events: seq<Event>, n: nat, cancelAt: nat, reinit: Reinit)
    requires n < cancelAt && n <= Decisive(events)
    requires n < |events| ==> Decides(events[n])
    ensures Outcome(kind, events, cancelAt, reinit) == Forward(events[..n]) + [Verdict(kind, events, n, reinit)]
    ensures Taken(events, cancelAt) == if n < |events| then n + 1 else n
  {
  }

  /** The request is decided by the end of its stream. */
  predicate RunsDry(events: seq<Event>, cancelAt: nat) {
    Decisive(events) == |events| < cancelAt
  }

  /** `items[from..pos]` is no longer than `n` events need: one frame less would not yield them. */
  ghost predicate ReadsJust(items: seq<Item>, from: nat, pos: nat, label0: string, n: nat) {
    if n == 0 then pos == from else from < pos <= |items| && |EventsIn(items, from, pos - 1, label0)| < n
  }

  /** Where a pump that started at `from` has stopped reading: at the stream's end if that decided the request, else
      just behind the frame of the last event it took. */
  ghost predicate StopsAt(items: seq<Item>, from: nat, pos: nat, label0: string, events: seq<Event>, cancelAt: nat) {
    if RunsDry(events, cancelAt) then pos == |items| else ReadsJust(items, from, pos, label0, Taken(events, cancelAt))
  }

  /** What the select loop sends when event `e` is ready, or the stream has ended. */
  method React(kind: Kind, e: Option<Event>, reinit: Reinit) returns (b: Body, last: bool)
    ensures last == (e.None? || Decides(e.value))
    ensures !last ==> b == Forwarded(e.value)
    ensures last ==> b == Verdict(kind, AsSeq(e), 0, reinit)
    ensures if last then Concludes(kind, AsSeq(e), 0, reinit, b) else Shows(b, e.value)
  {
    if e.None? || Decides(e.value) { VerdictConcludes(kind, AsSeq(e), 0, reinit); }
    match e {
      case Some(Line(chunk)) =>
        return Log(chunk), false;
      case Some(Stage(phase, percent)) =>
        return Progress(phase, percent), false;
      case Some(Finished(payload)) =>
        if kind.Install? && reinit.Broke? { return Failure(reinit.code, reinit.detail), true; }
        return Result(payload), true;
      case Some(Failed(code, detail)) =>
        return Failure(code, detail), true;
      case None =>
        return EndOfStream(kind), true;
    }
  }

  /** The loop's account after `poll` events: what was read, what was said, and what is still to come. */
  ghost predicate Pumped(stream: EventStream, from: nat, label0: string, events: seq<Event>, poll: nat, out: seq<Body>)
    reads stream
  {
    && stream.Valid() && poll <= Decisive(events)
    && ReadsJust(stream.items, from, stream.pos, label0, poll)
    && stream.Rest() == events[poll..]
    && stream.HasRead(from, label0, events[..poll])
    && out == Forward(events[..poll])
  }

  /** The pump has ended: all it had to say, all it took, and no frame more. */
  ghost predicate PumpedOut(kind: Kind, stream: EventStream, from: nat, label0: string, events: seq<Event>, cancelAt: nat,
                            reinit: Reinit, out: seq<Body>)
    reads stream
  {
    && stream.Valid() && out == Outcome(kind, events, cancelAt, reinit) && Tells(kind, events, cancelAt, reinit, out)
    && Taken(events, cancelAt) <= |events| && stream.HasRead(from, label0, events[..Taken(events, cancelAt)])
  }

  /** One turn of the select with the token not set: awaits the stream and answers what it yields. */
  method PumpOnce(kind: Kind, stream: EventStream, reinit: Reinit, ghost cancelAt: nat, ghost from: nat, ghost label0: string,
                  ghost events: seq<Event>, ghost poll: nat, ghost out: seq<Body>)
    returns (b: Body, last: bool)
    requires Pumped(stream, from, label0, events, poll, out) && poll < cancelAt
    modifies stream
    ensures stream.done ==> last || old(stream.done)
    ensures !last ==> Pumped(stream, from, label0, events, poll + 1, out + [b])
    ensures last ==> PumpedOut(kind, stream, from, label0, events, cancelAt, reinit, out + [b])
    ensures last ==> old(stream.done) || StopsAt(stream.items, from, stream.pos, label0, events, cancelAt)
  {
    var event := stream.Next(from, label0, events[..poll]);
    PollStep(events, poll, event, stream.Rest());
    b, last := React(kind, event, reinit);
    if last {
      DecidedAt(kind, events, poll, cancelAt, reinit);
      OutcomeTells(kind, events, cancelAt, reinit);
    }
  }

  /** A token seen at the head of the select ends the pump where it stands. */
  lemma CutShort(kind: Kind, stream: EventStream, from: nat, label0: string, events: seq<Event>, cancelAt: nat, reinit: Reinit,
                 out: seq<Body>)
    requires Pumped(stream, from, label0, events, cancelAt, out)
    ensures PumpedOut(kind, stream, from, label0, events, cancelAt, reinit, out + [CANCELLED])
    ensures StopsAt(stream.items, from, stream.pos, label0, events, cancelAt)
  {
    OutcomeTells(kind, events, cancelAt, reinit);
  }

  /** `compile_stream`, `upload_stream` and `install_stream`: the biased select over the token and the stream. */
  method RunPump(kind: Kind, stream: EventStream, cancelAt: nat, reinit: Reinit) returns (out: seq<Body>)
    requires stream.Valid()
    modifies stream
    ensures PumpedOut(kind, stream, old(stream.pos), old(stream.phase), old(stream.Rest()), cancelAt, reinit, out)
    ensures old(stream.done) || StopsAt(stream.items, old(stream.pos), stream.pos, old(stream.phase), old(stream.Rest()), cancelAt)
  {
    ghost var events := stream.Rest();
    var poll := 0;
    out := [];
    while poll < cancelAt
      invariant poll <= cancelAt
      invariant Pumped(stream, old(stream.pos), old(stream.phase), events, poll, out) && (stream.done ==> old(stream.done))
    {
      var b, last := PumpOnce(kind, stream, reinit, cancelAt, old(stream.pos), old(stream.phase), events, poll, out);
      out := out + [b];
      if last { return; }
      poll := poll + 1;
    }
    CutShort(kind, stream, old(stream.pos), old(stream.phase), events, cancelAt, reinit, out);
    out := out + [CANCELLED];
  }

  /** A whole request over any frames, any moment of cancellation and any reinit. */
  method Serve(kind: Kind, items: seq<Item>, cancelAt: nat, reinit: Reinit) returns (out: seq<Body>, read: nat)
    ensures out == Outcome(kind, AllEvents(items), cancelAt, reinit)
    ensures Tells(kind, AllEvents(items), cancelAt, reinit, out)
    // What was read translates to exactly the events that were taken, and nothing past their last frame is read.
    ensures read <= |items| && EventsIn(items, 0, read, "") <= AllEvents(items)
    ensures |EventsIn(items, 0, read, "")| == Taken(AllEvents(items), cancelAt)
    ensures StopsAt(items, 0, read, "", AllEvents(items), cancelAt)
  {
    var stream := new EventStream(items);
    OutcomeUpToFailure(kind, AllEvents(items), cancelAt, reinit);
    OutcomeTells(kind, AllEvents(items), cancelAt, reinit);
    out := RunPump(kind, stream, cancelAt, reinit);
    read := stream.pos;
    EventsSplit(items, 0, read, |items|, "");
  }
}
