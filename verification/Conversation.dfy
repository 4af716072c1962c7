/** What the bodies sent under one request id may look like, as a small automaton and in plain words. */
module Conversation {
  import opened Protocol
  import opened Batch

  /** Silent: nothing yet. Streaming: text or progress, no terminal. Answered: a result and nothing else.
      Refused: an error and nothing else. Replied, Failed: streamed bodies, then a result, or an error.
      Live: a result followed by serial data. Dead: a result, perhaps serial data, then an error. Broken: the rest. */
  datatype Phase = Silent | Streaming | Answered | Refused | Replied | Failed | Live | Dead | Broken

  function Hear(p: Phase, b: Body): Phase {
    match p
    case Silent =>
      (match b
       case Log(_) => Streaming
       case Progress(_, _) => Streaming
       case Result(_) => Answered
       case Error(_, _) => Refused
       case _ => Broken)
    case Streaming =>
      (match b
       case Log(_) => Streaming
       case Progress(_, _) => Streaming
       case Result(_) => Replied
       case Error(_, _) => Failed
       case _ => Broken)
    case Answered => if b.MonitorData? then Live else if b.Error? then Dead else Broken
    case Live => if b.MonitorData? then Live else if b.Error? then Dead else Broken
    case Refused => Broken
    case Replied => Broken
    case Failed => Broken
    case Dead => Broken
    case Broken => Broken
  }

  function PhaseOf(bodies: seq<Body>): Phase {
    if bodies == [] then Silent else Hear(PhaseOf(Front(bodies)), Last(bodies))
  }

  predicate IsStreamed(b: Body) {
    b.Log? || b.Progress?
  }

  /** Any number of streamed bodies, then exactly one terminal, and nothing after it. */
  ghost predicate OneTerminalLast(bodies: seq<Body>) {
    && bodies != []
    && IsTerminal(Last(bodies))
    && forall i :: 0 <= i < |bodies| - 1 ==> IsStreamed(bodies[i])
  }

  /** A result, then serial data only, then at most one error at the very end. */
  ghost predicate MonitorTranscript(bodies: seq<Body>) {
    && bodies != []
    && bodies[0].Result?
    && (forall i :: 0 < i < |bodies| - 1 ==> bodies[i].MonitorData?)
    && (|bodies| > 1 ==> Last(bodies).MonitorData? || Last(bodies).Error?)
  }

  lemma PhaseSnoc(bodies: seq<Body>, b: Body)
    ensures PhaseOf(bodies + [b]) == Hear(PhaseOf(bodies), b)
  {
    assert Front(bodies + [b]) == bodies;
  }

  lemma {:induction false} PhaseStreaming(bodies: seq<Body>)
    ensures PhaseOf(bodies) in {Silent, Streaming} <==> forall i :: 0 <= i < |bodies| ==> IsStreamed(bodies[i])
    ensures PhaseOf(bodies).Silent? <==> bodies == []
  {
    if bodies != [] {
      PhaseStreaming(Front(bodies));
      assert forall i :: 0 <= i < |bodies| ==> bodies[i] == if i < |bodies| - 1 then Front(bodies)[i] else Last(bodies);
    }
  }

  lemma PhaseSettled(bodies: seq<Body>)
    ensures PhaseOf(bodies) in {Answered, Refused, Replied, Failed} <==> OneTerminalLast(bodies)
  {
    if bodies != [] {
      PhaseStreaming(Front(bodies));
      assert forall i :: 0 <= i < |bodies| - 1 ==> bodies[i] == Front(bodies)[i];
    }
  }

  lemma {:induction false} PhaseMonitor(bodies: seq<Body>)
    ensures PhaseOf(bodies) in {Answered, Live, Dead} <==> MonitorTranscript(bodies)
    ensures PhaseOf(bodies).Answered? <==> |bodies| == 1 && bodies[0].Result?
    ensures PhaseOf(bodies).Refused? <==> |bodies| == 1 && bodies[0].Error?
    ensures PhaseOf(bodies).Live? ==> Last(bodies).MonitorData?
    ensures PhaseOf(bodies).Dead? ==> Last(bodies).Error?
  {
    PhaseStreaming(bodies);
    if bodies != [] {
      PhaseMonitor(Front(bodies));
      PhaseStreaming(Front(bodies));
      assert forall i :: 0 <= i < |bodies| - 1 ==> bodies[i] == Front(bodies)[i];
    }
  }

  /** Gluing chunks never changes the phase, so what holds of the bodies said holds of the frames on the wire. */
  lemma {:induction false} PhaseOfCoarser(id: string, fine: seq<Body>, coarse: seq<Body>)
    requires Coarsens(Stamp(id, fine), Stamp(id, coarse))
    ensures PhaseOf(fine) == PhaseOf(coarse)
    decreases |fine|
  {
    if fine != [] {
      var fs, cs := Stamp(id, fine), Stamp(id, coarse);
      assert Front(fs) == Stamp(id, Front(fine)) && Front(cs) == Stamp(id, Front(coarse));
      if Alone(fs, cs) {
        PhaseOfCoarser(id, Front(fine), Front(coarse));
      } else {
        var f, c := Last(fs), Last(cs);
        var rest := Remainder(c, f);
        StampSnoc(id, Front(coarse), rest.body);
        assert Response(id, rest.body) == rest;
        PhaseOfCoarser(id, Front(fine), Front(coarse) + [rest.body]);
        PhaseSnoc(Front(coarse), rest.body);
      }
    }
  }
}
