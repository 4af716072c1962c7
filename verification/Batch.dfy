/** Coalescing of streamed text (src/server/batch.rs) and the theory of what it may and may not change. */
module Batch {
  import opened Protocol

  /** Two chunks of one stream: the same request id and the same text variant. */
  predicate SameStream(a: Response, b: Response) {
    && a.id == b.id
    && ((a.body.Log? && b.body.Log?) || (a.body.MonitorData? && b.body.MonitorData?))
  }

  function Text(r: Response): string
    requires IsBatchable(r.body)
  {
    match r.body
    case Log(chunk) => chunk
    case MonitorData(data) => data
  }

  function WithText(r: Response, text: string): Response
    requires IsBatchable(r.body)
  {
    match r.body
    case Log(_) => r.(body := Log(text))
    case MonitorData(_) => r.(body := MonitorData(text))
  }

  function Join(a: Response, b: Response): Response
    requires SameStream(a, b)
  {
    WithText(a, Text(a) + Text(b))
  }

  /** What appending one response to a buffer means. */
  function Push(buf: seq<Response>, resp: Response): seq<Response> {
    if buf != [] && SameStream(Last(buf), resp)
    then Front(buf) + [Join(Last(buf), resp)]
    else buf + [resp]
  }

  function Coalesce(rs: seq<Response>): seq<Response> {
    if rs == [] then [] else Push(Coalesce(Front(rs)), Last(rs))
  }

  /** `coarse` is `fine` with some neighbouring chunks of one stream glued together: read from the back, each
      piece is either an entry of its own or the tail of the entry that its predecessor also belongs to. */
  ghost predicate Coarsens(fine: seq<Response>, coarse: seq<Response>)
    decreases |fine|
  {
    if fine == [] then coarse == []
    else coarse != [] && (Alone(fine, coarse) || Glued(fine, coarse))
  }

  ghost predicate Alone(fine: seq<Response>, coarse: seq<Response>)
    requires fine != [] && coarse != []
    decreases |fine|, 0
  {
    Last(coarse) == Last(fine) && Coarsens(Front(fine), Front(coarse))
  }

  ghost predicate Glued(fine: seq<Response>, coarse: seq<Response>)
    requires fine != [] && coarse != []
    decreases |fine|, 0
  {
    var f, c := Last(fine), Last(coarse);
    && SameStream(c, f)
    && |Text(f)| <= |Text(c)|
    && Text(c)[|Text(c)| - |Text(f)|..] == Text(f)
    && Coarsens(Front(fine), Front(coarse) + [Remainder(c, f)])
  }

  /** The entry without its last piece. */
  function Remainder(c: Response, f: Response): Response
    requires SameStream(c, f) && |Text(f)| <= |Text(c)|
  {
    WithText(c, Text(c)[..|Text(c)| - |Text(f)|])
  }

  lemma RemainderJoins(c: Response, f: Response)
    requires SameStream(c, f) && |Text(f)| <= |Text(c)| && Text(c)[|Text(c)| - |Text(f)|..] == Text(f)
    ensures SameStream(Remainder(c, f), f) && Join(Remainder(c, f), f) == c
  {
    assert Text(Remainder(c, f)) + Text(f) == Text(c);
  }

  lemma JoinLeavesRemainder(c: Response, f: Response)
    requires SameStream(c, f)
    ensures var glued := Join(c, f);
      && SameStream(glued, f) && |Text(f)| <= |Text(glued)| && Text(glued)[|Text(glued)| - |Text(f)|..] == Text(f)
      && Remainder(glued, f) == c
  {
    var glued := Join(c, f);
    assert Text(glued)[..|Text(c)|] == Text(c) && Text(glued)[|Text(c)|..] == Text(f);
  }

  /** No two neighbours could still be merged. */
  ghost predicate Tight(rs: seq<Response>) {
    forall i, j :: 0 <= i < |rs| && j == i + 1 < |rs| ==> !SameStream(rs[i], rs[j])
  }

  // ---- building coarsenings -------------------------------------------------------------------------------

  lemma CoarsensAlone(fine: seq<Response>, coarse: seq<Response>, r: Response)
    requires Coarsens(fine, coarse)
    ensures Coarsens(fine + [r], coarse + [r])
  {
    assert Front(fine + [r]) == fine && Front(coarse + [r]) == coarse;
    assert Alone(fine + [r], coarse + [r]);
  }

  lemma CoarsensGlued(fine: seq<Response>, coarse: seq<Response>, r: Response)
    requires coarse != [] && Coarsens(fine, coarse) && SameStream(Last(coarse), r)
    ensures Coarsens(fine + [r], Front(coarse) + [Join(Last(coarse), r)])
  {
    var c, glued := Last(coarse), Join(Last(coarse), r);
    var out := Front(coarse) + [glued];
    assert Front(fine + [r]) == fine && Last(fine + [r]) == r && Front(out) == Front(coarse) && Last(out) == glued;
    JoinLeavesRemainder(c, r);
    assert Front(out) + [c] == coarse;
    assert Glued(fine + [r], out);
  }

  /** Pushing the next response coalesced keeps a buffered suffix a coarsening of everything pushed. */
  lemma CoarsensPush(fine: seq<Response>, before: seq<Response>, buf: seq<Response>, r: Response)
    requires Coarsens(fine, before + buf)
    ensures Coarsens(fine + [r], before + Push(buf, r))
  {
    if buf != [] && SameStream(Last(buf), r) {
      CoarsensGlued(fine, before + buf, r);
      assert Front(before + buf) + [Join(Last(buf), r)] == before + Push(buf, r);
    } else {
      CoarsensAlone(fine, before + buf, r);
      assert before + buf + [r] == before + Push(buf, r);
    }
  }

  lemma CoarsensPushWhole(fine: seq<Response>, buf: seq<Response>, r: Response)
    requires Coarsens(fine, buf)
    ensures Coarsens(fine + [r], Push(buf, r))
  {
    assert [] + buf == buf && [] + Push(buf, r) == Push(buf, r);
    CoarsensPush(fine, [], buf, r);
  }

  lemma {:induction false} CoarsensAppend(f1: seq<Response>, c1: seq<Response>, f2: seq<Response>, c2: seq<Response>)
    requires Coarsens(f1, c1) && Coarsens(f2, c2)
    ensures Coarsens(f1 + f2, c1 + c2)
    decreases |f2|
  {
    if f2 == [] {
      assert f1 + f2 == f1 && c1 + c2 == c1;
    } else if Alone(f2, c2) {
      CoarsensAppend(f1, c1, Front(f2), Front(c2));
      assert f1 + f2 == f1 + Front(f2) + [Last(f2)] && c1 + c2 == c1 + Front(c2) + [Last(f2)];
      CoarsensAlone(f1 + Front(f2), c1 + Front(c2), Last(f2));
    } else {
      var f, c := Last(f2), Last(c2);
      CoarsensAppend(f1, c1, Front(f2), Front(c2) + [Remainder(c, f)]);
      assert c1 + (Front(c2) + [Remainder(c, f)]) == c1 + Front(c2) + [Remainder(c, f)];
      assert f1 + f2 == f1 + Front(f2) + [f] && c1 + c2 == c1 + Front(c2) + [c];
      CoarsensReglued(f1 + Front(f2), c1 + Front(c2), c, f);
    }
  }

  lemma CoarsensReglued(fine: seq<Response>, front: seq<Response>, c: Response, f: Response)
    requires SameStream(c, f) && |Text(f)| <= |Text(c)| && Text(c)[|Text(c)| - |Text(f)|..] == Text(f)
    requires Coarsens(fine, front + [Remainder(c, f)])
    ensures Coarsens(fine + [f], front + [c])
  {
    var whole := front + [Remainder(c, f)];
    RemainderJoins(c, f);
    assert Last(whole) == Remainder(c, f) && Front(whole) == front;
    CoarsensGlued(fine, whole, f);
  }

  // ---- the normal form ------------------------------------------------------------------------------------

  lemma TightPush(buf: seq<Response>, r: Response)
    requires Tight(buf)
    ensures Tight(Push(buf, r))
  {
    var out := Push(buf, r);
    if buf != [] && SameStream(Last(buf), r) && |buf| > 1 {
      assert !SameStream(buf[|buf| - 2], buf[|buf| - 1]);
      assert forall i :: 0 <= i < |buf| - 1 ==> out[i] == buf[i];
    }
  }

  /** Folding the buffer push over any sequence only glues neighbours, and leaves nothing more to glue. */
  lemma {:induction false} CoalesceIsNormal(rs: seq<Response>)
    ensures Coarsens(rs, Coalesce(rs)) && Tight(Coalesce(rs))
  {
    if rs != [] {
      CoalesceIsNormal(Front(rs));
      TightPush(Coalesce(Front(rs)), Last(rs));
      CoarsensPushWhole(Front(rs), Coalesce(Front(rs)), Last(rs));
      assert Front(rs) + [Last(rs)] == rs;
    }
  }

  lemma PushJoin(buf: seq<Response>, a: Response, b: Response)
    requires SameStream(a, b)
    ensures Push(Push(buf, a), b) == Push(buf, Join(a, b))
  {
    if buf != [] && SameStream(Last(buf), a) {
      var l := Last(buf);
      assert (Text(l) + Text(a)) + Text(b) == Text(l) + (Text(a) + Text(b));
      assert Front(Push(buf, a)) == Front(buf);
    } else {
      assert Front(Push(buf, a)) == buf;
    }
  }

  lemma CoalesceSnoc(rs: seq<Response>, r: Response)
    ensures Coalesce(rs + [r]) == Push(Coalesce(rs), r)
  {
    assert Front(rs + [r]) == rs && Last(rs + [r]) == r;
  }

  /** Chunk boundaries inside a run never matter. */
  lemma {:induction false} RechunkingIsInvisible(fine: seq<Response>, coarse: seq<Response>)
    requires Coarsens(fine, coarse)
    ensures Coalesce(fine) == Coalesce(coarse)
    decreases |fine|
  {
    if fine != [] {
      var f, c := Last(fine), Last(coarse);
      if Alone(fine, coarse) {
        RechunkingIsInvisible(Front(fine), Front(coarse));
      } else {
        RechunkingIsInvisible(Front(fine), Front(coarse) + [Remainder(c, f)]);
        RegluedCoalesces(Front(coarse), c, f);
      }
    }
  }

  lemma RegluedCoalesces(front: seq<Response>, c: Response, f: Response)
    requires SameStream(c, f) && |Text(f)| <= |Text(c)| && Text(c)[|Text(c)| - |Text(f)|..] == Text(f)
    ensures Push(Coalesce(front + [Remainder(c, f)]), f) == Push(Coalesce(front), c)
  {
    CoalesceSnoc(front, Remainder(c, f));
    RemainderJoins(c, f);
    PushJoin(Coalesce(front), Remainder(c, f), f);
  }

  lemma {:induction false} CoalesceTight(rs: seq<Response>)
    requires Tight(rs)
    ensures Coalesce(rs) == rs
  {
    if rs != [] {
      CoalesceTight(Front(rs));
      assert Front(rs) + [Last(rs)] == rs;
      if |rs| > 1 { assert !SameStream(rs[|rs| - 2], rs[|rs| - 1]); }
    }
  }

  /** There is exactly one fully merged form of a sequence, and coalescing finds it. */
  lemma NormalFormIsUnique(rs: seq<Response>, out: seq<Response>)
    ensures out == Coalesce(rs) <==> Coarsens(rs, out) && Tight(out)
  {
    CoalesceIsNormal(rs);
    if Coarsens(rs, out) && Tight(out) {
      RechunkingIsInvisible(rs, out);
      CoalesceTight(out);
    }
  }

  ghost predicate BothReglueTo(a: seq<Response>, b: seq<Response>, c: seq<Response>) {
    Coarsens(a, c) && Coarsens(b, c)
  }

  /** Two sequences coalesce alike exactly when some sequence is a regluing of both. */
  lemma SameNormalForm(a: seq<Response>, b: seq<Response>)
    ensures Coalesce(a) == Coalesce(b) <==> exists c :: BothReglueTo(a, b, c)
  {
    CoalesceIsNormal(a);
    CoalesceIsNormal(b);
    if Coalesce(a) == Coalesce(b) {
      assert BothReglueTo(a, b, Coalesce(a));
    }
    forall c | BothReglueTo(a, b, c) ensures Coalesce(a) == Coalesce(b) {
      RechunkingIsInvisible(a, c);
      RechunkingIsInvisible(b, c);
    }
  }

  /** How many maximal runs of one stream a sequence has (a non-text response is a run of its own). */
  function Runs(rs: seq<Response>): nat {
    if rs == [] then 0
    else Runs(Front(rs)) + (if |rs| > 1 && SameStream(rs[|rs| - 2], Last(rs)) then 0 else 1)
  }

  lemma {:induction false} CoalesceEnd(rs: seq<Response>)
    requires rs != []
    ensures Coalesce(rs) != []
    ensures forall r :: SameStream(Last(Coalesce(rs)), r) <==> SameStream(Last(rs), r)
  {
    var front := Coalesce(Front(rs));
    if front != [] && SameStream(Last(front), Last(rs)) {
      assert Last(Coalesce(rs)) == Join(Last(front), Last(rs));
    }
  }

  /** One entry per maximal run, and no regluing of the sequence is shorter. */
  lemma {:induction false} CoalescedLength(rs: seq<Response>)
    ensures |Coalesce(rs)| == Runs(rs)
  {
    if |rs| > 1 {
      CoalescedLength(Front(rs));
      CoalesceEnd(Front(rs));
      assert Last(Front(rs)) == rs[|rs| - 2];
    }
  }

  lemma CoalescedIsShortest(rs: seq<Response>, other: seq<Response>)
    requires Coarsens(rs, other)
    ensures |Coalesce(rs)| <= |other|
  {
    RechunkingIsInvisible(rs, other);
    RunsAtMostLength(other);
    CoalescedLength(other);
  }

  lemma RunsAtMostLength(rs: seq<Response>)
    ensures Runs(rs) <= |rs|
  {
  }

  // ---- what a coarsening preserves ------------------------------------------------------------------------

  /** One character of streamed text, or a message that is sent whole. */
  datatype Atom = Char(id: string, monitor: bool, c: char) | Whole(r: Response)

  function Spell(id: string, monitor: bool, text: string): seq<Atom> {
    if text == [] then [] else [Char(id, monitor, text[0])] + Spell(id, monitor, text[1..])
  }

  function Atoms(r: Response): seq<Atom> {
    if IsBatchable(r.body) then Spell(r.id, r.body.MonitorData?, Text(r)) else [Whole(r)]
  }

  /** The meaning of a response sequence once chunk boundaries are forgotten. */
  function Expand(rs: seq<Response>): seq<Atom> {
    if rs == [] then [] else Expand(Front(rs)) + Atoms(Last(rs))
  }

  lemma {:induction false} SpellAppend(id: string, monitor: bool, a: string, b: string)
    ensures Spell(id, monitor, a + b) == Spell(id, monitor, a) + Spell(id, monitor, b)
  {
    if a == [] {
      assert a + b == b;
    } else {
      SpellAppend(id, monitor, a[1..], b);
      assert (a + b)[1..] == a[1..] + b;
      Associative([Char(id, monitor, a[0])], Spell(id, monitor, a[1..]), Spell(id, monitor, b));
    }
  }

  lemma Associative<T>(a: seq<T>, b: seq<T>, c: seq<T>)
    ensures (a + b) + c == a + (b + c)
  {
  }

  lemma ExpandSnoc(rs: seq<Response>, r: Response)
    ensures Expand(rs + [r]) == Expand(rs) + Atoms(r)
  {
    assert Front(rs + [r]) == rs;
  }

  /** Regluing loses, adds and reorders nothing. */
  lemma {:induction false} CoarsensExpand(fine: seq<Response>, coarse: seq<Response>)
    requires Coarsens(fine, coarse)
    ensures Expand(fine) == Expand(coarse)
    decreases |fine|
  {
    if fine != [] {
      var f, c := Last(fine), Last(coarse);
      if Alone(fine, coarse) {
        CoarsensExpand(Front(fine), Front(coarse));
      } else {
        CoarsensExpand(Front(fine), Front(coarse) + [Remainder(c, f)]);
        calc {
          Expand(fine);
        ==
          Expand(Front(fine)) + Atoms(f);
        ==
          Expand(Front(coarse) + [Remainder(c, f)]) + Atoms(f);
        ==  { RegluedExpand(Front(coarse), c, f); }
          Expand(Front(coarse)) + Atoms(c);
        ==
          Expand(coarse);
        }
      }
    }
  }

  lemma RegluedExpand(front: seq<Response>, c: Response, f: Response)
    requires SameStream(c, f) && |Text(f)| <= |Text(c)| && Text(c)[|Text(c)| - |Text(f)|..] == Text(f)
    ensures Expand(front + [Remainder(c, f)]) + Atoms(f) == Expand(front) + Atoms(c)
  {
    var rest := Remainder(c, f);
    calc {
      Expand(front + [rest]) + Atoms(f);
    ==  { ExpandSnoc(front, rest); }
      (Expand(front) + Atoms(rest)) + Atoms(f);
    ==  { Associative(Expand(front), Atoms(rest), Atoms(f)); }
      Expand(front) + (Atoms(rest) + Atoms(f));
    ==  { RegluedAtoms(c, f); }
      Expand(front) + Atoms(c);
    }
  }

  lemma RegluedAtoms(c: Response, f: Response)
    requires SameStream(c, f) && |Text(f)| <= |Text(c)| && Text(c)[|Text(c)| - |Text(f)|..] == Text(f)
    ensures Atoms(Remainder(c, f)) + Atoms(f) == Atoms(c)
  {
    SpellAppend(c.id, c.body.MonitorData?, Text(Remainder(c, f)), Text(f));
    assert Text(Remainder(c, f)) + Text(f) == Text(c);
  }

  lemma {:induction false} ExpandAppend(a: seq<Response>, b: seq<Response>)
    ensures Expand(a + b) == Expand(a) + Expand(b)
  {
    if b == [] {
      assert a + b == a;
    } else {
      var front, r := Front(b), Last(b);
      assert a + b == (a + front) + [r];
      calc {
        Expand((a + front) + [r]);
      ==  { ExpandSnoc(a + front, r); }
        Expand(a + front) + Atoms(r);
      ==  { ExpandAppend(a, front); }
        (Expand(a) + Expand(front)) + Atoms(r);
      ==  { Associative(Expand(a), Expand(front), Atoms(r)); }
        Expand(a) + (Expand(front) + Atoms(r));
      }
    }
  }

  /** The bodies sent under one id, in order. */
  function Under(rs: seq<Response>, id: string): seq<Body> {
    if rs == [] then []
    else Under(Front(rs), id) + (if Last(rs).id == id then [Last(rs).body] else [])
  }

  function Stamp(id: string, bodies: seq<Body>): (rs: seq<Response>)
    ensures |rs| == |bodies|
    ensures forall i :: 0 <= i < |rs| ==> rs[i] == Response(id, bodies[i])
  {
    seq(|bodies|, i requires 0 <= i < |bodies| => Response(id, bodies[i]))
  }

  lemma UnderSnoc(rs: seq<Response>, r: Response, id: string)
    ensures Under(rs + [r], id) == if r.id == id then Under(rs, id) + [r.body] else Under(rs, id)
  {
    assert Front(rs + [r]) == rs;
  }

  lemma {:induction false} UnderAppend(a: seq<Response>, b: seq<Response>, id: string)
    ensures Under(a + b, id) == Under(a, id) + Under(b, id)
  {
    if b == [] {
      assert a + b == a;
    } else {
      var front, r := Front(b), Last(b);
      UnderAppend(a, front, id);
      assert a + b == (a + front) + [r];
      UnderSnoc(a + front, r, id);
      Associative(Under(a, id), Under(front, id), [r.body]);
    }
  }

  lemma StampSnoc(id: string, bodies: seq<Body>, b: Body)
    ensures Stamp(id, bodies + [b]) == Stamp(id, bodies) + [Response(id, b)]
  {
  }

  lemma StampedAlone(id: string, fine: seq<Body>, coarse: seq<Body>, b: Body)
    requires Coarsens(Stamp(id, fine), Stamp(id, coarse))
    ensures Coarsens(Stamp(id, fine + [b]), Stamp(id, coarse + [b]))
  {
    CoarsensAlone(Stamp(id, fine), Stamp(id, coarse), Response(id, b));
    StampSnoc(id, fine, b);
    StampSnoc(id, coarse, b);
  }

  lemma StampedGlued(fine: seq<Body>, coarse: seq<Body>, rest: Response, f: Response)
    requires SameStream(rest, f)
    requires Coarsens(Stamp(f.id, fine), Stamp(f.id, coarse + [rest.body]))
    ensures Coarsens(Stamp(f.id, fine + [f.body]), Stamp(f.id, coarse + [Join(rest, f).body]))
  {
    StampSnoc(f.id, coarse, rest.body);
    var whole := Stamp(f.id, coarse) + [rest];
    assert Stamp(f.id, coarse + [rest.body]) == whole;
    CoarsensGlued(Stamp(f.id, fine), whole, f);
    assert Front(whole) == Stamp(f.id, coarse) && Last(whole) == rest;
    StampSnoc(f.id, fine, f.body);
    StampSnoc(f.id, coarse, Join(rest, f).body);
  }

  /** Regluing the whole sequence reglues each id's own sequence, so no id sees another's traffic. */
  lemma {:induction false} CoarsensUnder(fine: seq<Response>, coarse: seq<Response>, id: string)
    requires Coarsens(fine, coarse)
    ensures Coarsens(Stamp(id, Under(fine, id)), Stamp(id, Under(coarse, id)))
    decreases |fine|
  {
    if fine != [] {
      var f, c := Last(fine), Last(coarse);
      if Alone(fine, coarse) {
        CoarsensUnder(Front(fine), Front(coarse), id);
        if f.id == id {
          StampedAlone(id, Under(Front(fine), id), Under(Front(coarse), id), f.body);
        } else {
          assert Under(fine, id) == Under(Front(fine), id) && Under(coarse, id) == Under(Front(coarse), id);
        }
      } else {
        var rest := Remainder(c, f);
        RemainderJoins(c, f);
        CoarsensUnder(Front(fine), Front(coarse) + [rest], id);
        UnderSnoc(Front(coarse), rest, id);
        if f.id == id {
          StampedGlued(Under(Front(fine), id), Under(Front(coarse), id), rest, f);
        } else {
          assert Under(fine, id) == Under(Front(fine), id) && Under(coarse, id) == Under(Front(coarse), id);
        }
      }
    }
  }

  predicate SameKind(a: Body, b: Body) {
    (a.MonitorData? <==> b.MonitorData?) && (a.Result? <==> b.Result?) && (a.Error? <==> b.Error?)
  }

  /** `at` picks from `fine`, in order, a piece of each entry of `coarse`. */
  ghost predicate PicksPieces(fine: seq<Response>, coarse: seq<Response>, at: seq<nat>) {
    && |at| == |coarse|
    && (forall i :: 0 <= i < |at| ==>
          && at[i] < |fine| && fine[at[i]].id == coarse[i].id
          && SameKind(fine[at[i]].body, coarse[i].body))
    && forall i, j :: 0 <= i < j < |at| ==> at[i] < at[j]
  }

  /** Every entry holds a piece that was said in its place among the others. */
  lemma {:induction false} CoarsensPicks(fine: seq<Response>, coarse: seq<Response>) returns (at: seq<nat>)
    requires Coarsens(fine, coarse)
    ensures PicksPieces(fine, coarse, at)
    decreases |fine|
  {
    if fine == [] {
      at := [];
    } else if Alone(fine, coarse) {
      at := CoarsensPicks(Front(fine), Front(coarse));
      PicksOneMore(fine, coarse, at);
      at := at + [|fine| - 1];
    } else {
      var rest := Remainder(Last(coarse), Last(fine));
      at := CoarsensPicks(Front(fine), Front(coarse) + [rest]);
      PicksTheSame(fine, coarse, rest, at);
    }
  }

  lemma PicksOneMore(fine: seq<Response>, coarse: seq<Response>, at: seq<nat>)
    requires fine != [] && coarse != [] && Last(fine) == Last(coarse)
    requires PicksPieces(Front(fine), Front(coarse), at)
    ensures PicksPieces(fine, coarse, at + [|fine| - 1])
  {
    forall i | 0 <= i < |at| ensures at[i] < |fine| - 1 && fine[at[i]] == Front(fine)[at[i]] && coarse[i] == Front(coarse)[i] {
    }
  }

  lemma PicksTheSame(fine: seq<Response>, coarse: seq<Response>, rest: Response, at: seq<nat>)
    requires fine != [] && coarse != [] && rest.id == Last(coarse).id
    requires SameKind(rest.body, Last(coarse).body)
    requires PicksPieces(Front(fine), Front(coarse) + [rest], at)
    ensures PicksPieces(fine, coarse, at)
  {
    var before := Front(coarse) + [rest];
    forall i | 0 <= i < |at|
      ensures fine[at[i]] == Front(fine)[at[i]] && before[i].id == coarse[i].id
      ensures SameKind(before[i].body, coarse[i].body)
    {
    }
  }

  lemma {:induction false} CoarseIsNoLonger(fine: seq<Response>, coarse: seq<Response>)
    requires Coarsens(fine, coarse)
    ensures |coarse| <= |fine|
    decreases |fine|
  {
    if fine != [] {
      if Alone(fine, coarse) {
        CoarseIsNoLonger(Front(fine), Front(coarse));
      } else {
        CoarseIsNoLonger(Front(fine), Front(coarse) + [Remainder(Last(coarse), Last(fine))]);
      }
    }
  }
}
