/** Any number of BLE sessions and scan tasks over the one radio, interleaved in any order
    (src/service/ble/session.rs, src/service/ble/transport.rs). */
module BleScans {
  import opened Protocol
  import opened BleTransport

  datatype Said = Device(id: string) | Stopped | Broken

  /** Queued: waiting for the adapter lock. Started: the adapter scans for it, its event stream is being opened.
      Scanning: at the select. Showing: a hit waits to be sent. Releasing: cancelled, or the stream has ended.
      Answering: the terminal waits to be sent. */
  datatype Pc =
    | Queued
    | Started(mine: nat)
    | Scanning(mine: nat)
    | Showing(mine: nat, id: string)
    | Releasing(mine: nat)
    | Answering(terminal: Said)
    | Over

  datatype Scan = Scan(session: nat, id: string, filter: Filter, cancelled: bool, pc: Pc,
                       hits: seq<Advert>, said: seq<Said>, releases: nat)

  /** `tokens` holds, by session and request id, the scan a cancel or the session's teardown reaches; `handed` are
      the generations given out so far. */
  datatype System = System(radio: Radio, scans: seq<Scan>, tokens: map<(nat, string), nat>, handed: seq<nat>)

  function Idle(): System {
    System(Radio(0, None, {}), [], map[], [])
  }

  datatype Step =
    | Ask(session: nat, id: string, filter: Filter)
    | Cancel(session: nat, id: string)
    | TearDown(session: nat)
    | Start(scan: nat, stopOk: bool, startOk: bool)
    | Subscribe(scan: nat, eventsOk: bool)
    | Notice(scan: nat, advert: Advert)
    | Show(scan: nat)
    | Finish(scan: nat, ended: bool)
    | Release(scan: nat, stopOk: bool)
    | Answer(scan: nat)

  /** The select is not biased: a waiting event may be taken although the token is set. A scan finishes when its token
      is set, or when the adapter has ended its stream. */
  predicate Enabled(s: System, step: Step) {
    match step
    case Ask(_, _, _) => true
    case Cancel(_, _) => true
    case TearDown(_) => true
    case Start(t, _, _) => t < |s.scans| && s.scans[t].pc.Queued?
    case Subscribe(t, _) => t < |s.scans| && s.scans[t].pc.Started?
    case Notice(t, _) => t < |s.scans| && s.scans[t].pc.Scanning?
    case Show(t) => t < |s.scans| && s.scans[t].pc.Showing?
    case Finish(t, ended) => t < |s.scans| && s.scans[t].pc.Scanning? && (ended || s.scans[t].cancelled)
    case Release(t, _) => t < |s.scans| && s.scans[t].pc.Releasing?
    case Answer(t) => t < |s.scans| && s.scans[t].pc.Answering?
  }

  function Put(s: System, t: nat, scan: Scan): System
    requires t < |s.scans|
  {
    s.(scans := s.scans[t := scan])
  }

  /** The session's teardown fires every token it holds. */
  function FireSession(scans: seq<Scan>, tokens: map<(nat, string), nat>, session: nat): (out: seq<Scan>)
    ensures |out| == |scans|
    ensures forall t :: 0 <= t < |scans| ==>
      out[t] == if (exists id :: (session, id) in tokens && tokens[(session, id)] == t) then scans[t].(cancelled := true) else scans[t]
  {
    seq(|scans|, t requires 0 <= t < |scans| =>
      if (exists key :: key in tokens && key.0 == session && tokens[key] == t) then scans[t].(cancelled := true) else scans[t])
  }

  function Next(s: System, step: Step): System
    requires Enabled(s, step)
  {
    match step
    case Ask(session, id, filter) =>
      s.(scans := s.scans + [Scan(session, id, filter, false, Queued, [], [], 0)], tokens := s.tokens[(session, id) := |s.scans|])
    case Cancel(session, id) =>
      if (session, id) !in s.tokens || s.tokens[(session, id)] >= |s.scans| then s
      else
        var t := s.tokens[(session, id)];
        Put(s, t, s.scans[t].(cancelled := true)).(tokens := s.tokens - {(session, id)})
    case TearDown(session) =>
      s.(scans := FireSession(s.scans, s.tokens, session),
         tokens := map key | key in s.tokens && key.0 != session :: s.tokens[key])
    case Start(t, stopOk, startOk) =>
      var radio := BleTransport.Started(s.radio, stopOk, startOk);
      if startOk then
        Put(s, t, s.scans[t].(pc := Pc.Started(radio.generation))).(radio := radio, handed := s.handed + [radio.generation])
      else Put(s, t, s.scans[t].(pc := Answering(Broken))).(radio := radio)
    case Subscribe(t, eventsOk) =>
      Put(s, t, s.scans[t].(pc := if eventsOk then Scanning(s.scans[t].pc.mine) else Answering(Broken)))
    case Notice(t, advert) =>
      var scan := s.scans[t];
      if IsHit(advert, scan.filter)
      then Put(s, t, scan.(pc := Showing(scan.pc.mine, advert.id), hits := scan.hits + [advert])).(radio := Noticed(s.radio, advert, scan.filter))
      else s
    case Show(t) =>
      var scan := s.scans[t];
      Put(s, t, scan.(pc := Scanning(scan.pc.mine), said := scan.said + [Device(scan.pc.id)]))
    case Finish(t, _) => Put(s, t, s.scans[t].(pc := Releasing(s.scans[t].pc.mine)))
    case Release(t, stopOk) =>
      var scan := s.scans[t];
      Put(s, t, scan.(pc := Answering(Stopped), releases := scan.releases + 1)).(radio := Released(s.radio, scan.pc.mine, stopOk))
    case Answer(t) =>
      var scan := s.scans[t];
      Put(s, t, scan.(pc := Over, said := scan.said + [scan.pc.terminal]))
  }

  ghost predicate IsRun(s: System, steps: seq<Step>)
    decreases |steps|
  {
    steps == [] || (Enabled(s, steps[0]) && IsRun(Next(s, steps[0]), steps[1..]))
  }

  ghost function Final(s: System, steps: seq<Step>): System
    requires IsRun(s, steps)
    decreases |steps|
  {
    if steps == [] then s else Final(Next(s, steps[0]), steps[1..])
  }

  // ---- one scan's own contract ----------------------------------------------------------------------------

  /** The scan's start succeeded and its generation is not yet released. */
  predicate Holds(scan: Scan) {
    scan.pc.Started? || scan.pc.Scanning? || scan.pc.Showing? || scan.pc.Releasing?
  }

  function Devices(hits: seq<Advert>): (said: seq<Said>)
    ensures |said| == |hits| && forall i :: 0 <= i < |said| ==> said[i] == Device(hits[i].id)
  {
    seq(|hits|, i requires 0 <= i < |hits| => Device(hits[i].id))
  }

  /** Hits pass the scan's own filter and are known to the radio; what was said is the hits shown, then at most one
      terminal; and a scan that ends well has released its generation exactly once before saying so. */
  ghost predicate ScanOk(scan: Scan, discovered: set<string>) {
    && (forall i :: 0 <= i < |scan.hits| ==> IsHit(scan.hits[i], scan.filter) && scan.hits[i].id in discovered)
    && match scan.pc
       case Queued => scan.hits == [] && scan.said == [] && scan.releases == 0
       case Started(_) => scan.hits == [] && scan.said == [] && scan.releases == 0
       case Scanning(_) => scan.said == Devices(scan.hits) && scan.releases == 0
       case Showing(_, id) => scan.hits != [] && Last(scan.hits).id == id && scan.said == Devices(Front(scan.hits)) && scan.releases == 0
       case Releasing(_) => scan.said == Devices(scan.hits) && scan.releases == 0
       case Answering(terminal) => scan.said == Devices(scan.hits) && Fitting(scan, terminal)
       case Over => scan.said != [] && scan.said == Devices(scan.hits) + [Last(scan.said)] && Fitting(scan, Last(scan.said))
  }

  /** A scan that never ran ends as an error and releases nothing; any other has released once. */
  predicate Fitting(scan: Scan, terminal: Said) {
    if scan.releases == 0 then terminal == Broken && scan.hits == [] else terminal == Stopped && scan.releases == 1
  }

  lemma ShowIsOk(scan: Scan, discovered: set<string>)
    requires ScanOk(scan, discovered) && scan.pc.Showing?
    ensures ScanOk(scan.(pc := Scanning(scan.pc.mine), said := scan.said + [Device(scan.pc.id)]), discovered)
  {
  }

  lemma HitIsOk(scan: Scan, advert: Advert, discovered: set<string>)
    requires ScanOk(scan, discovered) && scan.pc.Scanning? && IsHit(advert, scan.filter)
    ensures ScanOk(scan.(pc := Showing(scan.pc.mine, advert.id), hits := scan.hits + [advert]), discovered + {advert.id})
  {
    assert Front(scan.hits + [advert]) == scan.hits;
  }

  lemma ScanOkGrows(scan: Scan, discovered: set<string>, more: set<string>)
    requires ScanOk(scan, discovered) && discovered <= more
    ensures ScanOk(scan, more) && ScanOk(scan.(cancelled := true), more)
  {
  }

  // ---- what was asked and what was hit --------------------------------------------------------------------

  /** The scans asked for, in order, read off the steps. */
  function Asks(steps: seq<Step>): seq<(nat, string, Filter)> {
    if steps == [] then []
    else (match steps[0] case Ask(session, id, filter) => [(session, id, filter)] case _ => []) + Asks(steps[1..])
  }

  /** The devices that scan `t` was shown of those noticed for it, read off the steps. */
  function HitsFor(steps: seq<Step>, t: nat, filter: Filter): seq<Advert> {
    if steps == [] then []
    else
      (match steps[0] case Notice(scan, advert) => if scan == t && IsHit(advert, filter) then [advert] else [] case _ => [])
      + HitsFor(steps[1..], t, filter)
  }

  /** The scans are those asked for, in order, each with its own filter. */
  ghost predicate AreThese(scans: seq<Scan>, asks: seq<(nat, string, Filter)>) {
    |scans| == |asks| && forall t :: 0 <= t < |scans| ==> (scans[t].session, scans[t].id, scans[t].filter) == asks[t]
  }

  lemma StepAddsAsked(s: System, step: Step, asks: seq<(nat, string, Filter)>)
    requires AreThese(s.scans, asks) && Enabled(s, step)
    ensures AreThese(Next(s, step).scans, asks + match step case Ask(session, id, filter) => [(session, id, filter)] case _ => [])
  {
  }

  lemma {:induction false} RunAddsAsked(s: System, steps: seq<Step>, asks: seq<(nat, string, Filter)>)
    requires AreThese(s.scans, asks) && IsRun(s, steps)
    ensures AreThese(Final(s, steps).scans, asks + Asks(steps))
    decreases |steps|
  {
    if steps == [] {
      assert asks + [] == asks;
    } else {
      var more := match steps[0] case Ask(session, id, filter) => [(session, id, filter)] case _ => [];
      StepAddsAsked(s, steps[0], asks);
      RunAddsAsked(Next(s, steps[0]), steps[1..], asks + more);
      assert asks + more + Asks(steps[1..]) == asks + (more + Asks(steps[1..]));
    }
  }

  lemma StepAddsHits(s: System, step: Step, t: nat)
    requires Enabled(s, step) && t < |s.scans|
    ensures t < |Next(s, step).scans| && Next(s, step).scans[t].filter == s.scans[t].filter
    ensures Next(s, step).scans[t].hits == s.scans[t].hits + HitsFor([step], t, s.scans[t].filter)
  {
    assert [step][1..] == [];
    var hit := match step case Notice(scan, advert) => if scan == t && IsHit(advert, s.scans[t].filter) then [advert] else [] case _ => [];
    assert HitsFor([step], t, s.scans[t].filter) == hit;
  }

  lemma {:induction false} RunAddsHits(s: System, steps: seq<Step>, t: nat)
    requires IsRun(s, steps) && t < |s.scans|
    ensures t < |Final(s, steps).scans| && Final(s, steps).scans[t].filter == s.scans[t].filter
    ensures Final(s, steps).scans[t].hits == s.scans[t].hits + HitsFor(steps, t, s.scans[t].filter)
    decreases |steps|
  {
    if steps == [] {
      assert s.scans[t].hits + [] == s.scans[t].hits;
    } else {
      var filter := s.scans[t].filter;
      StepAddsHits(s, steps[0], t);
      RunAddsHits(Next(s, steps[0]), steps[1..], t);
      HitsForCons(steps, t, filter);
      assert s.scans[t].hits + HitsFor([steps[0]], t, filter) + HitsFor(steps[1..], t, filter)
        == s.scans[t].hits + (HitsFor([steps[0]], t, filter) + HitsFor(steps[1..], t, filter));
    }
  }

  lemma HitsForCons(steps: seq<Step>, t: nat, filter: Filter)
    requires steps != []
    ensures HitsFor(steps, t, filter) == HitsFor([steps[0]], t, filter) + HitsFor(steps[1..], t, filter)
  {
    assert [steps[0]][1..] == [] && HitsFor([], t, filter) == [];
    assert HitsFor([steps[0]], t, filter) ==
      (match steps[0] case Notice(scan, advert) => if scan == t && IsHit(advert, filter) then [advert] else [] case _ => []);
  }

  /** Before a scan is asked for nothing is noticed for it. */
  lemma {:induction false} UnaskedHasNoHits(s: System, steps: seq<Step>, t: nat)
    requires IsRun(s, steps) && |s.scans| <= t < |Final(s, steps).scans|
    ensures Final(s, steps).scans[t].hits == HitsFor(steps, t, Final(s, steps).scans[t].filter)
    decreases |steps|
  {
    if steps != [] {
      var n, filter := Next(s, steps[0]), Final(s, steps).scans[t].filter;
      assert !(steps[0].Notice? && steps[0].scan == t);
      assert HitsFor(steps, t, filter) == [] + HitsFor(steps[1..], t, filter) == HitsFor(steps[1..], t, filter);
      if t < |n.scans| {
        RunAddsHits(n, steps[1..], t);
        assert n.scans[t].hits == [];
      } else {
        UnaskedHasNoHits(n, steps[1..], t);
      }
    }
  }

  /** Over every run the scans are those that sessions asked for, each with the filter asked for; and a scan's hits are
      the devices noticed for it that pass that filter, all of them, in order. */
  lemma ScansHitWhatTheyAsked(steps: seq<Step>, t: nat)
    requires IsRun(Idle(), steps)
    ensures var scans := Final(Idle(), steps).scans;
      && AreThese(scans, Asks(steps))
      && (t < |scans| ==> scans[t].hits == HitsFor(steps, t, scans[t].filter))
  {
    RunAddsAsked(Idle(), steps, []);
    assert [] + Asks(steps) == Asks(steps);
    if t < |Final(Idle(), steps).scans| { UnaskedHasNoHits(Idle(), steps, t); }
  }

  // ---- generations ----------------------------------------------------------------------------------------

  ghost predicate AllOk(scans: seq<Scan>, discovered: set<string>) {
    forall t :: 0 <= t < |scans| ==> ScanOk(scans[t], discovered)
  }

  ghost predicate ScansOk(s: System) {
    AllOk(s.scans, s.radio.discovered)
  }

  /** Putting back a scan that is in order keeps all in order. */
  lemma PutIsOk(scans: seq<Scan>, discovered: set<string>, t: nat, scan: Scan, more: set<string>)
    requires AllOk(scans, discovered) && t < |scans| && discovered <= more && ScanOk(scan, more)
    ensures AllOk(scans[t := scan], more)
  {
    var after := scans[t := scan];
    forall u | 0 <= u < |scans| ensures ScanOk(after[u], more) {
      if u != t { ScanOkGrows(scans[u], discovered, more); }
    }
  }

  lemma CancelAllIsOk(scans: seq<Scan>, after: seq<Scan>, discovered: set<string>)
    requires AllOk(scans, discovered) && |after| == |scans|
    requires forall t :: 0 <= t < |scans| ==> after[t] == scans[t] || after[t] == scans[t].(cancelled := true)
    ensures AllOk(after, discovered)
  {
    forall t | 0 <= t < |scans| ensures ScanOk(after[t], discovered) {
      ScanOkGrows(scans[t], discovered, discovered);
    }
  }

  /** Scan `t` holds generation `g`. */
  predicate HoldsGen(scans: seq<Scan>, t: nat, g: nat) {
    t < |scans| && Holds(scans[t]) && scans[t].pc.mine == g
  }

  /** No two scans hold one generation, none holds one not handed out yet, and the adapter scans for whoever holds the
      current one. */
  ghost predicate GensOk(radio: Radio, scans: seq<Scan>) {
    && (forall t: nat, g: nat :: HoldsGen(scans, t, g) ==> g <= radio.generation)
    && (forall t: nat, u: nat, g: nat :: HoldsGen(scans, t, g) && HoldsGen(scans, u, g) ==> t == u)
    && (forall t: nat :: HoldsGen(scans, t, radio.generation) ==> radio.scanning == Some(radio.generation))
    && (radio.scanning.Some? ==> radio.scanning.value <= radio.generation)
  }

  /** Generations are handed out in strictly increasing order. */
  ghost predicate HandedOk(radio: Radio, handed: seq<nat>) {
    && (forall i, j :: 0 <= i < j < |handed| ==> handed[i] < handed[j])
    && (forall i :: 0 <= i < |handed| ==> handed[i] <= radio.generation)
  }

  ghost predicate Ok(s: System) {
    ScansOk(s) && GensOk(s.radio, s.scans) && HandedOk(s.radio, s.handed) && TokensOk(s)
  }

  /** A token is that of a scan of the session and request it is filed under. */
  ghost predicate TokensOk(s: System) {
    forall key :: key in s.tokens ==> s.tokens[key] < |s.scans| && IsFrom(s.scans[s.tokens[key]], key.0, key.1)
  }

  predicate IsFrom(scan: Scan, session: nat, id: string) {
    scan.session == session && scan.id == id
  }

  /** Scans stay in their places and keep their origin. */
  lemma StepKeepsOrigins(s: System, step: Step)
    requires Enabled(s, step)
    ensures |s.scans| <= |Next(s, step).scans|
    ensures forall t: nat :: t < |s.scans| ==> IsFrom(Next(s, step).scans[t], s.scans[t].session, s.scans[t].id)
  {
  }

  lemma StepKeepsTokens(s: System, step: Step)
    requires TokensOk(s) && Enabled(s, step)
    ensures TokensOk(Next(s, step))
  {
    StepKeepsOrigins(s, step);
  }

  /** The steps of one scan that change no more than where it stands. */
  lemma TurnIsOk(scan: Scan, discovered: set<string>)
    requires ScanOk(scan, discovered)
    ensures scan.pc.Queued? ==> forall g :: ScanOk(scan.(pc := Pc.Started(g)), discovered)
    ensures scan.pc.Queued? || scan.pc.Started? ==> ScanOk(scan.(pc := Answering(Broken)), discovered)
    ensures scan.pc.Started? ==> ScanOk(scan.(pc := Scanning(scan.pc.mine)), discovered)
    ensures scan.pc.Scanning? ==> ScanOk(scan.(pc := Releasing(scan.pc.mine)), discovered)
  {
  }

  lemma ReleasedScanIsOk(scan: Scan, discovered: set<string>)
    requires ScanOk(scan, discovered) && scan.pc.Releasing?
    ensures ScanOk(scan.(pc := Answering(Stopped), releases := scan.releases + 1), discovered)
  {
  }

  lemma AnsweredScanIsOk(scan: Scan, discovered: set<string>)
    requires ScanOk(scan, discovered) && scan.pc.Answering?
    ensures ScanOk(scan.(pc := Over, said := scan.said + [scan.pc.terminal]), discovered)
  {
  }

  lemma StepKeepsScans(s: System, step: Step)
    requires ScansOk(s) && Enabled(s, step)
    ensures ScansOk(Next(s, step)) && s.radio.discovered <= Next(s, step).radio.discovered
  {
    var n, known := Next(s, step), s.radio.discovered;
    match step
    case Ask(_, _, _) =>
    case Cancel(_, _) => CancelAllIsOk(s.scans, n.scans, known);
    case TearDown(_) => CancelAllIsOk(s.scans, n.scans, known);
    case _ => ScanStepKeepsScans(s, step);
  }

  lemma ScanStepKeepsScans(s: System, step: Step)
    requires ScansOk(s) && Enabled(s, step) && !step.Ask? && !step.Cancel? && !step.TearDown?
    ensures ScansOk(Next(s, step)) && s.radio.discovered <= Next(s, step).radio.discovered
  {
    var t := step.scan;
    var n, scan := Next(s, step), s.scans[t];
    TurnIsOk(scan, s.radio.discovered);
    match step {
      case Notice(_, advert) =>
        if IsHit(advert, scan.filter) { HitIsOk(scan, advert, s.radio.discovered); }
      case Show(_) => ShowIsOk(scan, s.radio.discovered);
      case Release(_, _) => ReleasedScanIsOk(scan, s.radio.discovered);
      case Answer(_) => AnsweredScanIsOk(scan, s.radio.discovered);
      case _ =>
    }
    assert n.scans == s.scans[t := n.scans[t]];
    PutIsOk(s.scans, s.radio.discovered, t, n.scans[t], n.radio.discovered);
  }

  /** Apart from a start, a step never makes a scan hold a generation it did not hold before. */
  lemma StepKeepsHolders(s: System, step: Step)
    requires Enabled(s, step) && !step.Start?
    ensures |s.scans| <= |Next(s, step).scans| && Next(s, step).radio.generation == s.radio.generation
    ensures forall t: nat, g: nat :: HoldsGen(Next(s, step).scans, t, g) ==> HoldsGen(s.scans, t, g)
    ensures Next(s, step).handed == s.handed
    ensures !step.Release? ==> Next(s, step).radio.scanning == s.radio.scanning
  {
    if step.Cancel? || step.TearDown? || step.Ask? {
      forall t: nat, g: nat | HoldsGen(Next(s, step).scans, t, g) ensures HoldsGen(s.scans, t, g) {
      }
    }
  }

  lemma StartIsOk(s: System, t: nat, stopOk: bool, startOk: bool)
    requires Ok(s) && Enabled(s, Start(t, stopOk, startOk))
    ensures var n := Next(s, Start(t, stopOk, startOk)); GensOk(n.radio, n.scans) && HandedOk(n.radio, n.handed)
  {
    var n := Next(s, Start(t, stopOk, startOk));
    forall u: nat, g: nat | HoldsGen(n.scans, u, g) ensures if u == t then startOk && g == n.radio.generation else HoldsGen(s.scans, u, g) {
    }
  }

  lemma StepIsOk(s: System, step: Step)
    requires Ok(s) && Enabled(s, step)
    ensures Ok(Next(s, step))
  {
    StepKeepsScans(s, step);
    StepKeepsTokens(s, step);
    match step
    case Start(t, stopOk, startOk) => StartIsOk(s, t, stopOk, startOk);
    case Release(t, stopOk) =>
      StepKeepsHolders(s, step);
      ReleaseIsOk(s, t, stopOk);
    case _ => StepKeepsHolders(s, step);
  }

  lemma ReleaseIsOk(s: System, t: nat, stopOk: bool)
    requires Ok(s) && Enabled(s, Release(t, stopOk))
    requires forall u: nat, g: nat :: HoldsGen(Next(s, Release(t, stopOk)).scans, u, g) ==> HoldsGen(s.scans, u, g)
    ensures GensOk(Next(s, Release(t, stopOk)).radio, Next(s, Release(t, stopOk)).scans)
  {
    var n := Next(s, Release(t, stopOk));
    assert HoldsGen(s.scans, t, s.scans[t].pc.mine) && !HoldsGen(n.scans, t, s.scans[t].pc.mine);
  }

  lemma {:induction false} RunIsOk(s: System, steps: seq<Step>)
    requires Ok(s) && IsRun(s, steps)
    ensures Ok(Final(s, steps)) && s.radio.discovered <= Final(s, steps).radio.discovered
    decreases |steps|
  {
    if steps != [] {
      StepIsOk(s, steps[0]);
      StepKeepsScans(s, steps[0]);
      RunIsOk(Next(s, steps[0]), steps[1..]);
    }
  }

  /** Over every run: generations are handed out in strictly increasing order, hence never twice. */
  lemma GenerationsIncrease(steps: seq<Step>)
    requires IsRun(Idle(), steps)
    ensures var handed := Final(Idle(), steps).handed; forall i, j :: 0 <= i < j < |handed| ==> handed[i] < handed[j]
  {
    RunIsOk(Idle(), steps);
  }

  /** What a browser hears of a scan, at any time: hits of its own filter, whichever filter the adapter was last
      started with; after them one terminal at most. A scan that is over has said exactly one, has released its
      generation once if it ran and never otherwise. Its hits stay connectable in every later state. */
  ghost predicate ScanContract(scan: Scan, discovered: set<string>) {
    && (forall i :: 0 <= i < |scan.hits| ==> IsHit(scan.hits[i], scan.filter) && scan.hits[i].id in discovered)
    && (scan.pc.Over? ==> scan.said != [] && scan.said == Devices(scan.hits) + [Last(scan.said)] && Fitting(scan, Last(scan.said)))
    && (!scan.pc.Over? ==> scan.said <= Devices(scan.hits))
  }

  lemma EveryScanKeepsItsContract(before: seq<Step>, after: seq<Step>, t: nat)
    requires IsRun(Idle(), before) && IsRun(Final(Idle(), before), after)
    ensures var s := Final(Idle(), before);
      t < |s.scans| ==> ScanContract(s.scans[t], Final(s, after).radio.discovered)
  {
    RunIsOk(Idle(), before);
    var s := Final(Idle(), before);
    RunIsOk(s, after);
    if t < |s.scans| {
      ScanOkGrows(s.scans[t], s.radio.discovered, Final(s, after).radio.discovered);
      OkMeetsContract(s.scans[t], Final(s, after).radio.discovered);
    }
  }

  lemma OkMeetsContract(scan: Scan, discovered: set<string>)
    requires ScanOk(scan, discovered)
    ensures ScanContract(scan, discovered)
  {
    if scan.pc.Showing? { assert Devices(Front(scan.hits)) <= Devices(scan.hits); }
  }

  /** The scan has hit this device. */
  ghost predicate HasHit(scan: Scan, id: string) {
    exists i :: 0 <= i < |scan.hits| && scan.hits[i].id == id
  }

  /** Some scan, running or over, has hit this device. */
  ghost predicate IsShown(scans: seq<Scan>, id: string) {
    exists t: nat :: t < |scans| && HasHit(scans[t], id)
  }

  lemma StepKeepsShown(s: System, step: Step, id: string)
    requires Enabled(s, step) && (id in s.radio.discovered ==> IsShown(s.scans, id))
    ensures id in Next(s, step).radio.discovered ==> IsShown(Next(s, step).scans, id)
  {
    var n := Next(s, step);
    if id in s.radio.discovered {
      var t: nat :| t < |s.scans| && HasHit(s.scans[t], id);
      HitsLast(s, step, t, id);
    } else if id in n.radio.discovered {
      assert n.scans[step.scan].hits[|s.scans[step.scan].hits|].id == id;
      assert HasHit(n.scans[step.scan], id);
    }
  }

  lemma HitsLast(s: System, step: Step, t: nat, id: string)
    requires Enabled(s, step) && t < |s.scans| && HasHit(s.scans[t], id)
    ensures t < |Next(s, step).scans| && HasHit(Next(s, step).scans[t], id)
  {
    var i :| 0 <= i < |s.scans[t].hits| && s.scans[t].hits[i].id == id;
    assert Next(s, step).scans[t].hits[i] == s.scans[t].hits[i];
  }

  lemma {:induction false} RunKeepsShown(s: System, steps: seq<Step>, id: string)
    requires IsRun(s, steps) && (id in s.radio.discovered ==> IsShown(s.scans, id))
    ensures id in Final(s, steps).radio.discovered ==> IsShown(Final(s, steps).scans, id)
    decreases |steps|
  {
    if steps != [] {
      StepKeepsShown(s, steps[0], id);
      RunKeepsShown(Next(s, steps[0]), steps[1..], id);
    }
  }

  /** Over any run a device can be connected if and only if some session's scan has hit it, the scan's end and the
      session's notwithstanding. */
  lemma ConnectableIffShown(steps: seq<Step>, id: string)
    requires IsRun(Idle(), steps)
    ensures var s := Final(Idle(), steps); id in s.radio.discovered <==> IsShown(s.scans, id)
  {
    RunKeepsShown(Idle(), steps, id);
    RunIsOk(Idle(), steps);
    var s := Final(Idle(), steps);
    if t: nat :| t < |s.scans| && HasHit(s.scans[t], id) {
      assert ScanOk(s.scans[t], s.radio.discovered);
    }
  }

  // ---- who may cancel a scan ------------------------------------------------------------------------------

  /** The session's own cancel under this id, or its own teardown. */
  predicate Stops(step: Step, session: nat, id: string) {
    (step.Cancel? && step.session == session && step.id == id) || (step.TearDown? && step.session == session)
  }

  lemma StepCancelsItsOwn(s: System, step: Step, t: nat)
    requires TokensOk(s) && Enabled(s, step) && t < |Next(s, step).scans| && Next(s, step).scans[t].cancelled
    ensures t < |s.scans|
    ensures s.scans[t].cancelled || Stops(step, s.scans[t].session, s.scans[t].id)
  {
    if step.TearDown? && !s.scans[t].cancelled {
      var key :| key in s.tokens && key.0 == step.session && s.tokens[key] == t;
      assert IsFrom(s.scans[t], key.0, key.1);
    }
  }

  lemma {:induction false} OriginsLast(s: System, steps: seq<Step>, t: nat)
    requires IsRun(s, steps) && t < |s.scans|
    ensures t < |Final(s, steps).scans| && IsFrom(Final(s, steps).scans[t], s.scans[t].session, s.scans[t].id)
    decreases |steps|
  {
    if steps != [] {
      StepKeepsOrigins(s, steps[0]);
      OriginsLast(Next(s, steps[0]), steps[1..], t);
    }
  }

  ghost predicate IsStopped(steps: seq<Step>, session: nat, id: string) {
    exists step :: step in steps && Stops(step, session, id)
  }

  lemma {:induction false} CancelsHaveCauses(s: System, steps: seq<Step>, t: nat)
    requires TokensOk(s) && IsRun(s, steps) && (t < |s.scans| ==> !s.scans[t].cancelled)
    ensures var scans := Final(s, steps).scans;
      t < |scans| && scans[t].cancelled ==> IsStopped(steps, scans[t].session, scans[t].id)
    decreases |steps|
  {
    if steps != [] {
      var n := Next(s, steps[0]);
      StepKeepsTokens(s, steps[0]);
      if t < |n.scans| && n.scans[t].cancelled {
        StepCancelsItsOwn(s, steps[0], t);
        OriginsLast(s, steps, t);
        assert steps[0] in steps;
      } else {
        CancelsHaveCauses(n, steps[1..], t);
        assert forall step :: step in steps[1..] ==> step in steps;
      }
    }
  }

  /** Over any run sessions leave one another's scans alone: a scan is cancelled only by its own session, with a cancel
      under its id or by a teardown. */
  lemma CancelledOnlyByItsOwnSession(steps: seq<Step>, t: nat)
    requires IsRun(Idle(), steps)
    ensures var scans := Final(Idle(), steps).scans;
      t < |scans| && scans[t].cancelled ==> IsStopped(steps, scans[t].session, scans[t].id)
  {
    CancelsHaveCauses(Idle(), steps, t);
  }

  // ---- whose scan the adapter runs ------------------------------------------------------------------------

  /** Steps that may end `t`'s hold on the adapter: any session's next scan, and its own release. */
  predicate EndsHold(step: Step, t: nat) {
    step.Start? || (step.Release? && step.scan == t)
  }

  /** The adapter scans under `g`, which is current and which nobody but `t` holds. */
  ghost predicate ScansFor(s: System, t: nat, g: nat) {
    && s.radio.generation == g && s.radio.scanning == Some(g)
    && forall u: nat :: HoldsGen(s.scans, u, g) ==> u == t
  }

  lemma {:induction false} KeepsScanningFor(s: System, steps: seq<Step>, t: nat, g: nat)
    requires ScansFor(s, t, g) && IsRun(s, steps)
    requires forall step :: step in steps ==> !EndsHold(step, t)
    ensures ScansFor(Final(s, steps), t, g)
    decreases |steps|
  {
    if steps != [] {
      assert steps[0] in steps;
      StepKeepsHolders(s, steps[0]);
      if steps[0].Release? { assert HoldsGen(s.scans, steps[0].scan, s.scans[steps[0].scan].pc.mine); }
      KeepsScanningFor(Next(s, steps[0]), steps[1..], t, g);
    }
  }

  ghost predicate StillScansFor(s: System, after: seq<Step>, t: nat)
    requires IsRun(s, after)
  {
    t < |s.scans| && s.scans[t].pc.Started? && Final(s, after).radio.scanning == Some(s.scans[t].pc.mine)
  }

  /** From a scan's successful start until its own release or the next scan anywhere, the adapter keeps scanning for
      it, whatever stale releases, cancels and session teardowns come in between. */
  lemma TheAdapterKeepsScanning(before: seq<Step>, t: nat, stopOk: bool, after: seq<Step>)
    requires IsRun(Idle(), before) && Enabled(Final(Idle(), before), Start(t, stopOk, true))
    requires IsRun(Next(Final(Idle(), before), Start(t, stopOk, true)), after)
    requires forall step :: step in after ==> !EndsHold(step, t)
    ensures StillScansFor(Next(Final(Idle(), before), Start(t, stopOk, true)), after, t)
  {
    RunIsOk(Idle(), before);
    StartTakesOver(Final(Idle(), before), t, stopOk);
    var s := Next(Final(Idle(), before), Start(t, stopOk, true));
    KeepsScanningFor(s, after, t, s.radio.generation);
  }

  lemma StartTakesOver(s: System, t: nat, stopOk: bool)
    requires Ok(s) && Enabled(s, Start(t, stopOk, true))
    ensures var n := Next(s, Start(t, stopOk, true)); n.scans[t].pc == Pc.Started(n.radio.generation) && ScansFor(n, t, n.radio.generation)
  {
    var n := Next(s, Start(t, stopOk, true));
    forall u: nat | HoldsGen(n.scans, u, n.radio.generation) ensures u == t {
      if u != t { assert HoldsGen(s.scans, u, n.radio.generation); }
    }
  }

  // ---- an adapter without scans is idle -------------------------------------------------------------------

  /** Whatever the adapter scans for is some live scan's. */
  ghost predicate Owned(s: System) {
    s.radio.scanning.Some? ==> exists t: nat :: HoldsGen(s.scans, t, s.radio.scanning.value)
  }

  /** The step takes the scan that the adapter is running for out of the world without stopping the adapter: its event
      stream cannot be opened, or the stop at its release fails or is skipped as stale. */
  predicate Orphans(s: System, step: Step)
    requires Enabled(s, step)
  {
    match step
    case Subscribe(t, eventsOk) => !eventsOk && s.radio.scanning == Some(s.scans[t].pc.mine)
    case Release(t, stopOk) =>
      s.radio.scanning == Some(s.scans[t].pc.mine) && !(stopOk && s.radio.generation == s.scans[t].pc.mine)
    case _ => false
  }

  /** A step leaves the adapter scanning for nobody exactly when it is one of those. */
  lemma OwnedUnlessOrphaned(s: System, step: Step)
    requires Ok(s) && Owned(s) && Enabled(s, step)
    ensures Owned(Next(s, step)) <==> !Orphans(s, step)
  {
    var n := Next(s, step);
    if step.Start? {
      StartKeepsOwned(s, step.scan, step.stopOk, step.startOk);
    } else {
      StepKeepsHolders(s, step);
      if t: nat :| s.radio.scanning.Some? && HoldsGen(s.scans, t, s.radio.scanning.value) {
        OwnerMoves(s, step, t);
      }
    }
  }

  lemma StartKeepsOwned(s: System, t: nat, stopOk: bool, startOk: bool)
    requires Ok(s) && Owned(s) && Enabled(s, Start(t, stopOk, startOk))
    ensures Owned(Next(s, Start(t, stopOk, startOk)))
  {
    var n := Next(s, Start(t, stopOk, startOk));
    if startOk {
      assert HoldsGen(n.scans, t, n.radio.generation);
    } else if u: nat :| s.radio.scanning.Some? && HoldsGen(s.scans, u, s.radio.scanning.value) {
      assert HoldsGen(n.scans, u, s.radio.scanning.value);
    }
  }

  /** The one holder of what the adapter scans for keeps holding it unless the step is its own end. */
  lemma OwnerMoves(s: System, step: Step, t: nat)
    requires Ok(s) && Enabled(s, step) && !step.Start?
    requires s.radio.scanning.Some? && HoldsGen(s.scans, t, s.radio.scanning.value)
    requires forall u: nat, g: nat :: HoldsGen(Next(s, step).scans, u, g) ==> HoldsGen(s.scans, u, g)
    requires !step.Release? ==> Next(s, step).radio.scanning == s.radio.scanning
    ensures Owned(Next(s, step)) <==> !Orphans(s, step)
  {
    var n, g := Next(s, step), s.radio.scanning.value;
    var ends := (step.Release? && step.scan == t) || (step.Subscribe? && step.scan == t && !step.eventsOk);
    if ends {
      assert !HoldsGen(n.scans, t, g);
    } else {
      assert HoldsGen(n.scans, t, g);
      if step.Release? || step.Subscribe? { assert HoldsGen(s.scans, step.scan, s.scans[step.scan].pc.mine); }
    }
  }

  /** The adapter's stops and event streams never fail; its starts may. */
  predicate AdapterObeys(step: Step) {
    match step
    case Start(_, stopOk, _) => stopOk
    case Subscribe(_, eventsOk) => eventsOk
    case Release(_, stopOk) => stopOk
    case _ => true
  }

  lemma {:induction false} ObedientRun(s: System, steps: seq<Step>)
    requires Ok(s) && Owned(s) && (s.radio.scanning.Some? ==> s.radio.scanning.value == s.radio.generation)
    requires IsRun(s, steps) && forall step :: step in steps ==> AdapterObeys(step)
    ensures Owned(Final(s, steps))
    decreases |steps|
  {
    if steps != [] {
      assert steps[0] in steps;
      StepIsOk(s, steps[0]);
      OwnedUnlessOrphaned(s, steps[0]);
      if !steps[0].Start? { StepKeepsHolders(s, steps[0]); }
      ObedientRun(Next(s, steps[0]), steps[1..]);
    }
  }

  /** With an adapter that obeys, no live scan means an idle adapter, over every run and any number of sessions. */
  lemma NoScanMeansIdle(steps: seq<Step>)
    requires IsRun(Idle(), steps) && forall step :: step in steps ==> AdapterObeys(step)
    ensures var s := Final(Idle(), steps);
      (forall t :: 0 <= t < |s.scans| ==> !Holds(s.scans[t])) ==> s.radio.scanning.None?
  {
    ObedientRun(Idle(), steps);
  }

  /** When opening the event stream fails after the start, the adapter goes on scanning for nobody. */
  lemma AFailedSubscriptionLeavesTheAdapterScanning(filter: Filter)
    ensures var steps := [Ask(0, "1", filter), Start(0, true, true), Subscribe(0, false), Answer(0)];
      && IsRun(Idle(), steps)
      && |Final(Idle(), steps).scans| == 1 && Final(Idle(), steps).scans[0].pc.Over? && Final(Idle(), steps).radio.scanning == Some(1)
  {
    var s1 := Next(Idle(), Ask(0, "1", filter));
    var s2 := Next(s1, Start(0, true, true));
    var s3 := Next(s2, Subscribe(0, false));
    var s4 := Next(s3, Answer(0));
    assert IsRun(s4, []);
    var r1 := [Answer(0)];
    assert IsRun(s3, r1) && Final(s3, r1) == s4 by { assert r1[1..] == []; }
    var r2 := [Subscribe(0, false), Answer(0)];
    assert IsRun(s2, r2) && Final(s2, r2) == s4 by { assert r2[1..] == r1; }
    var r3 := [Start(0, true, true), Subscribe(0, false), Answer(0)];
    assert IsRun(s1, r3) && Final(s1, r3) == s4 by { assert r3[1..] == r2; }
    var r4 := [Ask(0, "1", filter), Start(0, true, true), Subscribe(0, false), Answer(0)];
    assert r4[1..] == r3;
  }

  // ---- what a teardown reaches ----------------------------------------------------------------------------

  /** The scan still has to be told to stop. */
  predicate Pending(scan: Scan) {
    !scan.cancelled && !scan.pc.Over?
  }

  /** Every pending scan can be reached through its session's token map. */
  ghost predicate Reachable(s: System) {
    forall t: nat :: t < |s.scans| && Pending(s.scans[t]) ==>
      (s.scans[t].session, s.scans[t].id) in s.tokens && s.tokens[(s.scans[t].session, s.scans[t].id)] == t
  }

  /** A teardown that reaches every scan of its session leaves none of them pending. */
  lemma TeardownReachesAll(s: System, session: nat)
    requires Reachable(s)
    ensures forall t: nat :: t < |s.scans| && s.scans[t].session == session ==> !Pending(Next(s, TearDown(session)).scans[t])
    ensures Reachable(Next(s, TearDown(session)))
  {
  }

  /** No other step hides a pending scan from its session. */
  lemma StepKeepsReachable(s: System, step: Step)
    requires Reachable(s) && Enabled(s, step) && !step.Ask?
    ensures Reachable(Next(s, step))
  {
    if !step.Cancel? && !step.TearDown? {
      var n := Next(s, step);
      assert forall t: nat :: t < |n.scans| ==>
        && n.scans[t].session == s.scans[t].session && n.scans[t].id == s.scans[t].id
        && (Pending(n.scans[t]) ==> Pending(s.scans[t]));
    }
  }

  /** What a cancel does: the pending scan of that session and id is told to stop, its token is given up, and scans of
      other sessions or ids are left alone. */
  ghost predicate CancelsOne(s: System, n: System, session: nat, id: string) {
    && |n.scans| == |s.scans| && (session, id) !in n.tokens && n.radio == s.radio
    && (forall t: nat :: t < |s.scans| && IsFrom(s.scans[t], session, id) ==>
          !Pending(n.scans[t]) && n.scans[t].(cancelled := false) == s.scans[t].(cancelled := false))
    && (forall t: nat :: t < |s.scans| && !IsFrom(s.scans[t], session, id) ==> n.scans[t] == s.scans[t])
    && forall key :: key != (session, id) ==> (key in n.tokens <==> key in s.tokens) && (key in s.tokens ==> n.tokens[key] == s.tokens[key])
  }

  lemma CancelReachesItsScan(s: System, session: nat, id: string)
    requires Reachable(s) && TokensOk(s)
    ensures CancelsOne(s, Next(s, Cancel(session, id)), session, id)
  {
    if (session, id) in s.tokens {
      assert IsFrom(s.scans[s.tokens[(session, id)]], session, id);
    }
  }

  /** No scan under this id is still pending in the session. */
  ghost predicate IsIdle(s: System, session: nat, id: string) {
    forall t: nat :: t < |s.scans| && Pending(s.scans[t]) ==> s.scans[t].session != session || s.scans[t].id != id
  }

  /** A new scan keeps all scans reachable exactly when its id is idle in its session. */
  lemma AskReachableIffIdIsIdle(s: System, session: nat, id: string, filter: Filter)
    requires Reachable(s)
    ensures Reachable(Next(s, Ask(session, id, filter))) <==> IsIdle(s, session, id)
  {
    var n := Next(s, Ask(session, id, filter));
    forall t: nat | t < |s.scans| && Pending(s.scans[t]) && s.scans[t].session == session && s.scans[t].id == id
      ensures !Reachable(n)
    {
      assert n.scans[t] == s.scans[t];
    }
    if IsIdle(s, session, id) {
      assert forall t: nat :: t < |s.scans| ==> n.scans[t] == s.scans[t];
    }
  }

  ghost predicate UsesIdleIds(s: System, steps: seq<Step>)
    requires IsRun(s, steps)
    decreases |steps|
  {
    steps == [] || (&& (steps[0].Ask? ==> IsIdle(s, steps[0].session, steps[0].id))
                    && UsesIdleIds(Next(s, steps[0]), steps[1..]))
  }

  lemma {:induction false} RunKeepsReachable(s: System, steps: seq<Step>)
    requires Reachable(s) && IsRun(s, steps) && UsesIdleIds(s, steps)
    ensures Reachable(Final(s, steps))
    decreases |steps|
  {
    if steps != [] {
      match steps[0] {
        case Ask(session, id, filter) => AskReachableIffIdIsIdle(s, session, id, filter);
        case step => StepKeepsReachable(s, step);
      }
      RunKeepsReachable(Next(s, steps[0]), steps[1..]);
    }
  }

  ghost predicate NonePending(s: System, session: nat) {
    forall t: nat :: t < |s.scans| && s.scans[t].session == session ==> !Pending(s.scans[t])
  }

  lemma StepKeepsNonePending(s: System, step: Step, session: nat)
    requires NonePending(s, session) && Enabled(s, step) && !(step.Ask? && step.session == session)
    ensures NonePending(Next(s, step), session)
  {
    var n := Next(s, step);
    assert forall t: nat :: t < |s.scans| ==>
      n.scans[t].session == s.scans[t].session && (Pending(n.scans[t]) ==> Pending(s.scans[t]));
  }

  lemma {:induction false} RunKeepsNonePending(s: System, steps: seq<Step>, session: nat)
    requires NonePending(s, session) && IsRun(s, steps)
    requires forall step :: step in steps ==> !(step.Ask? && step.session == session)
    ensures NonePending(Final(s, steps), session)
    decreases |steps|
  {
    if steps != [] {
      assert steps[0] in steps;
      StepKeepsNonePending(s, steps[0], session);
      RunKeepsNonePending(Next(s, steps[0]), steps[1..], session);
    }
  }

  /** Once a session that never reused the id of a pending scan is torn down, each of its scans is over or has been
      told to stop, for good. That a scan told to stop does stop is in BleStops. */
  lemma TeardownSilencesTheSession(before: seq<Step>, session: nat, after: seq<Step>)
    requires IsRun(Idle(), before) && UsesIdleIds(Idle(), before)
    requires IsRun(Next(Final(Idle(), before), TearDown(session)), after)
    requires forall step :: step in after ==> !(step.Ask? && step.session == session)
    ensures NonePending(Final(Next(Final(Idle(), before), TearDown(session)), after), session)
  {
    RunKeepsReachable(Idle(), before);
    TeardownReachesAll(Final(Idle(), before), session);
    RunKeepsNonePending(Next(Final(Idle(), before), TearDown(session)), after, session);
  }
}
