/** One BLE session's own books: its live connections, their notification pumps, its scan tokens and the lazily started
    disconnect watch (src/service/ble/session.rs). What scans do once spawned is in BleScans. */
module BleSession {
  import Protocol

  type Option<+T> = Protocol.Option<T>

  datatype Body =
    | Result(payload: string)
    | Error(message: string)
    | Disconnected(deviceId: string)

  datatype Response = Response(id: string, body: Body)

  /** A request with the failure, if any, that argument parsing and the adapter calls come to. Transfer stands for
      write, read, subscribe and unsubscribe, which need a live connection and change nothing the session keeps. */
  datatype Request =
    | Scan(failure: Option<string>)
    | Cancel
    | Connect(deviceId: string, failure: Option<string>)
    | Disconnect(deviceId: string, failure: Option<string>)
    | Transfer(deviceId: string, payload: string, failure: Option<string>)

  /** What wakes the session's loop: a request, a frame that is none, a disconnect relayed from the watch. */
  datatype Wake = Asked(id: string, req: Request) | Garbled(reason: string) | Relayed(deviceId: string)

  const NO_ADAPTER := "no BLE adapter available"
  const EMPTY_OBJECT := "{}"

  /** Pumps and scan tokens are known by the order in which they were made; a connection goes by its pump.
      `aborted` are the pumps stopped, `fired` the tokens cancelled, `asked` the devices asked to disconnect. */
  datatype Books = Books(
    adapter: bool,
    connected: map<string, nat>, pumps: map<string, nat>, spawned: nat, aborted: set<nat>,
    scans: map<string, nat>, tokens: nat, fired: set<nat>,
    watching: bool, asked: seq<string>, sent: seq<Response>)

  function NewBooks(adapter: bool): Books {
    Books(adapter, map[], map[], 0, {}, map[], 0, {}, false, [], [])
  }

  function PumpOf(pumps: map<string, nat>, deviceId: string): set<nat> {
    if deviceId in pumps then {pumps[deviceId]} else {}
  }

  function Told(b: Books, id: string, body: Body): Books {
    b.(sent := b.sent + [Response(id, body)])
  }

  function Forgotten(b: Books, deviceId: string): Books {
    b.(connected := b.connected - {deviceId}, pumps := b.pumps - {deviceId},
       aborted := b.aborted + PumpOf(b.pumps, deviceId))
  }

  /** An accepted scan is answered by its own task. */
  function AfterScan(b: Books, id: string, failure: Option<string>): Books {
    if failure.Some? then Told(b, id, Error(failure.value))
    else b.(scans := b.scans[id := b.tokens], tokens := b.tokens + 1)
  }

  function AfterCancel(b: Books, id: string): Books {
    b.(scans := b.scans - {id}, fired := b.fired + PumpOf(b.scans, id))
  }

  /** A reconnect replaces the connection and stops the pump it orphans; a failed one changes nothing. */
  function AfterConnect(b: Books, id: string, deviceId: string, failure: Option<string>): Books {
    if failure.Some? then Told(b, id, Error(failure.value))
    else Told(b.(connected := b.connected[deviceId := b.spawned], pumps := b.pumps[deviceId := b.spawned],
                 spawned := b.spawned + 1, aborted := b.aborted + PumpOf(b.pumps, deviceId), watching := true),
              id, Result(deviceId))
  }

  /** Forgets the device even if the adapter then fails to let it go. */
  function AfterDisconnect(b: Books, id: string, deviceId: string, failure: Option<string>): Books {
    var rest := Forgotten(b, deviceId);
    if deviceId !in b.connected then Told(rest, id, Result(EMPTY_OBJECT))
    else Told(rest.(asked := b.asked + [deviceId]), id,
              if failure.Some? then Error(failure.value) else Result(EMPTY_OBJECT))
  }

  function AfterTransfer(b: Books, id: string, deviceId: string, payload: string, failure: Option<string>): Books {
    if deviceId !in b.connected then Told(b, id, Error("device " + deviceId + " is not connected"))
    else Told(b, id, if failure.Some? then Error(failure.value) else Result(payload))
  }

  /** Relayed events are adapter-wide: ids this session never connected are ignored. */
  function AfterRelay(b: Books, deviceId: string): Books {
    if deviceId !in b.connected then b else Told(Forgotten(b, deviceId), "", Disconnected(deviceId))
  }

  function AfterRequest(b: Books, id: string, req: Request): Books {
    if !b.adapter then Told(b, id, Error(NO_ADAPTER))
    else match req
      case Scan(failure) => AfterScan(b, id, failure)
      case Cancel => AfterCancel(b, id)
      case Connect(deviceId, failure) => AfterConnect(b, id, deviceId, failure)
      case Disconnect(deviceId, failure) => AfterDisconnect(b, id, deviceId, failure)
      case Transfer(deviceId, payload, failure) => AfterTransfer(b, id, deviceId, payload, failure)
  }

  function After(b: Books, wake: Wake): Books {
    match wake
    case Asked(id, req) => AfterRequest(b, id, req)
    case Garbled(reason) => Told(b, "", Error("malformed envelope: " + reason))
    case Relayed(deviceId) => AfterRelay(b, deviceId)
  }

  function AfterAll(b: Books, wakes: seq<Wake>): Books {
    if wakes == [] then b else After(AfterAll(b, Protocol.Front(wakes)), Protocol.Last(wakes))
  }

  /** `after` adds to `before` each of the devices once, in some order. */
  ghost predicate AsksEach(before: seq<string>, after: seq<string>, devices: set<string>) {
    && before <= after && |after| == |before| + |devices|
    && forall d :: d in after[|before|..] <==> d in devices
  }

  /** `after` adds everything the map holds to `before`. */
  ghost predicate AddsAll(before: set<nat>, after: set<nat>, held: map<string, nat>) {
    after == before + held.Values
  }

  /** What teardown leaves of `b`, in whatever order the maps are drained. */
  ghost predicate TornDown(b: Books, n: Books) {
    && n.adapter == b.adapter && n.spawned == b.spawned && n.tokens == b.tokens && n.sent == b.sent
    && n.connected == map[] && n.pumps == map[] && n.scans == map[] && !n.watching
    && AddsAll(b.aborted, n.aborted, b.pumps) && AddsAll(b.fired, n.fired, b.scans)
    && AsksEach(b.asked, n.asked, b.connected.Keys)
  }

  /** The part of it that concerns the session's tasks. */
  ghost predicate TasksStopped(b: Books, n: Books) {
    && n == b.(pumps := map[], scans := map[], watching := false, aborted := n.aborted, fired := n.fired)
    && AddsAll(b.aborted, n.aborted, b.pumps) && AddsAll(b.fired, n.fired, b.scans)
  }

  lemma StopThenDisconnect(b: Books, m: Books, n: Books)
    requires TasksStopped(b, m) && n == m.(connected := map[], asked := n.asked)
    requires AsksEach(m.asked, n.asked, m.connected.Keys)
    ensures TornDown(b, n)
  {
  }

  class Session {
    const adapter: bool
    var connected: map<string, nat>
    var pumps: map<string, nat>
    var spawned: nat
    var aborted: set<nat>
    var scans: map<string, nat>
    var tokens: nat
    var fired: set<nat>
    var watching: bool
    var asked: seq<string>
    var sent: seq<Response>

    function View(): Books
      reads this
    {
      Books(adapter, connected, pumps, spawned, aborted, scans, tokens, fired, watching, asked, sent)
    }

    constructor (adapter: bool)
      ensures View() == NewBooks(adapter)
    {
      this.adapter := adapter;
      connected, pumps, spawned, aborted := map[], map[], 0, {};
      scans, tokens, fired := map[], 0, {};
      watching, asked, sent := false, [], [];
    }

    method Send(id: string, body: Body)
      modifies this`sent
      ensures View() == Told(old(View()), id, body)
    {
      sent := sent + [Response(id, body)];
    }

    method HandleScan(id: string, failure: Option<string>)
      modifies this
      ensures View() == AfterScan(old(View()), id, failure)
    {
      if failure.Some? {
        Send(id, Error(failure.value));
        return;
      }
      scans, tokens := scans[id := tokens], tokens + 1;
    }

    /** A no-op for an id without a scan. */
    method HandleCancel(id: string)
      modifies this
      ensures View() == AfterCancel(old(View()), id)
    {
      if id in scans {
        fired := fired + {scans[id]};
        scans := scans - {id};
      } else {
        assert scans - {id} == scans;
      }
    }

    method HandleConnect(id: string, deviceId: string, failure: Option<string>)
      modifies this
      ensures View() == AfterConnect(old(View()), id, deviceId, failure)
    {
      if failure.Some? {
        Send(id, Error(failure.value));
        return;
      }
      var pump := spawned;
      spawned := spawned + 1;
      connected := connected[deviceId := pump];
      if deviceId in pumps { aborted := aborted + {pumps[deviceId]}; }
      pumps := pumps[deviceId := pump];
      if !watching { watching := true; }
      Send(id, Result(deviceId));
    }

    /** Stops and drops a device's pump. */
    method DropPump(deviceId: string)
      modifies this`pumps, this`aborted
      ensures pumps == old(pumps) - {deviceId}
      ensures aborted == old(aborted) + PumpOf(old(pumps), deviceId)
    {
      if deviceId in pumps {
        aborted := aborted + {pumps[deviceId]};
        pumps := pumps - {deviceId};
      } else {
        assert pumps - {deviceId} == pumps;
      }
    }

    method HandleDisconnect(id: string, deviceId: string, failure: Option<string>)
      modifies this
      ensures View() == AfterDisconnect(old(View()), id, deviceId, failure)
    {
      DropPump(deviceId);
      if deviceId in connected {
        connected := connected - {deviceId};
        asked := asked + [deviceId];
        if failure.Some? {
          Send(id, Error(failure.value));
          return;
        }
      } else {
        assert connected - {deviceId} == connected;
      }
      Send(id, Result(EMPTY_OBJECT));
    }

    method HandleTransfer(id: string, deviceId: string, payload: string, failure: Option<string>)
      modifies this
      ensures View() == AfterTransfer(old(View()), id, deviceId, payload, failure)
    {
      if deviceId !in connected {
        Send(id, Error("device " + deviceId + " is not connected"));
      } else if failure.Some? {
        Send(id, Error(failure.value));
      } else {
        Send(id, Result(payload));
      }
    }

    method HandlePeripheralDisconnect(deviceId: string)
      modifies this
      ensures View() == AfterRelay(old(View()), deviceId)
    {
      if deviceId !in connected { return; }
      connected := connected - {deviceId};
      DropPump(deviceId);
      Send("", Disconnected(deviceId));
    }

    method Dispatch(id: string, req: Request)
      modifies this
      ensures View() == AfterRequest(old(View()), id, req)
    {
      if !adapter {
        Send(id, Error(NO_ADAPTER));
        return;
      }
      match req {
        case Scan(failure) => HandleScan(id, failure);
        case Cancel => HandleCancel(id);
        case Connect(deviceId, failure) => HandleConnect(id, deviceId, failure);
        case Disconnect(deviceId, failure) => HandleDisconnect(id, deviceId, failure);
        case Transfer(deviceId, payload, failure) => HandleTransfer(id, deviceId, payload, failure);
      }
    }

    method Teardown()
      modifies this
      ensures TornDown(old(View()), View())
    {
      ghost var b := View();
      StopTasks();
      ghost var m := View();
      DisconnectAll();
      assert View() == m.(connected := map[], asked := asked);
      StopThenDisconnect(b, m, View());
    }

    method StopTasks()
      modifies this`watching, this`pumps, this`aborted, this`scans, this`fired
      ensures TasksStopped(old(View()), View())
    {
      watching := false;
      AbortPumps();
      FireTokens();
    }

    method AbortPumps()
      modifies this`pumps, this`aborted
      ensures pumps == map[] && AddsAll(old(aborted), aborted, old(pumps))
    {
      while pumps != map[]
        invariant forall d :: d in pumps ==> d in old(pumps) && pumps[d] == old(pumps)[d]
        invariant old(aborted) <= aborted <= old(aborted) + old(pumps).Values
        invariant forall d :: d in old(pumps) && d !in pumps ==> old(pumps)[d] in aborted
        decreases |pumps|
      {
        var d :| d in pumps;
        aborted := aborted + {pumps[d]};
        pumps := pumps - {d};
      }
      assert old(pumps).Values <= aborted;
    }

    method FireTokens()
      modifies this`scans, this`fired
      ensures scans == map[] && AddsAll(old(fired), fired, old(scans))
    {
      while scans != map[]
        invariant forall d :: d in scans ==> d in old(scans) && scans[d] == old(scans)[d]
        invariant old(fired) <= fired <= old(fired) + old(scans).Values
        invariant forall d :: d in old(scans) && d !in scans ==> old(scans)[d] in fired
        decreases |scans|
      {
        var d :| d in scans;
        fired := fired + {scans[d]};
        scans := scans - {d};
      }
      assert old(scans).Values <= fired;
    }

    /** Every remaining device is asked exactly once. */
    method DisconnectAll()
      modifies this`connected, this`asked
      ensures connected == map[] && AsksEach(old(asked), asked, old(connected).Keys)
    {
      ghost var now: seq<string> := [];
      while connected != map[]
        invariant connected.Keys <= old(connected).Keys
        invariant asked == old(asked) + now && |now| + |connected| == |old(connected)|
        invariant forall d :: d in now <==> d in old(connected) && d !in connected
        decreases |connected|
      {
        var d :| d in connected;
        asked, now := asked + [d], now + [d];
        connected := connected - {d};
      }
      assert asked[|old(asked)|..] == now;
    }

    /** The whole session over any requests, bad frames and relayed events, then its teardown. */
    method Run(wakes: seq<Wake>)
      modifies this
      ensures TornDown(AfterAll(old(View()), wakes), View())
    {
      var i := 0;
      while i < |wakes|
        invariant 0 <= i <= |wakes| && View() == AfterAll(old(View()), wakes[..i])
      {
        assert wakes[..i + 1][..i] == wakes[..i];
        match wakes[i] {
          case Asked(id, req) => Dispatch(id, req);
          case Garbled(reason) => Send("", Error("malformed envelope: " + reason));
          case Relayed(deviceId) => HandlePeripheralDisconnect(deviceId);
        }
        i := i + 1;
      }
      assert wakes[..i] == wakes;
      Teardown();
    }
  }

  // ---- what holds at every loop head ----------------------------------------------------------------------

  /** A pump per connection and a connection per pump, each device its own; the pumps running are exactly those in the
      map; and nothing is connected unless the watch was started. */
  ghost predicate BooksOk(b: Books) {
    && b.connected == b.pumps
    && (forall d, e :: d in b.pumps && e in b.pumps && b.pumps[d] == b.pumps[e] ==> d == e)
    && (forall p: nat :: p < b.spawned && p !in b.aborted <==> p in b.pumps.Values)
    && (forall p: nat :: p in b.aborted ==> p < b.spawned)
    && (b.connected != map[] ==> b.watching)
  }

  lemma ForgetKeepsBooks(b: Books, deviceId: string)
    requires BooksOk(b)
    ensures BooksOk(Forgotten(b, deviceId))
  {
    var n := Forgotten(b, deviceId);
    forall p: nat | p < n.spawned && p !in n.aborted ensures p in n.pumps.Values {
      var d :| d in b.pumps && b.pumps[d] == p;
      assert n.pumps[d] == p;
    }
    forall p: nat | p in n.pumps.Values ensures p < n.spawned && p !in n.aborted {
      var d :| d in n.pumps && n.pumps[d] == p;
      assert b.pumps[d] == p && p in b.pumps.Values;
    }
  }

  lemma ConnectKeepsBooks(b: Books, id: string, deviceId: string)
    requires BooksOk(b)
    ensures BooksOk(AfterConnect(b, id, deviceId, Protocol.None))
  {
    var n := AfterConnect(b, id, deviceId, Protocol.None);
    forall d | d in b.pumps ensures b.pumps[d] < b.spawned && b.pumps[d] !in b.aborted {
      assert b.pumps[d] in b.pumps.Values;
    }
    forall p: nat | p < n.spawned && p !in n.aborted ensures p in n.pumps.Values {
      if p == b.spawned {
        assert n.pumps[deviceId] == p;
      } else {
        var d :| d in b.pumps && b.pumps[d] == p;
        assert n.pumps[d] == p;
      }
    }
    forall p: nat | p in n.pumps.Values ensures p < n.spawned && p !in n.aborted {
      var d :| d in n.pumps && n.pumps[d] == p;
    }
  }

  lemma WakeKeepsBooks(b: Books, wake: Wake)
    requires BooksOk(b)
    ensures BooksOk(After(b, wake))
  {
    match wake
    case Asked(id, Connect(deviceId, _)) => ConnectKeepsBooks(b, id, deviceId);
    case Asked(id, Disconnect(deviceId, _)) => ForgetKeepsBooks(b, deviceId);
    case Relayed(deviceId) => ForgetKeepsBooks(b, deviceId);
    case _ =>
  }

  /** At every loop head, whatever requests, failures, reconnects and relayed events came before. */
  lemma {:induction false} BooksHoldThroughout(adapter: bool, wakes: seq<Wake>)
    ensures BooksOk(AfterAll(NewBooks(adapter), wakes))
  {
    if wakes != [] {
      BooksHoldThroughout(adapter, Protocol.Front(wakes));
      WakeKeepsBooks(AfterAll(NewBooks(adapter), Protocol.Front(wakes)), Protocol.Last(wakes));
    }
  }

  /** How one wake bears on a device: a successful connect links it, a disconnect or a relayed event unlinks it. */
  predicate Links(linked: bool, wake: Wake, deviceId: string) {
    match wake
    case Asked(_, Connect(d, failure)) => linked || (d == deviceId && failure.None?)
    case Asked(_, Disconnect(d, _)) => linked && d != deviceId
    case Relayed(d) => linked && d != deviceId
    case _ => linked
  }

  /** The session's own history says the device is connected. */
  predicate LastLinked(wakes: seq<Wake>, deviceId: string) {
    wakes != [] && Links(LastLinked(Protocol.Front(wakes), deviceId), Protocol.Last(wakes), deviceId)
  }

  lemma WakeLinks(b: Books, wake: Wake, deviceId: string)
    requires b.adapter
    ensures deviceId in After(b, wake).connected <==> Links(deviceId in b.connected, wake, deviceId)
    ensures After(b, wake).adapter
  {
    match wake
    case Asked(id, req) => RequestLinks(b, id, req, deviceId);
    case _ =>
  }

  lemma RequestLinks(b: Books, id: string, req: Request, deviceId: string)
    requires b.adapter
    ensures deviceId in AfterRequest(b, id, req).connected <==> Links(deviceId in b.connected, Asked(id, req), deviceId)
    ensures AfterRequest(b, id, req).adapter
  {
    match req
    case Connect(d, failure) => assert deviceId in AfterConnect(b, id, d, failure).connected <==>
      deviceId in b.connected || (d == deviceId && failure.None?);
    case Disconnect(d, failure) =>
      assert AfterDisconnect(b, id, d, failure).connected == b.connected - {d};
    case _ =>
  }

  lemma {:induction false} ConnectedIffLastLinked(wakes: seq<Wake>, deviceId: string)
    ensures deviceId in AfterAll(NewBooks(true), wakes).connected <==> LastLinked(wakes, deviceId)
    ensures AfterAll(NewBooks(true), wakes).adapter
  {
    if wakes != [] {
      ConnectedIffLastLinked(Protocol.Front(wakes), deviceId);
      WakeLinks(AfterAll(NewBooks(true), Protocol.Front(wakes)), Protocol.Last(wakes), deviceId);
    }
  }

  /** Without an adapter nothing is ever connected, spawned or scanned, and every request is refused. */
  lemma {:induction false} WithoutAdapterNothingHappens(wakes: seq<Wake>)
    ensures var n := AfterAll(NewBooks(false), wakes);
      n == NewBooks(false).(sent := n.sent) && forall i :: 0 <= i < |n.sent| ==> n.sent[i].body.Error?
  {
    if wakes != [] {
      WithoutAdapterNothingHappens(Protocol.Front(wakes));
    }
  }

  /** After the teardown no pump ever spawned runs, no connection and no token is kept, every token held has fired, and
      exactly the devices still linked were asked to disconnect. */
  lemma TeardownStopsEverything(wakes: seq<Wake>, after: Books)
    requires var b := AfterAll(NewBooks(true), wakes); TornDown(b, after)
    ensures after.connected == map[] && after.pumps == map[] && after.scans == map[]
    ensures forall p: nat :: p in after.aborted <==> p < after.spawned
    ensures var b := AfterAll(NewBooks(true), wakes);
      && (forall id :: id in b.scans ==> b.scans[id] in after.fired)
      && forall d :: d in after.asked[|b.asked|..] <==> LastLinked(wakes, d)
  {
    var b := AfterAll(NewBooks(true), wakes);
    BooksHoldThroughout(true, wakes);
    forall d ensures d in after.asked[|b.asked|..] <==> LastLinked(wakes, d) { ConnectedIffLastLinked(wakes, d); }
    forall p: nat ensures p in after.aborted <==> p < after.spawned {
      if p in b.pumps.Values { assert p < b.spawned; }
    }
  }

  // ---- what the browser is told ---------------------------------------------------------------------------

  /** The device a wake is about. */
  function Concerns(wake: Wake): string {
    match wake
    case Asked(_, Connect(deviceId, _)) => deviceId
    case Asked(_, Disconnect(deviceId, _)) => deviceId
    case Asked(_, Transfer(deviceId, _, _)) => deviceId
    case Relayed(deviceId) => deviceId
    case _ => ""
  }

  /** One reply under `id`: what was asked for, or else what went wrong. */
  predicate IsReply(said: seq<Response>, id: string, payload: string, failure: Option<string>) {
    |said| == 1 && said[0].id == id &&
    match failure
    case None => said[0].body == Result(payload)
    case Some(message) => said[0].body == Error(message)
  }

  predicate IsRefusal(said: seq<Response>, id: string) {
    |said| == 1 && said[0].id == id && said[0].body.Error?
  }

  /** What the loop says when it is woken, given whether the device concerned is connected: a reply to each request but a
      cancel and a scan, which its own task answers unless it is refused; a notice of a connected device that went. */
  predicate Replies(linked: bool, wake: Wake, said: seq<Response>) {
    match wake
    case Garbled(reason) =>
      IsRefusal(said, "") && |reason| <= |said[0].body.message| && said[0].body.message[|said[0].body.message| - |reason|..] == reason
    case Relayed(deviceId) => said == if linked then [Response("", Disconnected(deviceId))] else []
    case Asked(id, Scan(failure)) => if failure.Some? then IsReply(said, id, "", failure) else said == []
    case Asked(id, Cancel) => said == []
    case Asked(id, Connect(deviceId, failure)) => IsReply(said, id, deviceId, failure)
    case Asked(id, Disconnect(_, failure)) => IsReply(said, id, EMPTY_OBJECT, if linked then failure else Protocol.None)
    case Asked(id, Transfer(_, payload, failure)) => if linked then IsReply(said, id, payload, failure) else IsRefusal(said, id)
  }

  lemma GarbledEnds(reason: string)
    ensures var message := "malformed envelope: " + reason;
      |reason| <= |message| && message[|message| - |reason|..] == reason
  {
  }

  lemma WakeReplies(b: Books, wake: Wake)
    requires b.adapter
    ensures b.sent <= After(b, wake).sent && Replies(Concerns(wake) in b.connected, wake, After(b, wake).sent[|b.sent|..])
  {
    match wake
    case Garbled(reason) => GarbledEnds(reason);
    case Asked(id, req) => RequestReplies(b, id, req);
    case _ =>
  }

  lemma RequestReplies(b: Books, id: string, req: Request)
    requires b.adapter
    ensures var n := AfterRequest(b, id, req);
      b.sent <= n.sent && Replies(Concerns(Asked(id, req)) in b.connected, Asked(id, req), n.sent[|b.sent|..])
  {
    match req
    case Connect(deviceId, failure) => ConnectReplies(b, id, deviceId, failure);
    case Disconnect(deviceId, failure) => DisconnectReplies(b, id, deviceId, failure);
    case _ =>
  }

  lemma ConnectReplies(b: Books, id: string, deviceId: string, failure: Option<string>)
    ensures var n := AfterConnect(b, id, deviceId, failure);
      b.sent <= n.sent && IsReply(n.sent[|b.sent|..], id, deviceId, failure)
  {
  }

  lemma DisconnectReplies(b: Books, id: string, deviceId: string, failure: Option<string>)
    ensures var n := AfterDisconnect(b, id, deviceId, failure);
      && b.sent <= n.sent
      && IsReply(n.sent[|b.sent|..], id, EMPTY_OBJECT, if deviceId in b.connected then failure else Protocol.None)
  {
  }

  /** A device is asked to go when its browser disconnects it, if it is connected, and at no other wake. */
  lemma WakeAsks(b: Books, wake: Wake)
    requires b.adapter
    ensures After(b, wake).asked == b.asked +
      if wake.Asked? && wake.req.Disconnect? && wake.req.deviceId in b.connected then [wake.req.deviceId] else []
  {
    match wake
    case Asked(id, Disconnect(deviceId, failure)) => DisconnectAsks(b, id, deviceId, failure);
    case _ => assert b.asked + [] == b.asked;
  }

  lemma DisconnectAsks(b: Books, id: string, deviceId: string, failure: Option<string>)
    ensures AfterDisconnect(b, id, deviceId, failure).asked == b.asked + if deviceId in b.connected then [deviceId] else []
  {
    assert b.asked + [] == b.asked;
  }

  lemma AfterOneMore(b: Books, wakes: seq<Wake>, i: nat)
    requires i < |wakes|
    ensures AfterAll(b, wakes[..i + 1]) == After(AfterAll(b, wakes[..i]), wakes[i])
  {
    assert Protocol.Front(wakes[..i + 1]) == wakes[..i] && Protocol.Last(wakes[..i + 1]) == wakes[i];
  }

  /** Over any wakes: each is answered as it should be, by what came before; and just the connected devices that a browser
      disconnects are asked to go. */
  lemma EveryWakeIsAnswered(wakes: seq<Wake>, i: nat)
    requires i < |wakes|
    ensures var before, after := AfterAll(NewBooks(true), wakes[..i]).sent, AfterAll(NewBooks(true), wakes[..i + 1]).sent;
      before <= after && Replies(LastLinked(wakes[..i], Concerns(wakes[i])), wakes[i], after[|before|..])
    ensures AfterAll(NewBooks(true), wakes[..i + 1]).asked == AfterAll(NewBooks(true), wakes[..i]).asked +
      if wakes[i].Asked? && wakes[i].req.Disconnect? && LastLinked(wakes[..i], wakes[i].req.deviceId) then [wakes[i].req.deviceId] else []
  {
    AfterOneMore(NewBooks(true), wakes, i);
    ConnectedIffLastLinked(wakes[..i], Concerns(wakes[i]));
    WakeReplies(AfterAll(NewBooks(true), wakes[..i]), wakes[i]);
    WakeAsks(AfterAll(NewBooks(true), wakes[..i]), wakes[i]);
  }

  // ---- scan tokens ----------------------------------------------------------------------------------------

  /** How one wake bears on a scan's token: an accepted scan files one, a cancel takes it out. */
  predicate Files(filed: bool, wake: Wake, id: string) {
    match wake
    case Asked(asked, Scan(failure)) => filed || (asked == id && failure.None?)
    case Asked(asked, Cancel) => filed && asked != id
    case _ => filed
  }

  predicate LastFiled(wakes: seq<Wake>, id: string) {
    wakes != [] && Files(LastFiled(Protocol.Front(wakes), id), Protocol.Last(wakes), id)
  }

  lemma WakeFiles(b: Books, wake: Wake, id: string)
    requires b.adapter
    ensures id in After(b, wake).scans <==> Files(id in b.scans, wake, id)
    ensures b.fired <= After(b, wake).fired && After(b, wake).adapter
    ensures id in b.scans && wake == Asked(id, Cancel) ==> b.scans[id] in After(b, wake).fired
  {
    match wake
    case Asked(_, Scan(_)) =>
    case Asked(asked, Cancel) => CancelFiles(b, asked, id);
    case Asked(asked, req) => OthersFileNothing(b, asked, req);
    case _ =>
  }

  lemma CancelFiles(b: Books, asked: string, id: string)
    ensures var n := AfterCancel(b, asked);
      && (id in n.scans <==> id in b.scans && asked != id) && b.fired <= n.fired
      && (id in b.scans && asked == id ==> b.scans[id] in n.fired)
  {
  }

  lemma OthersFileNothing(b: Books, id: string, req: Request)
    requires !req.Scan? && !req.Cancel?
    ensures AfterRequest(b, id, req).scans == b.scans && AfterRequest(b, id, req).fired == b.fired
    ensures AfterRequest(b, id, req).adapter == b.adapter
  {
  }

  lemma {:induction false} FiledIffLastFiled(wakes: seq<Wake>, id: string)
    ensures id in AfterAll(NewBooks(true), wakes).scans <==> LastFiled(wakes, id)
    ensures AfterAll(NewBooks(true), wakes).adapter
  {
    if wakes != [] {
      FiledIffLastFiled(Protocol.Front(wakes), id);
      WakeFiles(AfterAll(NewBooks(true), Protocol.Front(wakes)), Protocol.Last(wakes), id);
    }
  }

  /** Over any wakes a cancel finds the token of the scan last accepted under its id, if it was not cancelled since, and
      fires it. */
  lemma CancelsFireTheirScan(wakes: seq<Wake>, id: string)
    ensures var b := AfterAll(NewBooks(true), wakes);
      && (id in b.scans <==> LastFiled(wakes, id))
      && (id in b.scans ==> b.scans[id] in After(b, Asked(id, Cancel)).fired && id !in After(b, Asked(id, Cancel)).scans)
  {
    FiledIffLastFiled(wakes, id);
  }
}
