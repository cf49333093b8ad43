/**
 * The `BleScanner` object of blescanner.cpp/.hpp: the Tilt and GravityMon
 * tables it owns, the queue of devices to connect to, the scan cycle, the
 * per-advertisement handlers and the connect-and-read session.
 *
 * The BLE stack is outside the model: whether a scan starts, and every
 * outcome of a connect attempt, arrive as parameters.
 */
module BleScanner {
  import opened Wrappers
  import opened Units
  import opened JsonDoc
  import opened BleData
  import opened BeaconDecode

  /** Most BLE clients the stack keeps (the build's `NIMBLE_MAX_CONNECTIONS`). */
  const NIMBLE_MAX_CONNECTIONS: nat := 3

  // ------------------------------------------------------------ Tilt

  /**
   * The hex-string accumulation loop of `proccesTiltBeacon`: every byte from
   * index 4 on is rendered with `%.2x` and appended to the colour (4-19),
   * temperature (20-21), gravity (22-23) or tx-power (24) buffer.
   */
  method TiltHexFields(data: seq<byte>) returns (colorHex: string, tempHex: string, gravityHex: string, txPowerHex: string)
    requires |data| >= 4
    ensures colorHex == HexString(Window(data, 4, 20))
    ensures tempHex == HexString(Window(data, 20, 22))
    ensures gravityHex == HexString(Window(data, 22, 24))
    ensures txPowerHex == HexString(Window(data, 24, 25))
  {
    colorHex, tempHex, gravityHex, txPowerHex := "", "", "", "";
    var i := 4;
    assert Window(data[..i], 4, 20) == [] && Window(data[..i], 20, 22) == [];
    assert Window(data[..i], 22, 24) == [] && Window(data[..i], 24, 25) == [];
    while i < |data|
      invariant 4 <= i <= |data|
      invariant colorHex == HexString(Window(data[..i], 4, 20))
      invariant tempHex == HexString(Window(data[..i], 20, 22))
      invariant gravityHex == HexString(Window(data[..i], 22, 24))
      invariant txPowerHex == HexString(Window(data[..i], 24, 25))
    {
      colorHex := CollectHex(data, i, 4, 20, colorHex);
      tempHex := CollectHex(data, i, 20, 22, tempHex);
      gravityHex := CollectHex(data, i, 22, 24, gravityHex);
      txPowerHex := CollectHex(data, i, 24, 25, txPowerHex);
      i := i + 1;
    }
    assert data[..i] == data;
  }

  /**
   * One buffer's share of a loop pass in `TiltHexFields`: byte `i` is appended
   * when it lies in `lo..hi-1` (the source's tests `i > 3 && i < 20`,
   * `i == 20 || i == 21`, `i == 22 || i == 23` and `i == 24`).
   */
  method CollectHex(data: seq<byte>, i: nat, lo: nat, hi: nat, buf: string) returns (buf': string)
    requires i < |data| && lo <= hi
    requires buf == HexString(Window(data[..i], lo, hi))
    ensures buf' == HexString(Window(data[..i + 1], lo, hi))
  {
    FieldStep(data, i, lo, hi);
    if lo <= i < hi {
      buf' := buf + ByteHex(data[i]);
    } else {
      buf' := buf;
    }
  }

  /** One more scanned byte appends its rendering to the buffer whose window holds it. */
  lemma FieldStep(data: seq<byte>, i: nat, lo: nat, hi: nat)
    requires i < |data| && lo <= hi
    ensures HexString(Window(data[..i + 1], lo, hi))
         == HexString(Window(data[..i], lo, hi)) + (if lo <= i < hi then ByteHex(data[i]) else "")
  {
    WindowStep(data, i, lo, hi);
    if lo <= i < hi {
      HexStringSnoc(Window(data[..i], lo, hi), data[i]);
    } else {
      assert Window(data[..i], lo, hi) + [] == Window(data[..i], lo, hi);
    }
  }

  /** Checking the four leading bytes one by one is comparing the prefix. */
  lemma PreambleBytes(data: seq<byte>, p: seq<byte>)
    requires |data| >= 4 && |p| == 4
    ensures data[..4] == p <==> data[0] == p[0] && data[1] == p[1] && data[2] == p[2] && data[3] == p[3]
  {
    if data[0] == p[0] && data[1] == p[1] && data[2] == p[2] && data[3] == p[3] {
      assert data[..4] == p;
    }
  }

  /** A Tilt slot after a reading: the four data points replaced, then `setUpdated`. */
  function StoreTilt(d: TiltData, r: TiltReading, rssi: int, now: u32, wall: Option<WallClock>): (e: TiltData)
    ensures e.points == TiltPoints(r.tempF, r.gravity, r.txPower, rssi)
    ensures e.updated && e.timeUpdated == now && e.UpdateAge(now) == 0
    ensures e.timePushed == d.timePushed
  {
    d.(points := TiltPoints(r.tempF, r.gravity, r.txPower, rssi)).SetUpdated(now, wall)
  }

  /** The colour `proccesTiltBeacon` reports: the decoded one, or `None` when rejected. */
  function TiltResult(data: seq<byte>): (c: TiltColor)
    requires |data| >= 4
    ensures c == TiltColor.None <==> DecodeTilt(data).None?
  {
    match DecodeTilt(data)
    case None => TiltColor.None
    case Some(r) => r.color
  }

  // ------------------------------------------------------- GravityMon

  /** The slot write of a binary beacon: the fields, then `setUpdated`. */
  function BeaconWrite(r: BeaconReading, address: BleAddress, source: SourceType, now: u32, wall: Option<WallClock>): (w: GravitymonData -> GravitymonData)
    ensures forall d :: w(d).points.id == r.chipId && w(d).updated && w(d).timeUpdated == now
  {
    d => StoreBeacon(d, r, address, source).SetUpdated(now, wall)
  }

  /** The slot write of a JSON reading with the temperature its path computes. */
  function JsonWrite(obj: JsonObject, tempC: real, address: BleAddress, now: u32, wall: Option<WallClock>): (w: GravitymonData -> GravitymonData)
    ensures forall d :: w(d).points.id == AsString(obj, PARAM_BLE_ID) && w(d).sourceType == ExtBeacon
    ensures forall d :: w(d).updated && w(d).timeUpdated == now && w(d).points.tempC == tempC
  {
    d => StoreJson(d, obj, tempC, address).SetUpdated(now, wall)
  }

  // ----------------------------------------------------- connect chain

  /**
   * What the BLE stack answers during one `connectGravitymonDevice` call:
   * the size of its client list, whether a client for the peer or a
   * disconnected client exists, the result of each connect attempt, whether
   * the service and characteristic exist and are readable, and the parsed
   * characteristic value.
   */
  datatype ConnectScenario = ConnectScenario(
    clientListSize: nat,
    peerClient: bool,
    reconnectOk: bool,
    disconnectedClient: bool,
    newConnectOk: bool,
    isConnected: bool,
    retryConnectOk: bool,
    serviceFound: bool,
    characteristicFound: bool,
    canRead: bool,
    value: Parse)

  /** The client operations a session performs, in order. */
  datatype ClientCall = Reconnect | CreateClient | Connect | DeleteClient | ReadValue | Disconnect

  /** The result of a session: the return value, the calls made and the reading stored. */
  datatype SessionOutcome = SessionOutcome(ok: bool, calls: seq<ClientCall>, reading: Option<JsonObject>)

  predicate ReusesClient(s: ConnectScenario)
  {
    s.clientListSize > 0 && (s.peerClient || s.disconnectedClient)
  }

  /**
   * The first half of `connectGravitymonDevice`: whether a connected client
   * was obtained, and the client calls made on the way.
   */
  function Acquire(s: ConnectScenario): (r: (bool, seq<ClientCall>))
    ensures ReadValue !in r.1 && Disconnect !in r.1
    ensures DeleteClient in r.1 ==> !r.0 && r.1 == [CreateClient, Connect, DeleteClient]
    ensures CreateClient in r.1 ==> !ReusesClient(s) && s.clientListSize < NIMBLE_MAX_CONNECTIONS
    ensures !ReusesClient(s) && s.clientListSize < NIMBLE_MAX_CONNECTIONS && !s.newConnectOk
            ==> r == (false, [CreateClient, Connect, DeleteClient])
    ensures r.0 <==> !(s.clientListSize > 0 && s.peerClient && !s.reconnectOk)
                     && (ReusesClient(s) || (s.clientListSize < NIMBLE_MAX_CONNECTIONS && s.newConnectOk))
                     && (s.isConnected || s.retryConnectOk)
  {
    if s.clientListSize > 0 && s.peerClient && !s.reconnectOk then (false, [Reconnect])
    else
      var reused := ReusesClient(s);
      var pre := if s.clientListSize > 0 && s.peerClient then [Reconnect] else [];
      if !reused && s.clientListSize >= NIMBLE_MAX_CONNECTIONS then (false, pre)
      else if !reused && !s.newConnectOk then (false, pre + [CreateClient, Connect, DeleteClient])
      else
        var c := pre + (if reused then [] else [CreateClient, Connect]);
        if !s.isConnected && !s.retryConnectOk then (false, c + [Connect])
        else (true, c + (if s.isConnected then [] else [Connect]))
  }

  /**
   * The client-acquisition steps of `connectGravitymonDevice`: reuse the
   * peer's client (a failed reconnect gives up), else a disconnected one,
   * else create one below the cap (deleted again if it cannot connect); a
   * client that is not connected gets one more connect.
   */
  method ObtainClient(s: ConnectScenario) returns (connected: bool, calls: seq<ClientCall>)
    ensures connected == Acquire(s).0 && calls == Acquire(s).1
  {
    calls := [];
    var haveClient := false;
    if s.clientListSize > 0 {
      if s.peerClient {
        haveClient := true;
        calls := calls + [Reconnect];
        if !s.reconnectOk {
          return false, calls;
        }
      } else {
        haveClient := s.disconnectedClient;
      }
    }
    if !haveClient {
      if s.clientListSize >= NIMBLE_MAX_CONNECTIONS {
        return false, calls;
      }
      calls := calls + [CreateClient, Connect];
      if !s.newConnectOk {
        calls := calls + [DeleteClient];
        return false, calls;
      }
    }
    if !s.isConnected {
      calls := calls + [Connect];
      if !s.retryConnectOk {
        return false, calls;
      }
    }
    return true, calls;
  }

  /**
   * The decision chain of `connectGravitymonDevice`. A failed reconnect of the
   * peer's own client gives up at once (no fresh client is tried); a fresh
   * client is created only below the connection cap and is deleted when its
   * first connect fails; once a client is connected every exit disconnects
   * it; the call succeeds exactly when a readable characteristic held JSON
   * that parsed, and that JSON is what gets stored.
   */
  function ConnectSession(s: ConnectScenario): (o: SessionOutcome)
    ensures o.ok <==> o.reading.Some?
    ensures o.ok <==> s.value.Parsed? && s.serviceFound && s.characteristicFound && s.canRead && ReadValue in o.calls
    ensures o.reading.Some? ==> s.value.Parsed? && o.reading.value == s.value.obj
    ensures s.clientListSize > 0 && s.peerClient && !s.reconnectOk ==> o == SessionOutcome(false, [Reconnect], Option.None)
    ensures !ReusesClient(s) && s.clientListSize >= NIMBLE_MAX_CONNECTIONS ==> o == SessionOutcome(false, [], Option.None)
    ensures !ReusesClient(s) && s.clientListSize < NIMBLE_MAX_CONNECTIONS && !s.newConnectOk
            ==> o == SessionOutcome(false, [CreateClient, Connect, DeleteClient], Option.None)
    ensures Acquire(s).0 ==> |o.calls| > 0 && o.calls[|o.calls| - 1] == Disconnect
    ensures CreateClient in o.calls ==> !ReusesClient(s) && s.clientListSize < NIMBLE_MAX_CONNECTIONS
    ensures DeleteClient in o.calls <==> o.calls == [CreateClient, Connect, DeleteClient]
    ensures ReadValue in o.calls ==> o.calls[|o.calls| - 1] == Disconnect
    ensures Disconnect in o.calls ==> o.calls[|o.calls| - 1] == Disconnect && DeleteClient !in o.calls
  {
    var (connected, calls) := Acquire(s);
    if !connected then
      SessionOutcome(false, calls, Option.None)
    else if !s.serviceFound || !s.characteristicFound || !s.canRead then
      SessionOutcome(false, calls + [Disconnect], Option.None)
    else
      match s.value
      case ParseError => SessionOutcome(false, calls + [ReadValue, Disconnect], Option.None)
      case Parsed(obj) => SessionOutcome(true, calls + [ReadValue, Disconnect], Some(obj))
  }

  /**
   * The client side of `connectGravitymonDevice`: obtain a client, look up
   * the service and characteristic, read and parse the value, disconnect.
   */
  method ReadSession(s: ConnectScenario) returns (o: SessionOutcome)
    ensures o == ConnectSession(s)
  {
    var connected, calls := ObtainClient(s);
    if !connected {
      return SessionOutcome(false, calls, Option.None);
    }
    if !s.serviceFound || !s.characteristicFound || !s.canRead {
      calls := calls + [Disconnect];
      return SessionOutcome(false, calls, Option.None);
    }
    calls := calls + [ReadValue];
    if s.value.ParseError? {
      calls := calls + [Disconnect];
      return SessionOutcome(false, calls, Option.None);
    }
    calls := calls + [Disconnect];
    return SessionOutcome(true, calls, Some(s.value.obj));
  }

  /** The table after one session: a successful read is stored like an advertised JSON reading. */
  function ApplySession(table: seq<GravitymonData>, address: BleAddress, s: ConnectScenario, now: u32, wall: Option<WallClock>): (t: seq<GravitymonData>)
    ensures |t| == |table|
    ensures ConnectSession(s).reading.None? ==> t == table
  {
    match ConnectSession(s).reading
    case None => table
    case Some(obj) =>
      Upsert(table, AsString(obj, PARAM_BLE_ID), JsonWrite(obj, ConnectTempC(obj), address, now, wall))
  }

  /** Draining the connect queue in FIFO order; the k-th attempt sees `env(k)`. */
  function DrainQueue(table: seq<GravitymonData>, queue: seq<BleAddress>, env: nat -> ConnectScenario, k: nat, now: u32, wall: Option<WallClock>): (t: seq<GravitymonData>)
    ensures |t| == |table|
    decreases |queue|
  {
    if queue == [] then table
    else DrainQueue(ApplySession(table, queue[0], env(k), now, wall), queue[1..], env, k + 1, now, wall)
  }

  lemma DrainStep(table: seq<GravitymonData>, queue: seq<BleAddress>, env: nat -> ConnectScenario, k: nat, now: u32, wall: Option<WallClock>)
    requires queue != []
    ensures DrainQueue(table, queue, env, k, now, wall)
         == DrainQueue(ApplySession(table, queue[0], env(k), now, wall), queue[1..], env, k + 1, now, wall)
  {
  }

  /** A full registry drops the reading, yet the session still reports success. */
  lemma FullRegistryStillSucceeds(table: seq<GravitymonData>, address: BleAddress, s: ConnectScenario, now: u32, wall: Option<WallClock>)
    requires ConnectSession(s).ok
    requires forall i :: 0 <= i < |table| ==> table[i].points.id != "" && table[i].points.id != AsString(s.value.obj, PARAM_BLE_ID)
    ensures ApplySession(table, address, s, now, wall) == table
  {
    assert FindSlot(Ids(table), AsString(s.value.obj, PARAM_BLE_ID)) == -1;
  }

  /** A stored write keeps the id column well formed. */
  lemma UpsertKeepsTableWellFormed(table: seq<GravitymonData>, id: string, write: GravitymonData -> GravitymonData)
    requires WellFormed(Ids(table))
    requires forall d :: write(d).points.id == id
    ensures WellFormed(Ids(Upsert(table, id, write)))
  {
    UpsertIdColumn(table, id, write);
    UpsertKeepsWellFormed(Ids(table), id);
  }

  /** Every session keeps the id column well formed. */
  lemma ApplySessionKeepsWellFormed(table: seq<GravitymonData>, address: BleAddress, s: ConnectScenario, now: u32, wall: Option<WallClock>)
    requires WellFormed(Ids(table))
    ensures WellFormed(Ids(ApplySession(table, address, s, now, wall)))
  {
    match ConnectSession(s).reading
    case None =>
    case Some(obj) =>
      UpsertKeepsTableWellFormed(table, AsString(obj, PARAM_BLE_ID), JsonWrite(obj, ConnectTempC(obj), address, now, wall));
  }

  /** Draining any queue keeps the id column well formed. */
  lemma {:induction false} DrainKeepsWellFormed(table: seq<GravitymonData>, queue: seq<BleAddress>, env: nat -> ConnectScenario, k: nat, now: u32, wall: Option<WallClock>)
    requires WellFormed(Ids(table))
    ensures WellFormed(Ids(DrainQueue(table, queue, env, k, now, wall)))
    decreases |queue|
  {
    if queue != [] {
      ApplySessionKeepsWellFormed(table, queue[0], env(k), now, wall);
      DrainKeepsWellFormed(ApplySession(table, queue[0], env(k), now, wall), queue[1..], env, k + 1, now, wall);
    }
  }

  /** When no attempt reads anything, draining the queue leaves the table as it was. */
  lemma {:induction false} FailedSessionsChangeNothing(table: seq<GravitymonData>, queue: seq<BleAddress>, env: nat -> ConnectScenario, k: nat, now: u32, wall: Option<WallClock>)
    requires forall j: nat :: k <= j < k + |queue| ==> !ConnectSession(env(j)).ok
    ensures DrainQueue(table, queue, env, k, now, wall) == table
    decreases |queue|
  {
    if queue != [] {
      FailedSessionsChangeNothing(table, queue[1..], env, k + 1, now, wall);
    }
  }

  // ---------------------------------------------------------- scan cycle

  /** Every Tilt record with its `updated` flag cleared. */
  function ClearTilt(t: seq<TiltData>): (r: seq<TiltData>)
    ensures |r| == |t|
    ensures forall i :: 0 <= i < |t| ==> r[i] == t[i].(updated := false)
  {
    seq(|t|, i requires 0 <= i < |t| => t[i].(updated := false))
  }

  /** Every GravityMon record with its `updated` flag cleared. */
  function ClearGravitymon(g: seq<GravitymonData>): (r: seq<GravitymonData>)
    ensures |r| == |g|
    ensures forall i :: 0 <= i < |g| ==> r[i] == g[i].(updated := false)
  {
    seq(|g|, i requires 0 <= i < |g| => g[i].(updated := false))
  }

  /** Clearing keeps the keys and is idempotent. */
  lemma ClearGravitymonKeepsIds(g: seq<GravitymonData>)
    ensures Ids(ClearGravitymon(g)) == Ids(g)
    ensures ClearGravitymon(ClearGravitymon(g)) == ClearGravitymon(g)
    ensures forall i :: 0 <= i < |g| ==> !ClearGravitymon(g)[i].updated
  {
    assert Ids(ClearGravitymon(g)) == Ids(g);
  }

  // ------------------------------------------------- advertisements heard

  /** `onResult` reads 14 data bytes of an Eddystone frame; a deliverable advertisement has them. */
  predicate Deliverable(adv: Advertisement)
  {
    adv.name == GRAVITYMON_NAME && HasEddystone(adv) ==> |adv.payload| >= EDDYSTONE_DATA_OFFSET + 14
  }

  /** The Tilt table after `onResult(adv)`: a decoded Tilt frame rewrites its colour's slot. */
  function HeardTilt(tilt: seq<TiltData>, adv: Advertisement, now: u32, wall: Option<WallClock>): (t: seq<TiltData>)
    requires |tilt| == NO_TILT_COLORS
    ensures |t| == |tilt|
  {
    if Route(adv) == [ToTiltIBeacon] && TiltResult(adv.manufacturerData) != TiltColor.None then
      var c := TiltResult(adv.manufacturerData);
      tilt[c.Value() := StoreTilt(tilt[c.Value()], DecodeTilt(adv.manufacturerData).value, adv.rssi, now, wall)]
    else tilt
  }

  /** The GravityMon table after `onResult(adv)`: the beacon or JSON reading `Route` selects is upserted. */
  function HeardTable(table: seq<GravitymonData>, adv: Advertisement, parse: string -> Parse, now: u32, wall: Option<WallClock>): (t: seq<GravitymonData>)
    requires Deliverable(adv)
    ensures |t| == |table|
  {
    if Route(adv) == [ToEddystone] then
      var r := DecodeGravitymonEddystone(adv.payload);
      Upsert(table, r.chipId, BeaconWrite(r, adv.address, EddyStone, now, wall))
    else if Route(adv) == [ToExtBeacon] then
      match parse(ServiceDataFor(adv.serviceData, SERV_UUID))
      case ParseError => table
      case Parsed(obj) => Upsert(table, AsString(obj, PARAM_BLE_ID), JsonWrite(obj, ExtBeaconTempC(obj), adv.address, now, wall))
    else if Route(adv) == [ToGravitymonIBeacon] then
      var r := DecodeGravitymonIBeacon(adv.manufacturerData);
      Upsert(table, r.chipId, BeaconWrite(r, adv.address, Beacon, now, wall))
    else table
  }

  /** The connect queue after `onResult(adv)`: a GravityMon without beacon data is queued. */
  function HeardQueue(queue: seq<BleAddress>, adv: Advertisement): seq<BleAddress>
  {
    if Route(adv) == [ToConnectQueue] then queue + [adv.address] else queue
  }

  /** The Tilt table after the callbacks for `advs`, in the order heard. */
  function ScanTilt(tilt: seq<TiltData>, advs: seq<Advertisement>, now: u32, wall: Option<WallClock>): (t: seq<TiltData>)
    requires |tilt| == NO_TILT_COLORS
    ensures |t| == |tilt|
    decreases |advs|
  {
    if advs == [] then tilt
    else HeardTilt(ScanTilt(tilt, advs[..|advs| - 1], now, wall), advs[|advs| - 1], now, wall)
  }

  /** The GravityMon table after the callbacks for `advs`, in the order heard. */
  function ScanTable(table: seq<GravitymonData>, advs: seq<Advertisement>, parse: string -> Parse, now: u32, wall: Option<WallClock>): (t: seq<GravitymonData>)
    requires forall a :: a in advs ==> Deliverable(a)
    ensures |t| == |table|
    decreases |advs|
  {
    if advs == [] then table
    else HeardTable(ScanTable(table, advs[..|advs| - 1], parse, now, wall), advs[|advs| - 1], parse, now, wall)
  }

  /** The connect queue after the callbacks for `advs`, in the order heard. */
  function ScanQueue(queue: seq<BleAddress>, advs: seq<Advertisement>): seq<BleAddress>
    decreases |advs|
  {
    if advs == [] then queue
    else HeardQueue(ScanQueue(queue, advs[..|advs| - 1]), advs[|advs| - 1])
  }

  /**
   * The advertisements `onResult` receives between `scan` and `waitForScan`:
   * those on air while a scan runs, that is when a scanner exists and a scan
   * was already running or `start` succeeded.
   */
  function Heard(hasScanner: bool, scanning: bool, startOk: bool, advs: seq<Advertisement>): seq<Advertisement>
  {
    if hasScanner && (scanning || startOk) then advs else []
  }

  /** The callbacks of a scan keep the id column well formed. */
  lemma {:induction false} ScanKeepsWellFormed(table: seq<GravitymonData>, advs: seq<Advertisement>, parse: string -> Parse, now: u32, wall: Option<WallClock>)
    requires WellFormed(Ids(table))
    requires forall a :: a in advs ==> Deliverable(a)
    ensures WellFormed(Ids(ScanTable(table, advs, parse, now, wall)))
    decreases |advs|
  {
    if advs != [] {
      var init := advs[..|advs| - 1];
      var adv := advs[|advs| - 1];
      assert adv in advs;
      ScanKeepsWellFormed(table, init, parse, now, wall);
      var t := ScanTable(table, init, parse, now, wall);
      if Route(adv) == [ToEddystone] {
        var r := DecodeGravitymonEddystone(adv.payload);
        UpsertKeepsTableWellFormed(t, r.chipId, BeaconWrite(r, adv.address, EddyStone, now, wall));
      } else if Route(adv) == [ToExtBeacon] {
        match parse(ServiceDataFor(adv.serviceData, SERV_UUID))
        case ParseError =>
        case Parsed(obj) =>
          UpsertKeepsTableWellFormed(t, AsString(obj, PARAM_BLE_ID), JsonWrite(obj, ExtBeaconTempC(obj), adv.address, now, wall));
      } else if Route(adv) == [ToGravitymonIBeacon] {
        var r := DecodeGravitymonIBeacon(adv.manufacturerData);
        UpsertKeepsTableWellFormed(t, r.chipId, BeaconWrite(r, adv.address, Beacon, now, wall));
      }
    }
  }

  /** A GravityMon iBeacon heard with a slot free or its own is stored there, marked updated. */
  lemma HeardIBeaconStored(table: seq<GravitymonData>, adv: Advertisement, parse: string -> Parse, now: u32, wall: Option<WallClock>)
    requires Route(adv) == [ToGravitymonIBeacon]
    requires FindSlot(Ids(table), DecodeGravitymonIBeacon(adv.manufacturerData).chipId) >= 0
    ensures Deliverable(adv)
    ensures var r := DecodeGravitymonIBeacon(adv.manufacturerData);
      var k := FindSlot(Ids(table), r.chipId);
      && HeardTable(table, adv, parse, now, wall)[k].updated
      && HeardTable(table, adv, parse, now, wall)[k].points.id == r.chipId
  {
    assert Route(adv) != [ToEddystone] && Route(adv) != [ToExtBeacon];
  }

  /** One more callback extends each fold by that advertisement's step. */
  lemma ScanStep(tilt: seq<TiltData>, table: seq<GravitymonData>, queue: seq<BleAddress>, advs: seq<Advertisement>, i: int,
                 parse: string -> Parse, now: u32, wall: Option<WallClock>)
    requires |tilt| == NO_TILT_COLORS && 0 <= i < |advs|
    requires forall a :: a in advs ==> Deliverable(a)
    ensures Deliverable(advs[i])
    ensures ScanTilt(tilt, advs[..i + 1], now, wall) == HeardTilt(ScanTilt(tilt, advs[..i], now, wall), advs[i], now, wall)
    ensures ScanTable(table, advs[..i + 1], parse, now, wall) == HeardTable(ScanTable(table, advs[..i], parse, now, wall), advs[i], parse, now, wall)
    ensures ScanQueue(queue, advs[..i + 1]) == HeardQueue(ScanQueue(queue, advs[..i]), advs[i])
  {
    assert advs[i] in advs;
    assert advs[..i + 1][..i] == advs[..i];
  }

  /** The callbacks for a single advertisement are that advertisement's `onResult`. */
  lemma ScanOne(table: seq<GravitymonData>, queue: seq<BleAddress>, adv: Advertisement, parse: string -> Parse, now: u32, wall: Option<WallClock>)
    requires Deliverable(adv)
    ensures ScanTable(table, [adv], parse, now, wall) == HeardTable(table, adv, parse, now, wall)
    ensures ScanQueue(queue, [adv]) == HeardQueue(queue, adv)
  {
    assert [adv][..0] == [];
  }

  /** A heard GravityMon iBeacon is still marked updated once the connect queue is drained. */
  lemma HeardIBeaconSurvivesDrain(table: seq<GravitymonData>, queue: seq<BleAddress>, adv: Advertisement, parse: string -> Parse,
                                  env: nat -> ConnectScenario, now: u32, wall: Option<WallClock>)
    requires Route(adv) == [ToGravitymonIBeacon]
    requires FindSlot(Ids(table), DecodeGravitymonIBeacon(adv.manufacturerData).chipId) >= 0
    ensures Deliverable(adv)
    ensures var k := FindSlot(Ids(table), DecodeGravitymonIBeacon(adv.manufacturerData).chipId);
      DrainQueue(ScanTable(table, [adv], parse, now, wall), ScanQueue(queue, [adv]), env, 0, now, wall)[k].updated
  {
    var k := FindSlot(Ids(table), DecodeGravitymonIBeacon(adv.manufacturerData).chipId);
    HeardIBeaconStored(table, adv, parse, now, wall);
    ScanOne(table, queue, adv, parse, now, wall);
    DrainKeepsUpdated(HeardTable(table, adv, parse, now, wall), HeardQueue(queue, adv), env, 0, now, wall, k);
  }

  /** The sessions of `waitForScan` never clear an `updated` flag. */
  lemma {:induction false} DrainKeepsUpdated(table: seq<GravitymonData>, queue: seq<BleAddress>, env: nat -> ConnectScenario, k: nat, now: u32, wall: Option<WallClock>, i: int)
    requires 0 <= i < |table| && table[i].updated
    ensures DrainQueue(table, queue, env, k, now, wall)[i].updated
    decreases |queue|
  {
    if queue != [] {
      var t := ApplySession(table, queue[0], env(k), now, wall);
      assert t[i].updated;
      DrainKeepsUpdated(t, queue[1..], env, k + 1, now, wall, i);
    }
  }

  class BleScanner {
    var scanTime: int
    var activeScan: bool
    /** `_bleScan != nullptr`: `init` has run. */
    var hasScanner: bool
    /** `_bleScan->isScanning()`. */
    var scanning: bool
    const tilt: array<TiltData>
    const gravitymon: array<GravitymonData>
    /** `_doConnect`, front first. */
    var doConnect: seq<BleAddress>

    ghost predicate Valid()
      reads this, gravitymon
    {
      && tilt.Length == NO_TILT_COLORS
      && gravitymon.Length == NO_GRAVITYMON
      && WellFormed(Ids(gravitymon[..]))
    }

    constructor()
      ensures Valid() && fresh(tilt) && fresh(gravitymon)
      ensures scanTime == 5 && !activeScan && !hasScanner && !scanning && doConnect == []
      ensures forall i :: 0 <= i < tilt.Length ==> tilt[i] == EMPTY_TILT
      ensures forall i :: 0 <= i < gravitymon.Length ==> gravitymon[i] == EMPTY_GRAVITYMON
    {
      scanTime := 5;
      activeScan := false;
      hasScanner := false;
      scanning := false;
      tilt := new TiltData[NO_TILT_COLORS](_ => EMPTY_TILT);
      gravitymon := new GravitymonData[NO_GRAVITYMON](_ => EMPTY_GRAVITYMON);
      doConnect := [];
      new;
      EmptyTableWellFormed(Ids(gravitymon[..]));
    }

    method SetScanTime(t: int)
      modifies this`scanTime
      ensures scanTime == t
    {
      scanTime := t;
    }

    method SetAllowActiveScan(active: bool)
      modifies this`activeScan
      ensures activeScan == active
    {
      activeScan := active;
    }

    /**
     * `scan`: false without a scanner; true and nothing changed while a scan
     * runs; otherwise every record's `updated` flag is cleared and the scan is
     * started, the result being whether it started.
     */
    method Scan(startOk: bool) returns (ok: bool)
      requires Valid()
      modifies this`scanning, tilt, gravitymon
      ensures Valid()
      ensures !hasScanner ==> !ok && scanning == old(scanning)
      ensures !(hasScanner && !old(scanning)) ==> unchanged(tilt) && unchanged(gravitymon)
      ensures hasScanner && old(scanning) ==> ok && scanning
      ensures hasScanner && !old(scanning) ==>
        && ok == startOk && scanning == startOk
        && tilt[..] == ClearTilt(old(tilt[..]))
        && gravitymon[..] == ClearGravitymon(old(gravitymon[..]))
    {
      if !hasScanner {
        return false;
      }
      if scanning {
        return true;
      }
      for i := 0 to NO_TILT_COLORS
        invariant tilt[..i] == ClearTilt(old(tilt[..]))[..i]
        invariant tilt[i..] == old(tilt[..])[i..]
        invariant unchanged(gravitymon)
      {
        tilt[i] := tilt[i].(updated := false);
      }
      for i := 0 to NO_GRAVITYMON
        invariant gravitymon[..i] == ClearGravitymon(old(gravitymon[..]))[..i]
        invariant gravitymon[i..] == old(gravitymon[..])[i..]
        invariant tilt[..] == ClearTilt(old(tilt[..]))
      {
        gravitymon[i] := gravitymon[i].(updated := false);
      }
      ClearGravitymonKeepsIds(old(gravitymon[..]));
      scanning := startOk;
      ok := startOk;
    }

    /** `init`: the scanner exists, then a first `scan`. */
    method Init(startOk: bool) returns (ok: bool)
      requires Valid()
      modifies this`hasScanner, this`scanning, tilt, gravitymon
      ensures Valid() && hasScanner
      ensures !old(scanning) ==> ok == startOk && scanning == startOk
      ensures !old(scanning) ==> tilt[..] == ClearTilt(old(tilt[..]))
      ensures !old(scanning) ==> gravitymon[..] == ClearGravitymon(old(gravitymon[..]))
      ensures old(scanning) ==> ok && scanning && unchanged(tilt) && unchanged(gravitymon)
    {
      hasScanner := true;
      ok := Scan(startOk);
    }

    /**
     * `proccesTiltBeacon`: decode the frame and, when it is a Tilt, store the
     * reading in that colour's slot; the colour (or `None`) is returned.
     */
    method ProcessTiltBeacon(data: seq<byte>, rssi: int, now: u32, wall: Option<WallClock>) returns (color: TiltColor)
      requires Valid() && |data| >= 4
      modifies tilt
      ensures color == TiltResult(data)
      ensures color == TiltColor.None ==> unchanged(tilt)
      ensures color != TiltColor.None ==>
        tilt[..] == old(tilt[..])[color.Value() := StoreTilt(old(tilt[color.Value()]), DecodeTilt(data).value, rssi, now, wall)]
    {
      PreambleBytes(data, TILT_PREAMBLE);
      if data[0] != 0x4c || data[1] != 0x00 || data[2] != 0x02 || data[3] != 0x15 {
        return TiltColor.None;
      }
      var colorHex, tempHex, gravityHex, txPowerHex := TiltHexFields(data);
      color := UuidToTiltColor(colorHex);
      if color == TiltColor.None {
        return;
      }
      ParseHexOfHexString(Window(data, 20, 22));
      ParseHexOfHexString(Window(data, 22, 24));
      ParseHexOfHexString(Window(data, 24, 25));
      var temp := ParseHex(tempHex);
      var gravity := ParseHex(gravityHex);
      var txPower := ParseHex(txPowerHex);
      var gravityFactor := 1000.0;
      var tempFactor := 1.0;
      if gravity >= 5000 {
        gravityFactor := 10000.0;
        tempFactor := 10.0;
      }
      var reading := TiltReading(color, temp as real / tempFactor, gravity as real / gravityFactor, txPower);
      assert DecodeTilt(data) == Some(reading);
      var k := color.Value();
      tilt[k] := StoreTilt(tilt[k], reading, rssi, now, wall);
    }

    /** Store a GravityMon reading under `id` in the slot `findGravitymonId` picks. */
    method Store(id: string, write: GravitymonData -> GravitymonData) returns (idx: int)
      requires Valid()
      requires forall d :: write(d).points.id == id
      modifies gravitymon
      ensures Valid()
      ensures idx == FindSlot(Ids(old(gravitymon[..])), id)
      ensures gravitymon[..] == Upsert(old(gravitymon[..]), id, write)
    {
      UpsertKeepsTableWellFormed(gravitymon[..], id, write);
      idx := FindGravitymonId(gravitymon, id);
      if idx >= 0 {
        gravitymon[idx] := write(gravitymon[idx]);
      }
    }

    /** `proccesGravitymonBeacon`: decode the iBeacon frame and store it as a "Beacon" reading. */
    method ProcessGravitymonBeacon(data: seq<byte>, address: BleAddress, now: u32, wall: Option<WallClock>)
      requires Valid() && |data| >= 24
      modifies gravitymon
      ensures Valid()
      ensures var r := DecodeGravitymonIBeacon(data);
        gravitymon[..] == Upsert(old(gravitymon[..]), r.chipId, BeaconWrite(r, address, Beacon, now, wall))
    {
      var r := DecodeGravitymonIBeacon(data);
      var _ := Store(r.chipId, BeaconWrite(r, address, Beacon, now, wall));
    }

    /** `processGravitymonEddystoneBeacon`: decode the Eddystone frame and store it as an "EddyStone" reading. */
    method ProcessGravitymonEddystoneBeacon(address: BleAddress, payload: seq<byte>, now: u32, wall: Option<WallClock>)
      requires Valid() && |payload| >= EDDYSTONE_DATA_OFFSET + 14
      modifies gravitymon
      ensures Valid()
      ensures var r := DecodeGravitymonEddystone(payload);
        gravitymon[..] == Upsert(old(gravitymon[..]), r.chipId, BeaconWrite(r, address, EddyStone, now, wall))
    {
      var r := DecodeGravitymonEddystone(payload);
      var _ := Store(r.chipId, BeaconWrite(r, address, EddyStone, now, wall));
    }

    /** `processGravitymonExtBeacon`: a JSON advertisement that does not parse is dropped. */
    method ProcessGravitymonExtBeacon(address: BleAddress, doc: Parse, now: u32, wall: Option<WallClock>)
      requires Valid()
      modifies gravitymon
      ensures Valid()
      ensures doc.ParseError? ==> unchanged(gravitymon)
      ensures doc.Parsed? ==>
        gravitymon[..] == Upsert(old(gravitymon[..]), AsString(doc.obj, PARAM_BLE_ID),
                                 JsonWrite(doc.obj, ExtBeaconTempC(doc.obj), address, now, wall))
    {
      if doc.ParseError? {
        return;
      }
      var obj := doc.obj;
      var _ := Store(AsString(obj, PARAM_BLE_ID), JsonWrite(obj, ExtBeaconTempC(obj), address, now, wall));
    }

    /** `processGravitymonDevice`: queue the device for a connect after the scan. */
    method ProcessGravitymonDevice(address: BleAddress)
      modifies this`doConnect
      ensures doConnect == old(doConnect) + [address]
    {
      doConnect := doConnect + [address];
    }

    /**
     * `connectGravitymonDevice`: obtain a client (the peer's own, a
     * disconnected one, or a new one below the cap), make sure it is
     * connected, read the characteristic and store the JSON it holds. The
     * result and the client calls made are those of `ConnectSession`; a full
     * registry does not make the call fail.
     */
    method ConnectGravitymonDevice(address: BleAddress, s: ConnectScenario, now: u32, wall: Option<WallClock>)
      returns (ok: bool, calls: seq<ClientCall>)
      requires Valid()
      modifies gravitymon
      ensures Valid()
      ensures ok == ConnectSession(s).ok && calls == ConnectSession(s).calls
      ensures gravitymon[..] == ApplySession(old(gravitymon[..]), address, s, now, wall)
    {
      var o := ReadSession(s);
      if o.reading.Some? {
        var obj := o.reading.value;
        var _ := Store(AsString(obj, PARAM_BLE_ID), JsonWrite(obj, ConnectTempC(obj), address, now, wall));
      }
      ok, calls := o.ok, o.calls;
    }

    /**
     * `waitForScan`: false without a scanner; otherwise the scan runs to its
     * end and every queued device is tried once, front first, and popped
     * whatever the outcome.
     */
    method WaitForScan(env: nat -> ConnectScenario, now: u32, wall: Option<WallClock>) returns (ok: bool)
      requires Valid()
      modifies this`scanning, this`doConnect, gravitymon
      ensures Valid()
      ensures ok == hasScanner
      ensures !hasScanner ==> unchanged(gravitymon) && doConnect == old(doConnect) && scanning == old(scanning)
      ensures hasScanner ==> !scanning && doConnect == []
      ensures hasScanner ==> gravitymon[..] == DrainQueue(old(gravitymon[..]), old(doConnect), env, 0, now, wall)
    {
      if !hasScanner {
        return false;
      }
      scanning := false;
      ghost var queue := doConnect;
      var k := 0;
      while doConnect != []
        invariant Valid() && hasScanner && !scanning
        invariant 0 <= k <= |queue| && doConnect == queue[k..]
        invariant DrainQueue(old(gravitymon[..]), queue, env, 0, now, wall)
               == DrainQueue(gravitymon[..], doConnect, env, k, now, wall)
        decreases |doConnect|
      {
        DrainStep(gravitymon[..], doConnect, env, k, now, wall);
        var _, _ := ConnectGravitymonDevice(doConnect[0], env(k), now, wall);
        assert queue[k..][1..] == queue[k + 1..];
        doConnect := doConnect[1..];
        k := k + 1;
      }
      return true;
    }

    /**
     * The Eddystone test at the head of the GravityMon branch of `onResult`:
     * the outer loop's body is the inner search, so it repeats n times, to
     * the same flag.
     */
    static method EddystoneSearch(adv: Advertisement) returns (eddyStone: bool)
      ensures eddyStone <==> HasEddystone(adv)
    {
      eddyStone := false;
      var n := |adv.serviceData|;
      for i := 0 to n
        invariant i > 0 ==> (eddyStone <==> HasEddystone(adv))
        invariant i == 0 ==> !eddyStone
      {
        for j := 0 to n
          invariant eddyStone ==> HasEddystone(adv)
          invariant (exists m :: 0 <= m < j && adv.serviceData[m].uuid == EDDYSTONE_UUID) ==> eddyStone
        {
          if adv.serviceData[j].uuid == EDDYSTONE_UUID {
            eddyStone := true;
          }
        }
      }
    }

    /**
     * `onResult`: route one advertisement. A device named "gravitymon" is an
     * Eddystone beacon when any service-data UUID is 0xfeaa, an advertised-JSON
     * beacon when its 0x1801 service data is the marker, and otherwise queued
     * for a connect; any other device is checked against both iBeacon
     * preambles.
     */
    method OnResult(adv: Advertisement, parse: string -> Parse, now: u32, wall: Option<WallClock>)
      requires Valid()
      requires Deliverable(adv)
      modifies this`doConnect, tilt, gravitymon
      ensures Valid()
      ensures tilt[..] == HeardTilt(old(tilt[..]), adv, now, wall)
      ensures gravitymon[..] == HeardTable(old(gravitymon[..]), adv, parse, now, wall)
      ensures doConnect == HeardQueue(old(doConnect), adv)
      ensures Route(adv) != [ToConnectQueue] ==> doConnect == old(doConnect)
      ensures Route(adv) == [ToConnectQueue] ==> doConnect == old(doConnect) + [adv.address]
      ensures Route(adv) != [ToTiltIBeacon] ==> unchanged(tilt)
      ensures Route(adv) !in {[ToEddystone], [ToExtBeacon], [ToGravitymonIBeacon]} ==> unchanged(gravitymon)
      ensures Route(adv) == [ToEddystone] ==>
        var r := DecodeGravitymonEddystone(adv.payload);
        gravitymon[..] == Upsert(old(gravitymon[..]), r.chipId, BeaconWrite(r, adv.address, EddyStone, now, wall))
      ensures Route(adv) == [ToExtBeacon] ==>
        var doc := parse(ServiceDataFor(adv.serviceData, SERV_UUID));
        && (doc.ParseError? ==> unchanged(gravitymon))
        && (doc.Parsed? ==>
              gravitymon[..] == Upsert(old(gravitymon[..]), AsString(doc.obj, PARAM_BLE_ID),
                                       JsonWrite(doc.obj, ExtBeaconTempC(doc.obj), adv.address, now, wall)))
      ensures Route(adv) == [ToTiltIBeacon] ==>
        var c := TiltResult(adv.manufacturerData);
        && (c == TiltColor.None ==> unchanged(tilt))
        && (c != TiltColor.None ==>
              tilt[..] == old(tilt[..])[c.Value() := StoreTilt(old(tilt[c.Value()]), DecodeTilt(adv.manufacturerData).value, adv.rssi, now, wall)])
      ensures Route(adv) == [ToGravitymonIBeacon] ==>
        var r := DecodeGravitymonIBeacon(adv.manufacturerData);
        gravitymon[..] == Upsert(old(gravitymon[..]), r.chipId, BeaconWrite(r, adv.address, Beacon, now, wall))
    {
      if adv.name == GRAVITYMON_NAME {
        var eddyStone := EddystoneSearch(adv);
        if eddyStone {
          ProcessGravitymonEddystoneBeacon(adv.address, adv.payload, now, wall);
        } else if ServiceDataFor(adv.serviceData, SERV2_UUID) == EXT_BEACON_MARKER {
          ProcessGravitymonExtBeacon(adv.address, parse(ServiceDataFor(adv.serviceData, SERV_UUID)), now, wall);
        } else {
          ProcessGravitymonDevice(adv.address);
        }
        return;
      }
      var mfr := adv.manufacturerData;
      ghost var route := Route(adv);
      if |mfr| >= 24 {
        PreambleBytes(mfr, TILT_PREAMBLE);
        if mfr[0] == 0x4c && mfr[1] == 0x00 && mfr[2] == 0x02 && mfr[3] == 0x15 {
          assert route == [ToTiltIBeacon];
          var _ := ProcessTiltBeacon(mfr, adv.rssi, now, wall);
        }
      }
      assert tilt[..] == HeardTilt(old(tilt[..]), adv, now, wall);
      if |mfr| >= 24 {
        PreambleBytes(mfr, GRAVITYMON_PREAMBLE);
        if mfr[0] == 0x4c && mfr[1] == 0x00 && mfr[2] == 0x03 && mfr[3] == 0x15 {
          assert route == [ToGravitymonIBeacon];
          ProcessGravitymonBeacon(mfr, adv.address, now, wall);
        }
      }
    }

    /**
     * The BLE stack's side of a running scan: `onResult` for each
     * advertisement on air, in the order heard.
     */
    method HearAll(advs: seq<Advertisement>, parse: string -> Parse, now: u32, wall: Option<WallClock>)
      requires Valid()
      requires forall a :: a in advs ==> Deliverable(a)
      modifies this`doConnect, tilt, gravitymon
      ensures Valid()
      ensures tilt[..] == ScanTilt(old(tilt[..]), advs, now, wall)
      ensures gravitymon[..] == ScanTable(old(gravitymon[..]), advs, parse, now, wall)
      ensures doConnect == ScanQueue(old(doConnect), advs)
    {
      ghost var t0, g0, q0 := tilt[..], gravitymon[..], doConnect;
      for i := 0 to |advs|
        invariant Valid()
        invariant tilt[..] == ScanTilt(t0, advs[..i], now, wall)
        invariant gravitymon[..] == ScanTable(g0, advs[..i], parse, now, wall)
        invariant doConnect == ScanQueue(q0, advs[..i])
      {
        ScanStep(t0, g0, q0, advs, i, parse, now, wall);
        OnResult(advs[i], parse, now, wall);
      }
      assert advs[..|advs|] == advs;
    }

    /**
     * `scan`, then the callbacks of the BLE stack for the advertisements
     * `advs` on air: all of them when a scan is running afterwards, none
     * otherwise. `heard` is what reached `onResult`.
     */
    method ScanHearing(startOk: bool, advs: seq<Advertisement>, parse: string -> Parse, now: u32, wall: Option<WallClock>)
      returns (heard: seq<Advertisement>)
      requires Valid()
      requires forall a :: a in advs ==> Deliverable(a)
      modifies this`scanning, this`doConnect, tilt, gravitymon
      ensures Valid()
      ensures heard == Heard(hasScanner, old(scanning), startOk, advs)
      ensures scanning == (old(scanning) || (hasScanner && startOk))
      ensures var cleared := hasScanner && !old(scanning);
        && tilt[..] == ScanTilt(if cleared then ClearTilt(old(tilt[..])) else old(tilt[..]), heard, now, wall)
        && gravitymon[..] == ScanTable(if cleared then ClearGravitymon(old(gravitymon[..])) else old(gravitymon[..]),
                                       heard, parse, now, wall)
      ensures doConnect == ScanQueue(old(doConnect), heard)
    {
      var _ := Scan(startOk);
      ghost var cleared := hasScanner && !old(scanning);
      assert tilt[..] == if cleared then ClearTilt(old(tilt[..])) else old(tilt[..]);
      assert gravitymon[..] == if cleared then ClearGravitymon(old(gravitymon[..])) else old(gravitymon[..]);
      heard := if hasScanner && scanning then advs else [];
      assert heard == Heard(hasScanner, old(scanning), startOk, advs);
      HearAll(heard, parse, now, wall);
    }
  }
}
