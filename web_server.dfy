/**
 * The gateway's own web server (webserver.hpp/.cpp): the second GravityMon
 * table that readings posted over WiFi land in, the remote-post decoder, the
 * format-template upload, the push-test request/status/loop state machine
 * and the device listing of the status page.
 *
 * HTTP routing, authentication and response objects are outside the model:
 * a handler takes the parsed request body and returns what it sends back.
 */
module WebServer {
  import opened Wrappers
  import opened Units
  import opened JsonDoc
  import opened BleData
  import opened BeaconDecode
  import opened BleScanner
  import opened GatewayConfig
  import opened PushTarget

  // Request keys of the format and push-test handlers (names from the
  // shared resource header, which is not part of this model).
  const PARAM_FORMAT_POST: string := "http_post_format"
  const PARAM_FORMAT_POST2: string := "http_post2_format"
  const PARAM_FORMAT_GET: string := "http_get_format"
  const PARAM_FORMAT_INFLUXDB: string := "influxdb2_format"
  const PARAM_FORMAT_MQTT: string := "mqtt_format"
  const PARAM_PUSH_FORMAT: string := "push_format"

  /** The request key that carries the template of `t`. */
  function FormatKey(t: Templates): string
  {
    match t
    case TemplateHttp1 => PARAM_FORMAT_POST
    case TemplateHttp2 => PARAM_FORMAT_POST2
    case TemplateHttp3 => PARAM_FORMAT_GET
    case TemplateInflux => PARAM_FORMAT_INFLUXDB
    case TemplateMqtt => PARAM_FORMAT_MQTT
  }

  /** The five keys are distinct, so each names exactly one template. */
  lemma FormatKeyInjective(t: Templates, u: Templates)
    requires FormatKey(t) == FormatKey(u)
    ensures t == u
  {
  }

  // ---------------------------------------------------------- remote post

  /** The fields of a `/post` body, each defaulted when its key is absent. */
  datatype RemotePost = RemotePost(
    id: string, token: string, name: string, interval: int,
    temp: real, tempUnits: string, gravity: real, angle: real, battery: real, rssi: int)

  /** `obj.containsKey(key) ? obj[key].as<...>() : default`, for each value kind. */
  function TextOr(obj: JsonObject, key: string): string
  {
    if ContainsKey(obj, key) then AsString(obj, key) else ""
  }

  function RealOr(obj: JsonObject, key: string): real
  {
    if ContainsKey(obj, key) then AsFloat(obj, key) else 0.0
  }

  function IntOr(obj: JsonObject, key: string): int
  {
    if ContainsKey(obj, key) then AsInt(obj, key) else 0
  }

  /** The decode at the top of `webHandleRemotePost`. */
  function DecodeRemotePost(obj: JsonObject): (p: RemotePost)
    ensures !ContainsKey(obj, PARAM_BLE_ID) ==> p.id == ""
    ensures !ContainsKey(obj, PARAM_BLE_TOKEN) ==> p.token == ""
    ensures !ContainsKey(obj, PARAM_BLE_NAME) ==> p.name == ""
    ensures !ContainsKey(obj, PARAM_BLE_TEMP_UNITS) ==> p.tempUnits == ""
    ensures !ContainsKey(obj, PARAM_BLE_INTERVAL) ==> p.interval == 0
    ensures !ContainsKey(obj, PARAM_BLE_TEMPERATURE) ==> p.temp == 0.0
    ensures !ContainsKey(obj, PARAM_BLE_GRAVITY) ==> p.gravity == 0.0
    ensures !ContainsKey(obj, PARAM_BLE_ANGLE) ==> p.angle == 0.0
    ensures !ContainsKey(obj, PARAM_BLE_BATTERY) ==> p.battery == 0.0
    ensures !ContainsKey(obj, PARAM_BLE_RSSI) ==> p.rssi == 0
  {
    RemotePost(
      TextOr(obj, PARAM_BLE_ID), TextOr(obj, PARAM_BLE_TOKEN), TextOr(obj, PARAM_BLE_NAME),
      IntOr(obj, PARAM_BLE_INTERVAL), RealOr(obj, PARAM_BLE_TEMPERATURE), TextOr(obj, PARAM_BLE_TEMP_UNITS),
      RealOr(obj, PARAM_BLE_GRAVITY), RealOr(obj, PARAM_BLE_ANGLE), RealOr(obj, PARAM_BLE_BATTERY),
      IntOr(obj, PARAM_BLE_RSSI))
  }

  /** The stored temperature: as posted when the unit is "C", else converted from Fahrenheit. */
  function RemoteTempC(p: RemotePost): (c: real)
    ensures p.tempUnits == "C" ==> c == p.temp
    ensures p.tempUnits != "C" ==> CtoF(c) == p.temp
  {
    if p.tempUnits == "C" then p.temp else FtoC(p.temp)
  }

  /** The slot write of a post: every reading field overwritten, type "Http", then `setUpdated`. */
  function HttpWrite(p: RemotePost, now: u32, wall: Option<WallClock>): (w: GravitymonData -> GravitymonData)
    ensures forall d :: w(d).points.id == p.id && w(d).sourceType == Http
    ensures forall d :: w(d).updated && w(d).timeUpdated == now && w(d).timePushed == d.timePushed
    ensures forall d :: w(d).points.tempC == RemoteTempC(p) && w(d).points.battery == p.battery
    ensures forall d :: w(d).points.gravity == p.gravity && w(d).points.angle == p.angle
    ensures forall d :: w(d).points.rssi == p.rssi && w(d).points.interval == p.interval
    ensures forall d :: w(d).points.name == p.name && w(d).points.token == p.token
    ensures forall d :: w(d).address == d.address && w(d).points.txPower == d.points.txPower
  {
    (d: GravitymonData) => d.(points := GravitymonPoints(RemoteTempC(p), p.gravity, p.angle, p.battery, d.points.txPower,
                                       p.rssi, p.id, p.name, p.token, p.interval),
            sourceType := Http).SetUpdated(now, wall)
  }

  /** A full table of other devices ignores the post. */
  lemma FullTableIgnoresPost(table: seq<GravitymonData>, obj: JsonObject, now: u32, wall: Option<WallClock>)
    requires |table| == NO_GRAVITYMON
    requires forall i :: 0 <= i < |table| ==> table[i].points.id != "" && table[i].points.id != DecodeRemotePost(obj).id
    ensures var p := DecodeRemotePost(obj);
      FindSlot(Ids(table), p.id) == -1 && Upsert(table, p.id, HttpWrite(p, now, wall)) == table
  {
    FullTableRejects(Ids(table), DecodeRemotePost(obj).id);
  }

  /** A post for a device already in the table refreshes that device's slot and no other. */
  lemma PostRefreshesKnownDevice(table: seq<GravitymonData>, obj: JsonObject, now: u32, wall: Option<WallClock>, k: int)
    requires WellFormed(Ids(table))
    requires 0 <= k < |table| && table[k].points.id == DecodeRemotePost(obj).id != ""
    ensures var p := DecodeRemotePost(obj);
      Upsert(table, p.id, HttpWrite(p, now, wall)) == table[k := HttpWrite(p, now, wall)(table[k])]
  {
    KnownIdFound(Ids(table), DecodeRemotePost(obj).id, k);
  }

  // ------------------------------------------------------ format upload

  /**
   * `writeFile` for the template of `t` when the request carries it: empty
   * data removes the file (and counts as stored); other data is URL-decoded
   * and stored when the file opens.
   */
  function ApplyFormat(files: map<Templates, string>, obj: JsonObject, t: Templates,
                       canOpen: Templates -> bool, decode: string -> string): (r: map<Templates, string>)
    ensures forall u :: u != t ==> (u in r <==> u in files) && (u in r ==> r[u] == files[u])
  {
    if IsNull(obj, FormatKey(t)) then files
    else if AsString(obj, FormatKey(t)) == "" then files - {t}
    else if canOpen(t) then files[t := decode(AsString(obj, FormatKey(t)))]
    else files
  }

  /** Whether the write for `t` took place and returned true. */
  predicate FormatStored(obj: JsonObject, t: Templates, canOpen: Templates -> bool)
  {
    !IsNull(obj, FormatKey(t)) && (AsString(obj, FormatKey(t)) == "" || canOpen(t))
  }

  /** The template files after `webHandleConfigFormatWrite`: the five keys in order. */
  function FormatFiles(files: map<Templates, string>, obj: JsonObject,
                       canOpen: Templates -> bool, decode: string -> string): map<Templates, string>
  {
    var f1 := ApplyFormat(files, obj, TemplateHttp1, canOpen, decode);
    var f2 := ApplyFormat(f1, obj, TemplateHttp2, canOpen, decode);
    var f3 := ApplyFormat(f2, obj, TemplateHttp3, canOpen, decode);
    var f4 := ApplyFormat(f3, obj, TemplateInflux, canOpen, decode);
    ApplyFormat(f4, obj, TemplateMqtt, canOpen, decode)
  }

  /**
   * Each template's file is settled by its own key alone: absent keeps it,
   * empty removes it, a stored write holds the decoded text.
   */
  lemma FormatFilesPerTemplate(files: map<Templates, string>, obj: JsonObject,
                               canOpen: Templates -> bool, decode: string -> string, t: Templates)
    ensures var r := FormatFiles(files, obj, canOpen, decode);
      var data := AsString(obj, FormatKey(t));
      && (IsNull(obj, FormatKey(t)) || (data != "" && !canOpen(t)) ==>
            (t in r <==> t in files) && (t in r ==> r[t] == files[t]))
      && (!IsNull(obj, FormatKey(t)) && data == "" ==> t !in r)
      && (!IsNull(obj, FormatKey(t)) && data != "" && canOpen(t) ==> t in r && r[t] == decode(data))
  {
    var f1 := ApplyFormat(files, obj, TemplateHttp1, canOpen, decode);
    var f2 := ApplyFormat(f1, obj, TemplateHttp2, canOpen, decode);
    var f3 := ApplyFormat(f2, obj, TemplateHttp3, canOpen, decode);
    var f4 := ApplyFormat(f3, obj, TemplateInflux, canOpen, decode);
    match t
    case TemplateHttp1 =>
    case TemplateHttp2 =>
    case TemplateHttp3 =>
    case TemplateInflux =>
    case TemplateMqtt =>
  }

  /** The upload reports success exactly when some template was stored or removed. */
  lemma FormatSuccessIff(obj: JsonObject, canOpen: Templates -> bool)
    ensures (exists t :: FormatStored(obj, t, canOpen)) <==>
      FormatStored(obj, TemplateHttp1, canOpen) || FormatStored(obj, TemplateHttp2, canOpen) ||
      FormatStored(obj, TemplateHttp3, canOpen) || FormatStored(obj, TemplateInflux, canOpen) ||
      FormatStored(obj, TemplateMqtt, canOpen)
  {
    if t :| FormatStored(obj, t, canOpen) {
      match t
      case TemplateHttp1 =>
      case TemplateHttp2 =>
      case TemplateHttp3 =>
      case TemplateInflux =>
      case TemplateMqtt =>
    }
  }

  // ------------------------------------------------------------ push test

  /** The status message of `webHandleTestPushStatus`. */
  function PushTestMessage(task: bool, lastSuccess: bool, target: string): string
  {
    if task then "Running push tests for " + target
    else if !task && !lastSuccess then "No push test has been started"
    else "Push test for " + target + " is complete"
  }

  /** The request key naming each sink in a push test. */
  function SinkKey(s: Sink): string
  {
    FormatKey(TemplateOf(s))
  }

  /** The `if`/`else if` chain of `loop`: the first sink named by the target and enabled. */
  function TestSink(target: string, t: Targets): (s: Option<Sink>)
    ensures s.Some? ==> Enabled(t, s.value) && SinkKey(s.value) == target
  {
    if target == PARAM_FORMAT_POST && t.httpPost then Some(PostSink)
    else if target == PARAM_FORMAT_POST2 && t.httpPost2 then Some(Post2Sink)
    else if target == PARAM_FORMAT_GET && t.httpGet then Some(GetSink)
    else if target == PARAM_FORMAT_INFLUXDB && t.influxDb2 then Some(InfluxSink)
    else if target == PARAM_FORMAT_MQTT && t.mqtt then Some(MqttSink)
    else Option.None
  }

  /** Each sink is named by the key of its own template. */
  lemma SinkKeyInjective(s: Sink, k: Sink)
    requires SinkKey(s) == SinkKey(k)
    ensures s == k
  {
    FormatKeyInjective(TemplateOf(s), TemplateOf(k));
  }

  /** A push test runs exactly the enabled sink the target names, or none. */
  lemma TestSinkIff(target: string, t: Targets, s: Sink)
    ensures TestSink(target, t) == Some(s) <==> Enabled(t, s) && SinkKey(s) == target
  {
    if Enabled(t, s) && SinkKey(s) == target {
      var r := TestSink(target, t);
      if r.Some? {
        SinkKeyInjective(r.value, s);
      } else {
        match s
        case PostSink =>
        case Post2Sink =>
        case GetSink =>
        case InfluxSink =>
        case MqttSink =>
      }
    }
  }

  /** The fixed reading a push test renders: angle 45, SG 1.030, 22.1 C, 4.12 V, 900 s. */
  function TestReading(v: PushSettings, deviceId: string): (r: PushReading)
    ensures r.token == v.token && r.name == v.mdns && r.id == deviceId
  {
    PushReading(45.0, 1.030, 22.1, 4.12, 900, deviceId, v.token, v.mdns)
  }

  /** What a push test sends: the named sink's payload for the test reading, or nothing. */
  function TestDelivery(target: string, t: Targets, v: PushSettings, stored: Templates -> Option<string>,
                        deviceId: string, wifiRssi: int, build: BuildInfo): Option<Delivery>
  {
    match TestSink(target, t)
    case None => Option.None
    case Some(s) => Some(Render(s, stored, Populate(map[], v, TestReading(v, deviceId), wifiRssi, build)))
  }

  /** What the push transport reports after a test (`getLastSuccess`, `getLastCode`). */
  datatype PushOutcome = PushOutcome(success: bool, code: int)

  // --------------------------------------------------------- device list

  /** One device of the status page. */
  datatype DeviceEntry = DeviceEntry(device: string, gravity: real, tempC: real,
                                     updateAge: nat, pushAge: nat, endpoint: string)

  function Entry(d: GravitymonData, endpoint: string, now: u32): DeviceEntry
  {
    DeviceEntry(d.points.id, d.points.gravity, d.points.tempC, d.UpdateAge(now), d.PushAge(now), endpoint)
  }

  /** The slots of `table` with a non-empty id, in index order. */
  function Listed(table: seq<GravitymonData>, endpoint: string, now: u32): (ds: seq<DeviceEntry>)
    ensures |ds| <= |table|
    ensures forall e :: e in ds ==> e.device != "" && e.endpoint == endpoint
    decreases |table|
  {
    if table == [] then []
    else
      var last := table[|table| - 1];
      Listed(table[..|table| - 1], endpoint, now) + (if last.points.id != "" then [Entry(last, endpoint, now)] else [])
  }

  /** Every occupied slot is listed, and every listed entry is an occupied slot. */
  lemma {:induction false} ListedIff(table: seq<GravitymonData>, endpoint: string, now: u32, e: DeviceEntry)
    ensures e in Listed(table, endpoint, now) <==>
      exists i :: 0 <= i < |table| && table[i].points.id != "" && e == Entry(table[i], endpoint, now)
    decreases |table|
  {
    if table != [] {
      var init := table[..|table| - 1];
      ListedIff(init, endpoint, now, e);
      if e in Listed(table, endpoint, now) && e !in Listed(init, endpoint, now) {
        assert table[|table| - 1].points.id != "" && e == Entry(table[|table| - 1], endpoint, now);
      }
      if i :| 0 <= i < |table| && table[i].points.id != "" && e == Entry(table[i], endpoint, now) {
        if i < |table| - 1 {
          assert init[i] == table[i];
        }
      }
    }
  }

  /** On the status page the BLE devices come first, then the WiFi ones. */
  lemma BleBeforeWifi(ble: seq<GravitymonData>, http: seq<GravitymonData>, now: u32)
    ensures var ds := Listed(ble, "ble", now) + Listed(http, "wifi", now);
      forall i, j :: 0 <= i < j < |ds| && ds[j].endpoint == "ble" ==> ds[i].endpoint == "ble"
  {
    var a := Listed(ble, "ble", now);
    var ds := a + Listed(http, "wifi", now);
    forall i, j | 0 <= i < j < |ds| && ds[j].endpoint == "ble"
      ensures ds[i].endpoint == "ble"
    {
      assert ds[i] in a;
    }
  }

  // ------------------------------------------------------------- server

  class GravmonGatewayWebServer {
    var pushTestTask: bool
    var pushTestTarget: string
    var pushTestLastCode: int
    var pushTestLastSuccess: bool
    var pushTestEnabled: bool
    /** The HTTP table, separate from the BLE scanner's. */
    const gravitymon: array<GravitymonData>
    /** The template files in flash, by template. */
    var templates: map<Templates, string>

    ghost predicate Valid()
      reads this, gravitymon
    {
      && gravitymon.Length == NO_GRAVITYMON
      && WellFormed(Ids(gravitymon[..]))
    }

    /** A fresh server over the template files found in flash; the flags start cleared. */
    constructor(files: map<Templates, string>)
      ensures Valid() && fresh(gravitymon)
      ensures forall i :: 0 <= i < gravitymon.Length ==> gravitymon[i] == EMPTY_GRAVITYMON
      ensures !pushTestTask && !pushTestEnabled && !pushTestLastSuccess && pushTestLastCode == 0
      ensures pushTestTarget == "" && templates == files
    {
      pushTestTask := false;
      pushTestTarget := "";
      pushTestLastCode := 0;
      pushTestLastSuccess := false;
      pushTestEnabled := false;
      gravitymon := new GravitymonData[NO_GRAVITYMON](_ => EMPTY_GRAVITYMON);
      templates := files;
      new;
      EmptyTableWellFormed(Ids(gravitymon[..]));
    }

    /** The template files as `getTemplate` finds them. */
    function Stored(): Templates -> Option<string>
      reads this`templates
    {
      var files := templates;
      t => if t in files then Some(files[t]) else Option.None
    }

    /** `findGravitymonId` over the HTTP table. */
    method FindGravitymonId(id: string) returns (idx: int)
      requires Valid()
      ensures idx == FindSlot(Ids(gravitymon[..]), id)
      ensures -1 <= idx < NO_GRAVITYMON as int
      ensures 0 <= idx ==> gravitymon[idx].points.id == id || gravitymon[idx].points.id == ""
    {
      idx := BleData.FindGravitymonId(gravitymon, id);
    }

    /**
     * `webHandleRemotePost`: decode with defaults, and when a slot is found
     * overwrite its reading, mark it "Http" and updated, and answer 200; 422
     * is sent on every call.
     */
    method HandleRemotePost(obj: JsonObject, now: u32, wall: Option<WallClock>) returns (statuses: seq<int>)
      requires Valid()
      modifies gravitymon
      ensures Valid()
      ensures var p := DecodeRemotePost(obj);
        gravitymon[..] == Upsert(old(gravitymon[..]), p.id, HttpWrite(p, now, wall))
      ensures statuses == if FindSlot(Ids(old(gravitymon[..])), DecodeRemotePost(obj).id) >= 0 then [200, 422] else [422]
    {
      var p := DecodeRemotePost(obj);
      UpsertKeepsTableWellFormed(gravitymon[..], p.id, HttpWrite(p, now, wall));
      statuses := [];
      var idx := FindGravitymonId(p.id);
      if idx >= 0 {
        var data := gravitymon[idx];
        var tempC := if p.tempUnits == "C" then p.temp else FtoC(p.temp);
        data := data.(points := data.points.(tempC := tempC, gravity := p.gravity, angle := p.angle,
                                              battery := p.battery, id := p.id, name := p.name,
                                              interval := p.interval, token := p.token, rssi := p.rssi));
        data := data.(sourceType := Http);
        gravitymon[idx] := data.SetUpdated(now, wall);
        statuses := statuses + [200];
      }
      statuses := statuses + [422];
    }

    /** `writeFile`: empty data removes the file and succeeds; otherwise the decoded data is stored if the file opens. */
    method WriteFile(t: Templates, data: string, canOpen: bool, decode: string -> string) returns (ok: bool)
      modifies this`templates
      ensures data == "" ==> ok && templates == old(templates) - {t}
      ensures data != "" ==> ok == canOpen
      ensures data != "" ==> templates == if canOpen then old(templates)[t := decode(data)] else old(templates)
    {
      if |data| > 0 {
        var decoded := decode(data);
        if canOpen {
          templates := templates[t := decoded];
          return true;
        }
      } else {
        templates := templates - {t};
        return true;
      }
      return false;
    }

    /** One `if (!obj[key].isNull()) success += writeFile(...)` step. */
    method WriteIfGiven(obj: JsonObject, t: Templates, canOpen: Templates -> bool, decode: string -> string)
      returns (stored: bool)
      modifies this`templates
      ensures templates == ApplyFormat(old(templates), obj, t, canOpen, decode)
      ensures stored == FormatStored(obj, t, canOpen)
    {
      stored := false;
      if !IsNull(obj, FormatKey(t)) {
        stored := WriteFile(t, AsString(obj, FormatKey(t)), canOpen(t), decode);
      }
    }

    /**
     * `webHandleConfigFormatWrite`: each template key present is written;
     * the answer is success exactly when at least one write returned true.
     */
    method HandleConfigFormatWrite(obj: JsonObject, canOpen: Templates -> bool, decode: string -> string)
      returns (success: bool)
      modifies this`templates
      ensures templates == FormatFiles(old(templates), obj, canOpen, decode)
      ensures success <==> exists t :: FormatStored(obj, t, canOpen)
    {
      var count := 0;
      var s := WriteIfGiven(obj, TemplateHttp1, canOpen, decode);
      count := count + if s then 1 else 0;
      s := WriteIfGiven(obj, TemplateHttp2, canOpen, decode);
      count := count + if s then 1 else 0;
      s := WriteIfGiven(obj, TemplateHttp3, canOpen, decode);
      count := count + if s then 1 else 0;
      s := WriteIfGiven(obj, TemplateInflux, canOpen, decode);
      count := count + if s then 1 else 0;
      s := WriteIfGiven(obj, TemplateMqtt, canOpen, decode);
      count := count + if s then 1 else 0;
      FormatSuccessIff(obj, canOpen);
      success := count > 0;
    }

    /** `webHandleTestPush`: schedule a test of the named target and clear the last result. */
    method HandleTestPush(obj: JsonObject) returns (message: string)
      modifies this`pushTestTarget, this`pushTestTask, this`pushTestEnabled, this`pushTestLastSuccess, this`pushTestLastCode
      ensures pushTestTarget == AsString(obj, PARAM_PUSH_FORMAT)
      ensures pushTestTask && !pushTestEnabled && !pushTestLastSuccess && pushTestLastCode == 0
      ensures message == "Scheduled test for " + pushTestTarget
    {
      pushTestTarget := AsString(obj, PARAM_PUSH_FORMAT);
      pushTestTask := true;
      pushTestEnabled := false;
      pushTestLastSuccess := false;
      pushTestLastCode := 0;
      message := "Scheduled test for " + pushTestTarget;
    }

    /** `webHandleTestPushStatus`: the flags and the message they select. */
    method HandleTestPushStatus() returns (status: bool, success: bool, message: string, enabled: bool, code: int)
      ensures status == pushTestTask && success == pushTestLastSuccess
      ensures enabled == pushTestEnabled && code == pushTestLastCode
      ensures message == PushTestMessage(pushTestTask, pushTestLastSuccess, pushTestTarget)
    {
      var s;
      if pushTestTask {
        s := "Running push tests for " + pushTestTarget;
      } else if !pushTestTask && !pushTestLastSuccess {
        s := "No push test has been started";
      } else {
        s := "Push test for " + pushTestTarget + " is complete";
      }
      return pushTestTask, pushTestLastSuccess, s, pushTestEnabled, pushTestLastCode;
    }

    /** Render the fixed test reading for one sink, as `loop` does through the engine and `getTemplate`. */
    method RunTest(cfg: GravmonGatewayConfig, sink: Sink, deviceId: string, wifiRssi: int, build: BuildInfo)
      returns (d: Delivery)
      ensures d == Render(sink, Stored(), Populate(map[], cfg.PushView(), TestReading(cfg.PushView(), deviceId), wifiRssi, build))
    {
      var engine := new TemplatingEngine();
      var push := new GravmonGatewayPush();
      push.SetupTemplateEngine(engine, cfg, TestReading(cfg.PushView(), deviceId), wifiRssi, build);
      var sent := push.Send([], sink, Stored(), engine.vals);
      d := sent[0];
    }

    /**
     * The push-test part of `loop`: when a test is scheduled, set up the
     * engine with the fixed test reading, send to the one target the request
     * named if it is enabled, take over the transport's result and clear the
     * task flag. `deviceId` is the configured device id; `outcome` is what
     * the transport reports afterwards.
     */
    method Loop(cfg: GravmonGatewayConfig, deviceId: string, wifiRssi: int, build: BuildInfo, outcome: PushOutcome)
      returns (tested: Option<Delivery>)
      requires Valid()
      modifies this`pushTestTask, this`pushTestEnabled, this`pushTestLastSuccess, this`pushTestLastCode
      ensures Valid()
      ensures !old(pushTestTask) ==> tested.None? && !pushTestTask && pushTestEnabled == old(pushTestEnabled)
      ensures !old(pushTestTask) ==> pushTestLastSuccess == old(pushTestLastSuccess) && pushTestLastCode == old(pushTestLastCode)
      ensures old(pushTestTask) ==> !pushTestTask && pushTestLastSuccess == outcome.success && pushTestLastCode == outcome.code
      ensures old(pushTestTask) ==> pushTestEnabled == (old(pushTestEnabled) || TestSink(pushTestTarget, cfg.targets).Some?)
      ensures old(pushTestTask) ==>
        tested == TestDelivery(pushTestTarget, cfg.targets, cfg.PushView(), Stored(), deviceId, wifiRssi, build)
    {
      tested := Option.None;
      if pushTestTask {
        var sink := TestSink(pushTestTarget, cfg.targets);
        if sink.Some? {
          var d := RunTest(cfg, sink.value, deviceId, wifiRssi, build);
          tested := Some(d);
          pushTestEnabled := true;
        }
        pushTestLastSuccess := outcome.success;
        pushTestLastCode := outcome.code;
        pushTestTask := false;
      }
    }

    /** The device list of `webHandleStatus`: the BLE table, then this server's table. */
    method HandleStatus(ble: BleScanner, now: u32) returns (devices: seq<DeviceEntry>)
      requires Valid() && ble.Valid()
      ensures devices == Listed(ble.gravitymon[..], "ble", now) + Listed(gravitymon[..], "wifi", now)
    {
      devices := [];
      for i := 0 to NO_GRAVITYMON
        invariant devices == Listed(ble.gravitymon[..i], "ble", now)
      {
        assert ble.gravitymon[..i + 1][..i] == ble.gravitymon[..i];
        var gd := ble.gravitymon[i];
        if gd.points.id != "" {
          devices := devices + [Entry(gd, "ble", now)];
        }
      }
      assert ble.gravitymon[..NO_GRAVITYMON] == ble.gravitymon[..];
      ghost var bleDevices := devices;
      for i := 0 to NO_GRAVITYMON
        invariant devices == bleDevices + Listed(gravitymon[..i], "wifi", now)
      {
        assert gravitymon[..i + 1][..i] == gravitymon[..i];
        var gd := gravitymon[i];
        if gd.points.id != "" {
          devices := devices + [Entry(gd, "wifi", now)];
        }
      }
      assert gravitymon[..NO_GRAVITYMON] == gravitymon[..];
    }
  }

  /** The three status messages differ from each other whatever the target is. */
  lemma PushTestMessagesDistinct(target: string)
    ensures PushTestMessage(true, false, target) != PushTestMessage(false, false, target)
    ensures PushTestMessage(true, false, target) != PushTestMessage(false, true, target)
    ensures PushTestMessage(false, false, target) != PushTestMessage(false, true, target)
  {
    assert PushTestMessage(true, false, target)[0] == 'R';
    assert PushTestMessage(false, false, target)[0] == 'N';
    assert PushTestMessage(false, true, target)[0] == 'P';
  }

  /**
   * The status after `loop` has run a test (the task cleared, the outcome's
   * success recorded): a failed test reads as if none had been started.
   */
  lemma StatusAfterTest(target: string, outcome: PushOutcome)
    ensures !outcome.success ==> PushTestMessage(false, outcome.success, target) == "No push test has been started"
    ensures outcome.success ==> PushTestMessage(false, outcome.success, target) == "Push test for " + target + " is complete"
  {
  }
}
