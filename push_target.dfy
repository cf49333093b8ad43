/**
 * `GravmonGatewayPush` (pushtarget.cpp): the default payload templates, the
 * choice between a default and a stored template, the values handed to the
 * templating engine for one reading, and the fixed order in which the five
 * push targets are served.
 *
 * The templating engine itself is an abstract placeholder-to-value map: how
 * `create` substitutes values into a template and how numbers are rounded
 * is not part of this model, so a rendered payload is the pair (template,
 * values) it is made from.
 */
module PushTarget {
  import opened Wrappers
  import opened Units
  import opened GatewayConfig

  // ---------------------------------------------------------------------
  // Default templates
  // ---------------------------------------------------------------------

  /** iSpindel-compatible JSON body for the two HTTP POST targets. */
  const ISPINDLE_FORMAT: string :=
    "{" +
    "\"name\": \"${mdns}\", " +
    "\"ID\": \"${id}\", " +
    "\"token\": \"${token}\", " +
    "\"interval\": ${sleep-interval}, " +
    "\"temperature\": ${temp}, " +
    "\"temp_units\": \"${temp-unit}\", " +
    "\"gravity\": ${gravity}, " +
    "\"angle\": ${angle}, " +
    "\"battery\": ${battery}, " +
    "\"RSSI\": ${rssi}, " +
    "}"

  /** Query string for the HTTP GET target. */
  const HTTP_GET_FORMAT: string :=
    "?name=${mdns}" +
    "&id=${id}" +
    "&token=${token2}" +
    "&interval=${sleep-interval}" +
    "&temperature=${temp}" +
    "&temp-units=${temp-unit}" +
    "&gravity=${gravity}" +
    "&angle=${angle}" +
    "&battery=${battery}" +
    "&rssi=${rssi}" +
    "&corr-gravity=${corr-gravity}" +
    "&gravity-unit=${gravity-unit}" +
    "&run-time=${run-time}"

  /** InfluxDB line protocol. */
  const INFLUXDB_FORMAT: string :=
    "measurement,host=${mdns},device=${id},temp-format=${temp-unit},gravity-" +
    "format=${gravity-unit} " +
    "gravity=${gravity},corr-gravity=${corr-gravity},angle=${angle},temp=${" +
    "temp},battery=${battery}," +
    "rssi=${rssi}\n"

  /** MQTT topic:value pairs separated by '|'. */
  const MQTT_FORMAT: string :=
    "ispindel/${mdns}/tilt:${angle}|" +
    "ispindel/${mdns}/temperature:${temp}|" +
    "ispindel/${mdns}/temp_units:${temp-unit}|" +
    "ispindel/${mdns}/battery:${battery}|" +
    "ispindel/${mdns}/gravity:${gravity}|" +
    "ispindel/${mdns}/interval:${sleep-interval}|" +
    "ispindel/${mdns}/RSSI:${rssi}|"

  /** One MQTT segment: the topic `ispindel/<mdns>/<field>` and its value. */
  function MqttSegment(field: string, value: string): string
  {
    "ispindel/${mdns}/" + field + ":" + value + "|"
  }

  // Each default segment is spelled as `MqttSegment` builds it.
  lemma MqttSegmentTilt()
    ensures MqttSegment("tilt", "${angle}") == "ispindel/${mdns}/tilt:${angle}|"
  {
  }

  lemma MqttSegmentTemperature()
    ensures MqttSegment("temperature", "${temp}") == "ispindel/${mdns}/temperature:${temp}|"
  {
  }

  lemma MqttSegmentTempUnits()
    ensures MqttSegment("temp_units", "${temp-unit}") == "ispindel/${mdns}/temp_units:${temp-unit}|"
  {
  }

  lemma MqttSegmentBattery()
    ensures MqttSegment("battery", "${battery}") == "ispindel/${mdns}/battery:${battery}|"
  {
  }

  lemma MqttSegmentGravity()
    ensures MqttSegment("gravity", "${gravity}") == "ispindel/${mdns}/gravity:${gravity}|"
  {
  }

  lemma MqttSegmentInterval()
    ensures MqttSegment("interval", "${sleep-interval}") == "ispindel/${mdns}/interval:${sleep-interval}|"
  {
  }

  lemma MqttSegmentRssi()
    ensures MqttSegment("RSSI", "${rssi}") == "ispindel/${mdns}/RSSI:${rssi}|"
  {
  }

  /** The default MQTT template is seven segments, one per published field. */
  lemma MqttFormatIsSevenSegments()
    ensures MQTT_FORMAT ==
      MqttSegment("tilt", "${angle}") +
      MqttSegment("temperature", "${temp}") +
      MqttSegment("temp_units", "${temp-unit}") +
      MqttSegment("battery", "${battery}") +
      MqttSegment("gravity", "${gravity}") +
      MqttSegment("interval", "${sleep-interval}") +
      MqttSegment("RSSI", "${rssi}")
  {
    MqttSegmentTilt();
    MqttSegmentTemperature();
    MqttSegmentTempUnits();
    MqttSegmentBattery();
    MqttSegmentGravity();
    MqttSegmentInterval();
    MqttSegmentRssi();
  }

  datatype Templates = TemplateHttp1 | TemplateHttp2 | TemplateHttp3 | TemplateInflux | TemplateMqtt

  /** The built-in template of each target kind. */
  function DefaultTemplate(t: Templates): (tpl: string)
    ensures t == TemplateHttp1 || t == TemplateHttp2 ==> tpl == ISPINDLE_FORMAT
    ensures t == TemplateHttp3 ==> tpl == HTTP_GET_FORMAT
    ensures t == TemplateInflux ==> tpl == INFLUXDB_FORMAT
    ensures t == TemplateMqtt ==> tpl == MQTT_FORMAT
  {
    match t
    case TemplateHttp1 => ISPINDLE_FORMAT
    case TemplateHttp2 => ISPINDLE_FORMAT
    case TemplateHttp3 => HTTP_GET_FORMAT
    case TemplateInflux => INFLUXDB_FORMAT
    case TemplateMqtt => MQTT_FORMAT
  }

  /**
   * The two POST targets share one default; the other three defaults differ
   * from it and from each other (in their first or last character).
   */
  lemma DefaultTemplatesDiffer()
    ensures DefaultTemplate(TemplateHttp1) == DefaultTemplate(TemplateHttp2)
    ensures forall a: Templates, b: Templates ::
      a != b && !(a in {TemplateHttp1, TemplateHttp2} && b in {TemplateHttp1, TemplateHttp2}) ==>
      DefaultTemplate(a) != DefaultTemplate(b)
  {
    assert ISPINDLE_FORMAT[0] == '{';
    assert HTTP_GET_FORMAT[0] == '?';
    assert ISPINDLE_FORMAT[|ISPINDLE_FORMAT| - 1] == '}';
    assert HTTP_GET_FORMAT[|HTTP_GET_FORMAT| - 1] == '}';
    assert INFLUXDB_FORMAT[|INFLUXDB_FORMAT| - 1] == '\n';
    assert MQTT_FORMAT[|MQTT_FORMAT| - 1] == '|';
  }

  /** A stored file read into a C string ends at its first NUL character. */
  function UpToNul(s: string): (r: string)
    ensures r <= s
    ensures '\0' !in r
    ensures |r| < |s| ==> s[|r|] == '\0'
  {
    if s == [] || s[0] == '\0' then [] else [s[0]] + UpToNul(s[1..])
  }

  /** A file without NUL characters is taken whole. */
  lemma {:induction false} UpToNulWhole(s: string)
    requires '\0' !in s
    ensures UpToNul(s) == s
  {
    if s != [] {
      UpToNulWhole(s[1..]);
    }
  }

  /**
   * `getTemplate(t, useDefaultTemplate)`: the stored file of the target, if
   * there is one and defaults are not forced, else the built-in template.
   */
  function SelectTemplate(t: Templates, useDefault: bool, stored: Option<string>): (tpl: string)
    ensures useDefault || stored.None? ==> tpl == DefaultTemplate(t)
    ensures !useDefault && stored.Some? ==> tpl == UpToNul(stored.value)
  {
    if !useDefault && stored.Some? then UpToNul(stored.value) else DefaultTemplate(t)
  }

  /** Forcing the default ignores whatever is stored. */
  lemma ForcedDefaultIgnoresStore(t: Templates, a: Option<string>, b: Option<string>)
    ensures SelectTemplate(t, true, a) == SelectTemplate(t, true, b) == DefaultTemplate(t)
  {
  }

  // ---------------------------------------------------------------------
  // Battery charge
  // ---------------------------------------------------------------------

  /** A voltage strictly above `above` gives at least `charge` percent. */
  datatype Breakpoint = Breakpoint(above: real, charge: int)

  const BATTERY_TABLE: seq<Breakpoint> := [
    Breakpoint(4.15, 100), Breakpoint(4.05, 90), Breakpoint(3.97, 80), Breakpoint(3.91, 70),
    Breakpoint(3.86, 60), Breakpoint(3.81, 50), Breakpoint(3.78, 40), Breakpoint(3.76, 30),
    Breakpoint(3.73, 20), Breakpoint(3.67, 10), Breakpoint(3.44, 5)]

  /** The charge of the first breakpoint from `i` on that the voltage is strictly above, else 0. */
  function TableCharge(table: seq<Breakpoint>, i: nat, voltage: real): int
    decreases |table| - i
  {
    if i >= |table| then 0
    else if voltage > table[i].above then table[i].charge
    else TableCharge(table, i + 1, voltage)
  }

  /** Charges never rising from one breakpoint to the next, and never negative. */
  ghost predicate Descending(table: seq<Breakpoint>)
  {
    && (forall i :: 0 < i < |table| ==> table[i].charge <= table[i - 1].charge)
    && (forall i :: 0 <= i < |table| ==> 0 <= table[i].charge)
  }

  /** Over a descending table the charge is between 0 and the charge of entry `i`. */
  lemma {:induction false} TableChargeBounded(table: seq<Breakpoint>, i: nat, voltage: real)
    requires Descending(table)
    ensures 0 <= TableCharge(table, i, voltage)
    ensures i < |table| ==> TableCharge(table, i, voltage) <= table[i].charge
    decreases |table| - i
  {
    if i < |table| && voltage <= table[i].above {
      TableChargeBounded(table, i + 1, voltage);
    }
  }

  /** Over a descending table the charge never falls as the voltage rises. */
  lemma {:induction false} TableChargeMonotone(table: seq<Breakpoint>, i: nat, v1: real, v2: real)
    requires Descending(table)
    requires v1 <= v2
    ensures TableCharge(table, i, v1) <= TableCharge(table, i, v2)
    decreases |table| - i
  {
    if i < |table| {
      if v2 > table[i].above {
        TableChargeBounded(table, i, v1);
      } else {
        TableChargeMonotone(table, i + 1, v1, v2);
      }
    }
  }

  /** The charge step of `setupTemplateEngine`, as the source's if-chain. */
  function BatteryPercent(voltage: real): (charge: int)
    ensures 0 <= charge <= 100
    ensures charge == 100 <==> voltage > 4.15
    ensures charge == 0 <==> voltage <= 3.44
  {
    if voltage > 4.15 then 100
    else if voltage > 4.05 then 90
    else if voltage > 3.97 then 80
    else if voltage > 3.91 then 70
    else if voltage > 3.86 then 60
    else if voltage > 3.81 then 50
    else if voltage > 3.78 then 40
    else if voltage > 3.76 then 30
    else if voltage > 3.73 then 20
    else if voltage > 3.67 then 10
    else if voltage > 3.44 then 5
    else 0
  }

  /** The if-chain is the breakpoint table read top down. */
  lemma BatteryPercentIsTable(voltage: real)
    ensures BatteryPercent(voltage) == TableCharge(BATTERY_TABLE, 0, voltage)
  {
    var t := BATTERY_TABLE;
    assert TableCharge(t, 11, voltage) == 0;
    assert TableCharge(t, 10, voltage) == if voltage > 3.44 then 5 else 0;
    assert TableCharge(t, 9, voltage) == if voltage > 3.67 then 10 else TableCharge(t, 10, voltage);
    assert TableCharge(t, 8, voltage) == if voltage > 3.73 then 20 else TableCharge(t, 9, voltage);
    assert TableCharge(t, 7, voltage) == if voltage > 3.76 then 30 else TableCharge(t, 8, voltage);
    assert TableCharge(t, 6, voltage) == if voltage > 3.78 then 40 else TableCharge(t, 7, voltage);
    assert TableCharge(t, 5, voltage) == if voltage > 3.81 then 50 else TableCharge(t, 6, voltage);
    assert TableCharge(t, 4, voltage) == if voltage > 3.86 then 60 else TableCharge(t, 5, voltage);
    assert TableCharge(t, 3, voltage) == if voltage > 3.91 then 70 else TableCharge(t, 4, voltage);
    assert TableCharge(t, 2, voltage) == if voltage > 3.97 then 80 else TableCharge(t, 3, voltage);
    assert TableCharge(t, 1, voltage) == if voltage > 4.05 then 90 else TableCharge(t, 2, voltage);
  }

  lemma BatteryTableDescending()
    ensures Descending(BATTERY_TABLE)
  {
  }

  /** A higher voltage never shows a lower charge. */
  lemma BatteryPercentMonotone(v1: real, v2: real)
    requires v1 <= v2
    ensures BatteryPercent(v1) <= BatteryPercent(v2)
  {
    BatteryTableDescending();
    BatteryPercentIsTable(v1);
    BatteryPercentIsTable(v2);
    TableChargeMonotone(BATTERY_TABLE, 0, v1, v2);
  }

  // ---------------------------------------------------------------------
  // Template engine values
  // ---------------------------------------------------------------------

  /** The placeholders `setupTemplateEngine` fills. */
  datatype Placeholder =
    | Mdns | Id | Token | Token2
    | Temp | TempC | TempF | TempUnits
    | Battery | SleepInterval | BatteryPercentKey
    | RunTime | Rssi
    | Tilt | Angle
    | Gravity | GravityCorr | GravityG | GravityP | GravityCorrG | GravityCorrP | GravityUnit
    | AppVer | AppBuild

  datatype TplValue = Text(s: string) | Number(x: real) | Whole(n: int)

  /** The arguments of `sendAll` / `setupTemplateEngine`. */
  datatype PushReading = PushReading(
    angle: real, gravitySG: real, tempC: real, voltage: real,
    interval: int, id: string, token: string, name: string)

  /** Firmware version and git revision (build constants). */
  datatype BuildInfo = BuildInfo(version: string, gitRev: string)

  // The `setVal` calls of `setupTemplateEngine`, section by section.

  function WithNames(vals: map<Placeholder, TplValue>, v: PushSettings, r: PushReading): map<Placeholder, TplValue>
  {
    var token := if r.token != "" then r.token else v.token;
    vals[Mdns := Text(if r.name != "" then r.name else v.mdns)][Id := Text(r.id)][Token := Text(token)][Token2 := Text(token)]
  }

  function WithTemperature(vals: map<Placeholder, TplValue>, v: PushSettings, r: PushReading): map<Placeholder, TplValue>
  {
    vals[Temp := Number(if v.tempFormat == 'C' then r.tempC else CtoF(r.tempC))]
      [TempC := Number(r.tempC)][TempF := Number(CtoF(r.tempC))][TempUnits := Text([v.tempFormat])]
  }

  function WithBatteryAndTimer(vals: map<Placeholder, TplValue>, r: PushReading): map<Placeholder, TplValue>
  {
    vals[Battery := Number(r.voltage)][SleepInterval := Whole(r.interval)]
      [BatteryPercentKey := Whole(BatteryPercent(r.voltage))]
  }

  function WithMetricsAndAngle(vals: map<Placeholder, TplValue>, r: PushReading, wifiRssi: int): map<Placeholder, TplValue>
  {
    vals[RunTime := Number(0.0)][Rssi := Whole(wifiRssi)][Tilt := Number(r.angle)][Angle := Number(r.angle)]
  }

  function WithGravity(vals: map<Placeholder, TplValue>, v: PushSettings, r: PushReading): map<Placeholder, TplValue>
  {
    var g := if v.gravityFormat == 'G' then r.gravitySG else ToPlato(r.gravitySG);
    vals[Gravity := Number(g)][GravityCorr := Number(g)]
      [GravityG := Number(r.gravitySG)][GravityP := Number(ToPlato(r.gravitySG))]
      [GravityCorrG := Number(r.gravitySG)][GravityCorrP := Number(ToPlato(r.gravitySG))]
      [GravityUnit := Text([v.gravityFormat])]
  }

  function WithVersion(vals: map<Placeholder, TplValue>, build: BuildInfo): map<Placeholder, TplValue>
  {
    vals[AppVer := Text(build.version)][AppBuild := Text(build.gitRev)]
  }

  /** `vals` after one `setVal` per placeholder, in the order `setupTemplateEngine` makes them. */
  function Populate(vals: map<Placeholder, TplValue>, v: PushSettings, r: PushReading, wifiRssi: int, build: BuildInfo): map<Placeholder, TplValue>
  {
    WithVersion(WithGravity(WithMetricsAndAngle(WithBatteryAndTimer(WithTemperature(WithNames(vals, v, r), v, r), r), r, wifiRssi), v, r), build)
  }

  /** Every placeholder has a value once the engine is set up. */
  lemma PopulateCoversAll(vals: map<Placeholder, TplValue>, v: PushSettings, r: PushReading, wifiRssi: int, build: BuildInfo)
    ensures forall p: Placeholder :: p in Populate(vals, v, r, wifiRssi, build)
  {
    var m := Populate(vals, v, r, wifiRssi, build);
    forall p: Placeholder
      ensures p in m
    {
      match p
      case Mdns =>
      case Id =>
      case Token =>
      case Token2 =>
      case Temp =>
      case TempC =>
      case TempF =>
      case TempUnits =>
      case Battery =>
      case SleepInterval =>
      case BatteryPercentKey =>
      case RunTime =>
      case Rssi =>
      case Tilt =>
      case Angle =>
      case Gravity =>
      case GravityCorr =>
      case GravityG =>
      case GravityP =>
      case GravityCorrG =>
      case GravityCorrP =>
      case GravityUnit =>
      case AppVer =>
      case AppBuild =>
    }
  }

  /** The name of the reading wins when non-empty, else the configured mDNS name; the id is the reading's. */
  lemma NameFallback(vals: map<Placeholder, TplValue>, v: PushSettings, r: PushReading, wifiRssi: int, build: BuildInfo)
    ensures var m := Populate(vals, v, r, wifiRssi, build);
      && m[Mdns] == Text(if r.name != "" then r.name else v.mdns)
      && m[Id] == Text(r.id)
  {
  }

  /** The token of the reading wins when non-empty, else the configured token; `${token}` and `${token2}` agree. */
  lemma TokenFallback(vals: map<Placeholder, TplValue>, v: PushSettings, r: PushReading, wifiRssi: int, build: BuildInfo)
    ensures var m := Populate(vals, v, r, wifiRssi, build);
      && m[Token] == Text(if r.token != "" then r.token else v.token)
      && m[Token2] == m[Token]
  {
  }

  /** `${temp}` follows the configured unit, and the unit placeholder names it. */
  lemma TemperatureFollowsUnit(vals: map<Placeholder, TplValue>, v: PushSettings, r: PushReading, wifiRssi: int, build: BuildInfo)
    ensures var m := Populate(vals, v, r, wifiRssi, build);
      && m[Temp] == (if v.tempFormat == 'C' then m[TempC] else m[TempF])
      && m[TempUnits] == Text([v.tempFormat])
  {
  }

  /** `${temp-c}` and `${temp-f}` are always both present and name the same temperature. */
  lemma TemperatureBothUnits(vals: map<Placeholder, TplValue>, v: PushSettings, r: PushReading, wifiRssi: int, build: BuildInfo)
    ensures var m := Populate(vals, v, r, wifiRssi, build);
      && m[TempC] == Number(r.tempC)
      && m[TempF].Number? && FtoC(m[TempF].x) == r.tempC
  {
    CtoFRoundTrip(r.tempC);
  }

  /** `${gravity}` and `${corr-gravity}` follow the configured gravity unit, which `${gravity-unit}` names. */
  lemma GravityFollowsUnit(vals: map<Placeholder, TplValue>, v: PushSettings, r: PushReading, wifiRssi: int, build: BuildInfo)
    ensures var m := Populate(vals, v, r, wifiRssi, build);
      && m[Gravity] == (if v.gravityFormat == 'G' then m[GravityG] else m[GravityP])
      && m[GravityCorr] == m[Gravity]
      && m[GravityUnit] == Text([v.gravityFormat])
  {
  }

  /** Both gravity units are always present; the corrected gravity is the raw gravity. */
  lemma GravityBothUnits(vals: map<Placeholder, TplValue>, v: PushSettings, r: PushReading, wifiRssi: int, build: BuildInfo)
    ensures var m := Populate(vals, v, r, wifiRssi, build);
      && m[GravityCorrG] == m[GravityG] == Number(r.gravitySG)
      && m[GravityCorrP] == m[GravityP] == Number(ToPlato(r.gravitySG))
  {
  }

  /** `${tilt}` and `${angle}` both carry the angle. */
  lemma TiltIsAngle(vals: map<Placeholder, TplValue>, v: PushSettings, r: PushReading, wifiRssi: int, build: BuildInfo)
    ensures var m := Populate(vals, v, r, wifiRssi, build);
      m[Tilt] == m[Angle] == Number(r.angle)
  {
  }

  /** The battery placeholders carry the voltage and its charge step; the interval is the sleep interval. */
  lemma BatteryPlaceholders(vals: map<Placeholder, TplValue>, v: PushSettings, r: PushReading, wifiRssi: int, build: BuildInfo)
    ensures var m := Populate(vals, v, r, wifiRssi, build);
      && m[Battery] == Number(r.voltage)
      && m[BatteryPercentKey] == Whole(BatteryPercent(r.voltage))
      && m[SleepInterval] == Whole(r.interval)
  {
  }

  /** The run time is always zero, the RSSI is the gateway's own WiFi signal, the versions are the build's. */
  lemma MetricsAndVersion(vals: map<Placeholder, TplValue>, v: PushSettings, r: PushReading, wifiRssi: int, build: BuildInfo)
    ensures var m := Populate(vals, v, r, wifiRssi, build);
      && m[RunTime] == Number(0.0)
      && m[Rssi] == Whole(wifiRssi)
      && m[AppVer] == Text(build.version)
      && m[AppBuild] == Text(build.gitRev)
  {
  }

  /** The engine: placeholders and their current values. */
  class TemplatingEngine {
    var vals: map<Placeholder, TplValue>

    constructor()
      ensures vals == map[]
    {
      vals := map[];
    }

    method SetVal(p: Placeholder, x: TplValue)
      modifies this
      ensures vals == old(vals)[p := x]
    {
      vals := vals[p := x];
    }
  }

  // ---------------------------------------------------------------------
  // Sinks
  // ---------------------------------------------------------------------

  datatype Sink = PostSink | Post2Sink | GetSink | InfluxSink | MqttSink

  /** Position of a sink in the order `sendAll` serves them. */
  function Rank(s: Sink): nat
  {
    match s
    case PostSink => 0
    case Post2Sink => 1
    case GetSink => 2
    case InfluxSink => 3
    case MqttSink => 4
  }

  function TemplateOf(s: Sink): Templates
  {
    match s
    case PostSink => TemplateHttp1
    case Post2Sink => TemplateHttp2
    case GetSink => TemplateHttp3
    case InfluxSink => TemplateInflux
    case MqttSink => TemplateMqtt
  }

  predicate Enabled(t: Targets, s: Sink)
  {
    match s
    case PostSink => t.httpPost
    case Post2Sink => t.httpPost2
    case GetSink => t.httpGet
    case InfluxSink => t.influxDb2
    case MqttSink => t.mqtt
  }

  /** One rendered payload: the sink, the template and the engine values. */
  datatype Delivery = Delivery(sink: Sink, template: string, values: map<Placeholder, TplValue>)

  /** One payload: the sink's template (stored files allowed) and the engine values. */
  function Render(sink: Sink, stored: Templates -> Option<string>, vals: map<Placeholder, TplValue>): Delivery
  {
    Delivery(sink, SelectTemplate(TemplateOf(sink), false, stored(TemplateOf(sink))), vals)
  }

  /** The payload for `sink` if it is enabled, else nothing. */
  function RenderIf(enabled: bool, sink: Sink, stored: Templates -> Option<string>, vals: map<Placeholder, TplValue>): seq<Delivery>
  {
    if enabled then [Render(sink, stored, vals)] else []
  }

  /** What `sendAll` sends: each configured target in turn, in source order. */
  function Deliveries(t: Targets, stored: Templates -> Option<string>, vals: map<Placeholder, TplValue>): seq<Delivery>
  {
    RenderIf(t.httpPost, PostSink, stored, vals) +
    RenderIf(t.httpPost2, Post2Sink, stored, vals) +
    RenderIf(t.httpGet, GetSink, stored, vals) +
    RenderIf(t.influxDb2, InfluxSink, stored, vals) +
    RenderIf(t.mqtt, MqttSink, stored, vals)
  }

  /** Only enabled sinks are served, each from its own template and the shared engine values. */
  lemma DeliveriesOnlyEnabled(t: Targets, stored: Templates -> Option<string>, vals: map<Placeholder, TplValue>)
    ensures forall d :: d in Deliveries(t, stored, vals) ==> Enabled(t, d.sink) && d == Render(d.sink, stored, vals)
  {
    forall d | d in Deliveries(t, stored, vals)
      ensures Enabled(t, d.sink) && d == Render(d.sink, stored, vals)
    {
      var p1 := RenderIf(t.httpPost, PostSink, stored, vals);
      var p2 := RenderIf(t.httpPost2, Post2Sink, stored, vals);
      var p3 := RenderIf(t.httpGet, GetSink, stored, vals);
      var p4 := RenderIf(t.influxDb2, InfluxSink, stored, vals);
      var p5 := RenderIf(t.mqtt, MqttSink, stored, vals);
      assert d in p1 || d in p2 || d in p3 || d in p4 || d in p5;
      if d in p1 {
        RenderIfMember(t.httpPost, PostSink, stored, vals, d);
      } else if d in p2 {
        RenderIfMember(t.httpPost2, Post2Sink, stored, vals, d);
      } else if d in p3 {
        RenderIfMember(t.httpGet, GetSink, stored, vals, d);
      } else if d in p4 {
        RenderIfMember(t.influxDb2, InfluxSink, stored, vals, d);
      } else {
        RenderIfMember(t.mqtt, MqttSink, stored, vals, d);
      }
    }
  }

  /** A payload of one `RenderIf` piece comes from an enabled sink. */
  lemma RenderIfMember(enabled: bool, sink: Sink, stored: Templates -> Option<string>, vals: map<Placeholder, TplValue>, d: Delivery)
    requires d in RenderIf(enabled, sink, stored, vals)
    ensures enabled && d.sink == sink && d == Render(sink, stored, vals)
  {
  }

  /** Every enabled sink is served. */
  lemma DeliveriesAllEnabled(t: Targets, stored: Templates -> Option<string>, vals: map<Placeholder, TplValue>)
    ensures forall s :: Enabled(t, s) ==> Render(s, stored, vals) in Deliveries(t, stored, vals)
  {
  }

  /** Sinks strictly rising in rank, so none is served twice. */
  ghost predicate Ascending(ds: seq<Delivery>)
  {
    forall i, j :: 0 <= i < j < |ds| ==> Rank(ds[i].sink) < Rank(ds[j].sink)
  }

  /** Sinks served so far all rank below `n`. */
  ghost predicate RanksBelow(ds: seq<Delivery>, n: nat)
  {
    forall d :: d in ds ==> Rank(d.sink) < n
  }

  /** Appending the next sink's piece keeps the order. */
  lemma AppendPiece(ds: seq<Delivery>, n: nat, enabled: bool, sink: Sink, stored: Templates -> Option<string>, vals: map<Placeholder, TplValue>)
    requires Rank(sink) == n
    requires Ascending(ds) && RanksBelow(ds, n)
    ensures Ascending(ds + RenderIf(enabled, sink, stored, vals))
    ensures RanksBelow(ds + RenderIf(enabled, sink, stored, vals), n + 1)
  {
    var ds' := ds + RenderIf(enabled, sink, stored, vals);
    forall i, j | 0 <= i < j < |ds'|
      ensures Rank(ds'[i].sink) < Rank(ds'[j].sink)
    {
      if j >= |ds| {
        assert ds'[i] in ds;
      }
    }
  }

  /** Sinks are served once each, in the fixed order POST, POST2, GET, InfluxDB, MQTT. */
  lemma DeliveriesInOrder(t: Targets, stored: Templates -> Option<string>, vals: map<Placeholder, TplValue>)
    ensures var ds := Deliveries(t, stored, vals);
      forall i, j :: 0 <= i < j < |ds| ==> Rank(ds[i].sink) < Rank(ds[j].sink)
  {
    var p1 := RenderIf(t.httpPost, PostSink, stored, vals);
    AppendPiece([], 0, t.httpPost, PostSink, stored, vals);
    assert [] + p1 == p1;
    var p2 := p1 + RenderIf(t.httpPost2, Post2Sink, stored, vals);
    AppendPiece(p1, 1, t.httpPost2, Post2Sink, stored, vals);
    var p3 := p2 + RenderIf(t.httpGet, GetSink, stored, vals);
    AppendPiece(p2, 2, t.httpGet, GetSink, stored, vals);
    var p4 := p3 + RenderIf(t.influxDb2, InfluxSink, stored, vals);
    AppendPiece(p3, 3, t.influxDb2, InfluxSink, stored, vals);
    AppendPiece(p4, 4, t.mqtt, MqttSink, stored, vals);
    assert Ascending(Deliveries(t, stored, vals));
  }

  /** Something is pushed exactly when WiFi push is active. */
  lemma PushActiveIffSomeDelivery(t: Targets, stored: Templates -> Option<string>, vals: map<Placeholder, TplValue>)
    ensures Deliveries(t, stored, vals) != [] <==> t != Targets(false, false, false, false, false)
  {
  }

  class GravmonGatewayPush {
    var baseTemplate: string

    constructor()
      ensures baseTemplate == ""
    {
      baseTemplate := "";
    }

    /** `getTemplate`: loads the chosen template into `_baseTemplate` and returns it. */
    method GetTemplate(t: Templates, useDefault: bool, stored: Option<string>) returns (tpl: string)
      modifies this`baseTemplate
      ensures tpl == baseTemplate == SelectTemplate(t, useDefault, stored)
    {
      baseTemplate := DefaultTemplate(t);
      if !useDefault {
        if stored.Some? {
          baseTemplate := UpToNul(stored.value);
        }
      }
      tpl := baseTemplate;
    }

    /** `setupTemplateEngine`: one `setVal` per placeholder. */
    method SetupTemplateEngine(engine: TemplatingEngine, cfg: GravmonGatewayConfig, r: PushReading,
                               wifiRssi: int, build: BuildInfo)
      modifies engine
      ensures engine.vals == Populate(old(engine.vals), cfg.PushView(), r, wifiRssi, build)
    {
      var v := cfg.PushView();
      SetNames(engine, v, r);
      SetTemperature(engine, v, r);
      SetBatteryAndTimer(engine, r);
      SetMetricsAndAngle(engine, r, wifiRssi);
      SetGravity(engine, v, r);
      engine.SetVal(AppVer, Text(build.version));
      engine.SetVal(AppBuild, Text(build.gitRev));
    }

    /** Names: the reading's name and token, else the configured ones. */
    static method SetNames(engine: TemplatingEngine, v: PushSettings, r: PushReading)
      modifies engine
      ensures engine.vals == WithNames(old(engine.vals), v, r)
    {
      engine.SetVal(Mdns, Text(if r.name != "" then r.name else v.mdns));
      engine.SetVal(Id, Text(r.id));
      engine.SetVal(Token, Text(if r.token != "" then r.token else v.token));
      engine.SetVal(Token2, Text(if r.token != "" then r.token else v.token));
    }

    /** Temperature in the configured unit, and in both units. */
    static method SetTemperature(engine: TemplatingEngine, v: PushSettings, r: PushReading)
      modifies engine
      ensures engine.vals == WithTemperature(old(engine.vals), v, r)
    {
      if v.tempFormat == 'C' {
        engine.SetVal(Temp, Number(r.tempC));
      } else {
        engine.SetVal(Temp, Number(CtoF(r.tempC)));
      }
      engine.SetVal(TempC, Number(r.tempC));
      engine.SetVal(TempF, Number(CtoF(r.tempC)));
      engine.SetVal(TempUnits, Text([v.tempFormat]));
    }

    /** Battery voltage, its charge step and the sleep interval. */
    static method SetBatteryAndTimer(engine: TemplatingEngine, r: PushReading)
      modifies engine
      ensures engine.vals == WithBatteryAndTimer(old(engine.vals), r)
    {
      engine.SetVal(Battery, Number(r.voltage));
      engine.SetVal(SleepInterval, Whole(r.interval));
      var charge := BatteryPercent(r.voltage);
      engine.SetVal(BatteryPercentKey, Whole(charge));
    }

    /** Performance metrics (the run time is not measured on the gateway) and the angle. */
    static method SetMetricsAndAngle(engine: TemplatingEngine, r: PushReading, wifiRssi: int)
      modifies engine
      ensures engine.vals == WithMetricsAndAngle(old(engine.vals), r, wifiRssi)
    {
      var runTime := 0.0;
      engine.SetVal(RunTime, Number(runTime));
      engine.SetVal(Rssi, Whole(wifiRssi));
      engine.SetVal(Tilt, Number(r.angle));
      engine.SetVal(Angle, Number(r.angle));
    }

    /** Gravity in the configured unit, and in both units; corrected gravity is the raw one. */
    static method SetGravity(engine: TemplatingEngine, v: PushSettings, r: PushReading)
      modifies engine
      ensures engine.vals == WithGravity(old(engine.vals), v, r)
    {
      var corrGravitySG := r.gravitySG;
      if v.gravityFormat == 'G' {
        engine.SetVal(Gravity, Number(r.gravitySG));
        engine.SetVal(GravityCorr, Number(corrGravitySG));
      } else {
        engine.SetVal(Gravity, Number(ToPlato(r.gravitySG)));
        engine.SetVal(GravityCorr, Number(ToPlato(corrGravitySG)));
      }
      engine.SetVal(GravityG, Number(r.gravitySG));
      engine.SetVal(GravityP, Number(ToPlato(r.gravitySG)));
      engine.SetVal(GravityCorrG, Number(corrGravitySG));
      engine.SetVal(GravityCorrP, Number(ToPlato(corrGravitySG)));
      engine.SetVal(GravityUnit, Text([v.gravityFormat]));
    }

    /**
     * `sendAll`: one engine setup, then each enabled target in the fixed
     * order, each rendered from its own (stored or default) template.
     * `stored` gives the template file of each target, if one exists.
     */
    method SendAll(cfg: GravmonGatewayConfig, r: PushReading, wifiRssi: int, build: BuildInfo,
                   stored: Templates -> Option<string>) returns (sent: seq<Delivery>)
      modifies this`baseTemplate
      ensures sent == Deliveries(cfg.targets, stored, Populate(map[], cfg.PushView(), r, wifiRssi, build))
    {
      var engine := new TemplatingEngine();
      SetupTemplateEngine(engine, cfg, r, wifiRssi, build);
      sent := SendEnabled(cfg.targets, stored, engine.vals);
    }

    /** The `if (myConfig.hasTarget...())` chain of `sendAll`, in source order. */
    method SendEnabled(t: Targets, stored: Templates -> Option<string>, vals: map<Placeholder, TplValue>)
      returns (sent: seq<Delivery>)
      modifies this`baseTemplate
      ensures sent == Deliveries(t, stored, vals)
    {
      sent := [];
      if t.httpPost {
        sent := Send(sent, PostSink, stored, vals);
      }
      assert sent == RenderIf(t.httpPost, PostSink, stored, vals);
      if t.httpPost2 {
        sent := Send(sent, Post2Sink, stored, vals);
      }
      assert sent == RenderIf(t.httpPost, PostSink, stored, vals) + RenderIf(t.httpPost2, Post2Sink, stored, vals);
      if t.httpGet {
        sent := Send(sent, GetSink, stored, vals);
      }
      assert sent == RenderIf(t.httpPost, PostSink, stored, vals) + RenderIf(t.httpPost2, Post2Sink, stored, vals) + RenderIf(t.httpGet, GetSink, stored, vals);
      if t.influxDb2 {
        sent := Send(sent, InfluxSink, stored, vals);
      }
      assert sent == RenderIf(t.httpPost, PostSink, stored, vals) + RenderIf(t.httpPost2, Post2Sink, stored, vals) + RenderIf(t.httpGet, GetSink, stored, vals) + RenderIf(t.influxDb2, InfluxSink, stored, vals);
      if t.mqtt {
        sent := Send(sent, MqttSink, stored, vals);
      }
      assert sent == RenderIf(t.httpPost, PostSink, stored, vals) + RenderIf(t.httpPost2, Post2Sink, stored, vals) + RenderIf(t.httpGet, GetSink, stored, vals) + RenderIf(t.influxDb2, InfluxSink, stored, vals) + RenderIf(t.mqtt, MqttSink, stored, vals);
    }

    /** `getTemplate` and render for one more target. */
    method Send(sent: seq<Delivery>, sink: Sink, stored: Templates -> Option<string>, vals: map<Placeholder, TplValue>)
      returns (sent': seq<Delivery>)
      modifies this`baseTemplate
      ensures sent' == sent + [Render(sink, stored, vals)]
    {
      var tpl := GetTemplate(TemplateOf(sink), false, stored(TemplateOf(sink)));
      sent' := sent + [Delivery(sink, tpl, vals)];
    }
  }
}
