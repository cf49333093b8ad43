/**
 * `GravmonGatewayConfig` (config.hpp / config.cpp): the gateway's own
 * settings, their setters, the validated gravity-format setter and the JSON
 * emit/parse of the six gateway keys.
 *
 * The base class (`BaseConfig`) is not part of this model. The few of its
 * settings the core reads (mDNS name, temperature format, the five push
 * targets) are plain fields here.
 */
module GatewayConfig {
  import opened Units
  import opened JsonDoc

  // Key names of the six gateway settings (their header is not part of this
  // model; only their being distinct matters below).
  const PARAM_TOKEN: string := "token"
  const PARAM_GRAVITY_FORMAT: string := "gravity_format"
  const PARAM_TIMEZONE: string := "timezone"
  const PARAM_BLE_ACTIVE_SCAN: string := "ble_active_scan"
  const PARAM_BLE_SCAN_TIME: string := "ble_scan_time"
  const PARAM_PUSH_RESEND_TIME: string := "push_resend_time"

  /** Which of the five push targets have a URL configured. */
  datatype Targets = Targets(httpPost: bool, httpPost2: bool, httpGet: bool, influxDb2: bool, mqtt: bool)

  /** The six settings the gateway adds to the base configuration. */
  datatype GatewaySettings = GatewaySettings(
    token: string,
    gravityFormat: char,
    timezone: string,
    bleActiveScan: bool,
    bleScanTime: i32,
    pushResendTime: i32)

  /** What push rendering reads from the configuration. */
  datatype PushSettings = PushSettings(mdns: string, token: string, tempFormat: char, gravityFormat: char)

  const DEFAULT_SETTINGS := GatewaySettings("", 'G', "", false, 5, 300)

  predicate ValidGravityFormat(c: char) { c == 'G' || c == 'P' }

  /** Arduino `String::charAt`: the character, or NUL past the end. */
  function CharAt(s: string, i: nat): (c: char)
    ensures i < |s| ==> c == s[i]
  {
    if i < |s| then s[i] else '\0'
  }

  /** The gravity format after `setGravityFormat(c)`: only 'G' and 'P' are taken. */
  function AcceptGravityFormat(current: char, c: char): (r: char)
    ensures ValidGravityFormat(c) ==> r == c
    ensures !ValidGravityFormat(c) ==> r == current
  {
    if ValidGravityFormat(c) then c else current
  }

  /**
   * `parseJson` on the gateway keys: a setting changes only when its key is
   * present and not null; the gravity format comes from the string's first
   * character through the validating setter.
   */
  function ApplyJson(s: GatewaySettings, doc: JsonObject): (r: GatewaySettings)
    ensures ValidGravityFormat(s.gravityFormat) ==> ValidGravityFormat(r.gravityFormat)
    ensures IsNull(doc, PARAM_TOKEN) ==> r.token == s.token
    ensures IsNull(doc, PARAM_GRAVITY_FORMAT) ==> r.gravityFormat == s.gravityFormat
    ensures IsNull(doc, PARAM_TIMEZONE) ==> r.timezone == s.timezone
    ensures IsNull(doc, PARAM_BLE_ACTIVE_SCAN) ==> r.bleActiveScan == s.bleActiveScan
    ensures IsNull(doc, PARAM_BLE_SCAN_TIME) ==> r.bleScanTime == s.bleScanTime
    ensures IsNull(doc, PARAM_PUSH_RESEND_TIME) ==> r.pushResendTime == s.pushResendTime
  {
    GatewaySettings(
      if IsNull(doc, PARAM_TOKEN) then s.token else AsString(doc, PARAM_TOKEN),
      if IsNull(doc, PARAM_GRAVITY_FORMAT) then s.gravityFormat
      else AcceptGravityFormat(s.gravityFormat, CharAt(AsString(doc, PARAM_GRAVITY_FORMAT), 0)),
      if IsNull(doc, PARAM_TIMEZONE) then s.timezone else AsString(doc, PARAM_TIMEZONE),
      if IsNull(doc, PARAM_BLE_ACTIVE_SCAN) then s.bleActiveScan else AsBool(doc, PARAM_BLE_ACTIVE_SCAN),
      if IsNull(doc, PARAM_BLE_SCAN_TIME) then s.bleScanTime else AsInt32(doc, PARAM_BLE_SCAN_TIME),
      if IsNull(doc, PARAM_PUSH_RESEND_TIME) then s.pushResendTime else AsInt32(doc, PARAM_PUSH_RESEND_TIME))
  }

  /** Whether `parseJson` calls a setter that sets `_saveNeeded`. */
  predicate ParseMarksSave(s: GatewaySettings, doc: JsonObject)
  {
    || !IsNull(doc, PARAM_TOKEN)
    || (!IsNull(doc, PARAM_GRAVITY_FORMAT) && ValidGravityFormat(CharAt(AsString(doc, PARAM_GRAVITY_FORMAT), 0)))
    || !IsNull(doc, PARAM_TIMEZONE)
    || !IsNull(doc, PARAM_BLE_ACTIVE_SCAN)
    || !IsNull(doc, PARAM_BLE_SCAN_TIME)
    || !IsNull(doc, PARAM_PUSH_RESEND_TIME)
  }

  /** `createJson` on the gateway keys: exactly the six settings, as their JSON values. */
  function EmitJson(s: GatewaySettings): (doc: JsonObject)
    ensures doc.Keys == {PARAM_TOKEN, PARAM_GRAVITY_FORMAT, PARAM_TIMEZONE, PARAM_BLE_ACTIVE_SCAN,
                         PARAM_BLE_SCAN_TIME, PARAM_PUSH_RESEND_TIME}
    ensures forall k :: k in doc ==> doc[k] != JNull
  {
    map[
      PARAM_TOKEN := JString(s.token),
      PARAM_GRAVITY_FORMAT := JString([s.gravityFormat]),
      PARAM_TIMEZONE := JString(s.timezone),
      PARAM_BLE_ACTIVE_SCAN := JBool(s.bleActiveScan),
      PARAM_BLE_SCAN_TIME := JNumber(s.bleScanTime as real),
      PARAM_PUSH_RESEND_TIME := JNumber(s.pushResendTime as real)]
  }

  /**
   * Parsing what `createJson` wrote restores the six settings, whatever the
   * settings were before the parse.
   */
  lemma ParseEmitRoundTrip(before: GatewaySettings, s: GatewaySettings)
    requires ValidGravityFormat(s.gravityFormat)
    ensures ApplyJson(before, EmitJson(s)) == s
  {
    var doc := EmitJson(s);
    AsIntOfInteger(doc, PARAM_BLE_SCAN_TIME, s.bleScanTime);
    AsIntOfInteger(doc, PARAM_PUSH_RESEND_TIME, s.pushResendTime);
    assert CharAt(AsString(doc, PARAM_GRAVITY_FORMAT), 0) == s.gravityFormat;
  }

  /** A document without the gateway keys changes no gateway setting and needs no save. */
  lemma ForeignDocumentChangesNothing(s: GatewaySettings, doc: JsonObject)
    requires forall k :: k in doc ==> k !in EmitJson(s).Keys
    ensures ApplyJson(s, doc) == s
    ensures !ParseMarksSave(s, doc)
  {
    assert PARAM_TOKEN in EmitJson(s).Keys;
    assert PARAM_GRAVITY_FORMAT in EmitJson(s).Keys;
    assert PARAM_TIMEZONE in EmitJson(s).Keys;
    assert PARAM_BLE_ACTIVE_SCAN in EmitJson(s).Keys;
    assert PARAM_BLE_SCAN_TIME in EmitJson(s).Keys;
    assert PARAM_PUSH_RESEND_TIME in EmitJson(s).Keys;
  }

  /** A gravity format that is not 'G' or 'P' in the document is ignored. */
  lemma InvalidGravityFormatIgnored(s: GatewaySettings, doc: JsonObject)
    requires !ValidGravityFormat(CharAt(AsString(doc, PARAM_GRAVITY_FORMAT), 0))
    ensures ApplyJson(s, doc).gravityFormat == s.gravityFormat
  {
  }

  class GravmonGatewayConfig {
    var token: string
    var gravityFormat: char
    var timezone: string
    var bleActiveScan: bool
    var bleScanTime: i32
    var pushResendTime: i32
    var saveNeeded: bool
    // Settings held by the base configuration that the core reads.
    var mdns: string
    var tempFormat: char
    var targets: Targets

    ghost predicate Valid()
      reads this
    {
      ValidGravityFormat(gravityFormat)
    }

    function Settings(): GatewaySettings
      reads this
    {
      GatewaySettings(token, gravityFormat, timezone, bleActiveScan, bleScanTime, pushResendTime)
    }

    function PushView(): PushSettings
      reads this
    {
      PushSettings(mdns, token, tempFormat, gravityFormat)
    }

    /** A fresh configuration holds the defaults; the base settings start as given. */
    constructor(baseMdns: string, baseTempFormat: char, baseTargets: Targets)
      ensures Valid() && Settings() == DEFAULT_SETTINGS && !saveNeeded
      ensures mdns == baseMdns && tempFormat == baseTempFormat && targets == baseTargets
    {
      token := "";
      gravityFormat := 'G';
      timezone := "";
      bleActiveScan := false;
      bleScanTime := 5;
      pushResendTime := 300;
      saveNeeded := false;
      mdns := baseMdns;
      tempFormat := baseTempFormat;
      targets := baseTargets;
    }

    method SetToken(s: string)
      modifies this`token, this`saveNeeded
      ensures token == s && saveNeeded
    {
      token := s;
      saveNeeded := true;
    }

    method SetTimezone(s: string)
      modifies this`timezone, this`saveNeeded
      ensures timezone == s && saveNeeded
    {
      timezone := s;
      saveNeeded := true;
    }

    /** Stored verbatim: no range check. */
    method SetBleScanTime(v: i32)
      modifies this`bleScanTime, this`saveNeeded
      ensures bleScanTime == v && saveNeeded
    {
      bleScanTime := v;
      saveNeeded := true;
    }

    /** Stored verbatim: no range check. */
    method SetPushResendTime(t: i32)
      modifies this`pushResendTime, this`saveNeeded
      ensures pushResendTime == t && saveNeeded
    {
      pushResendTime := t;
      saveNeeded := true;
    }

    method SetBleActiveScan(b: bool)
      modifies this`bleActiveScan, this`saveNeeded
      ensures bleActiveScan == b && saveNeeded
    {
      bleActiveScan := b;
      saveNeeded := true;
    }

    /** Only 'G' and 'P' are accepted; anything else changes nothing, not even the save flag. */
    method SetGravityFormat(c: char)
      requires Valid()
      modifies this`gravityFormat, this`saveNeeded
      ensures Valid()
      ensures gravityFormat == AcceptGravityFormat(old(gravityFormat), c)
      ensures saveNeeded == (old(saveNeeded) || ValidGravityFormat(c))
    {
      if c == 'G' || c == 'P' {
        gravityFormat := c;
        saveNeeded := true;
      }
    }

    function IsGravitySG(): bool
      reads this
    {
      gravityFormat == 'G'
    }

    function IsGravityPlato(): bool
      reads this
    {
      gravityFormat == 'P'
    }

    function IsTempFormatC(): bool
      reads this
    {
      tempFormat == 'C'
    }

    /** `isWifiPushActive`: some target is configured. */
    function IsWifiPushActive(): (b: bool)
      reads this
      ensures b <==> targets != Targets(false, false, false, false, false)
    {
      targets.httpPost || targets.httpPost2 || targets.httpGet || targets.influxDb2 || targets.mqtt
    }

    /** With a valid format exactly one of the two gravity units is selected. */
    lemma ExactlyOneGravityUnit()
      requires Valid()
      ensures IsGravitySG() != IsGravityPlato()
    {
    }

    /** `createJson`: the gateway keys of the document are the current settings. */
    method CreateJson(doc: JsonObject) returns (out: JsonObject)
      ensures out == doc + EmitJson(Settings())
      ensures forall k :: k in doc && k !in EmitJson(Settings()) ==> out[k] == doc[k]
    {
      out := doc;
      out := out[PARAM_TOKEN := JString(token)];
      out := out[PARAM_GRAVITY_FORMAT := JString([gravityFormat])];
      out := out[PARAM_TIMEZONE := JString(timezone)];
      out := out[PARAM_BLE_ACTIVE_SCAN := JBool(bleActiveScan)];
      out := out[PARAM_BLE_SCAN_TIME := JNumber(bleScanTime as real)];
      out := out[PARAM_PUSH_RESEND_TIME := JNumber(pushResendTime as real)];
    }

    /** `parseJson`: each present, non-null key goes through its setter. */
    method ParseJson(doc: JsonObject)
      requires Valid()
      modifies this`token, this`gravityFormat, this`timezone, this`bleActiveScan,
               this`bleScanTime, this`pushResendTime, this`saveNeeded
      ensures Valid()
      ensures Settings() == ApplyJson(old(Settings()), doc)
      ensures saveNeeded == (old(saveNeeded) || ParseMarksSave(old(Settings()), doc))
    {
      ParseTextKeys(doc);
      ParseScanKeys(doc);
    }

    /** The string-valued half of `parseJson`: token, gravity format, timezone. */
    method ParseTextKeys(doc: JsonObject)
      requires Valid()
      modifies this`token, this`gravityFormat, this`timezone, this`saveNeeded
      ensures Valid()
      ensures var goal := ApplyJson(old(Settings()), doc);
        token == goal.token && gravityFormat == goal.gravityFormat && timezone == goal.timezone
      ensures saveNeeded == (old(saveNeeded) || !IsNull(doc, PARAM_TOKEN) || !IsNull(doc, PARAM_TIMEZONE)
        || (!IsNull(doc, PARAM_GRAVITY_FORMAT) && ValidGravityFormat(CharAt(AsString(doc, PARAM_GRAVITY_FORMAT), 0))))
    {
      if !IsNull(doc, PARAM_TOKEN) {
        SetToken(AsString(doc, PARAM_TOKEN));
      }
      if !IsNull(doc, PARAM_GRAVITY_FORMAT) {
        var s := AsString(doc, PARAM_GRAVITY_FORMAT);
        SetGravityFormat(CharAt(s, 0));
      }
      if !IsNull(doc, PARAM_TIMEZONE) {
        SetTimezone(AsString(doc, PARAM_TIMEZONE));
      }
    }

    /** The scan and push half of `parseJson`: active scan, scan time, resend time. */
    method ParseScanKeys(doc: JsonObject)
      modifies this`bleActiveScan, this`bleScanTime, this`pushResendTime, this`saveNeeded
      ensures var goal := ApplyJson(old(Settings()), doc);
        bleActiveScan == goal.bleActiveScan && bleScanTime == goal.bleScanTime && pushResendTime == goal.pushResendTime
      ensures saveNeeded == (old(saveNeeded) || !IsNull(doc, PARAM_BLE_ACTIVE_SCAN)
        || !IsNull(doc, PARAM_BLE_SCAN_TIME) || !IsNull(doc, PARAM_PUSH_RESEND_TIME))
    {
      if !IsNull(doc, PARAM_BLE_ACTIVE_SCAN) {
        SetBleActiveScan(AsBool(doc, PARAM_BLE_ACTIVE_SCAN));
      }
      if !IsNull(doc, PARAM_BLE_SCAN_TIME) {
        SetBleScanTime(AsInt32(doc, PARAM_BLE_SCAN_TIME));
      }
      if !IsNull(doc, PARAM_PUSH_RESEND_TIME) {
        SetPushResendTime(AsInt32(doc, PARAM_PUSH_RESEND_TIME));
      }
    }
  }
}
