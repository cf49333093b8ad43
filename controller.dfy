/**
 * The firmware's main loop (main.cpp): the 9-line log shown on the display,
 * the flag that makes `loop` redraw it, and `controller`, which scans, then
 * pushes every due reading of the BLE table and then of the HTTP table.
 *
 * The globals of main.cpp become two classes: `LogRing` (the log list, its
 * write index and the redraw flag) and `Gateway` (the configuration, the
 * scanner, the web server and the log together).
 */
module Controller {
  import opened Wrappers
  import opened Units
  import opened JsonDoc
  import opened BleData
  import opened BeaconDecode
  import opened BleScanner
  import opened GatewayConfig
  import opened PushTarget
  import opened WebServer

  const MAX_LOG_ENTRIES: nat := 9

  /** One display log line: a blank slot, or what `addLogEntry` formats. */
  datatype LogLine =
    | Blank
    | Line(time: WallClock, id: string, gravity: real, gravityUnit: string, temp: real, tempUnit: string)

  /**
   * `addLogEntry`'s values: the temperature in Fahrenheit when the format is
   * F, the gravity in Plato when the format is P; the labels are chosen by
   * the C and SG tests.
   */
  function LogLineOf(v: PushSettings, id: string, time: WallClock, gravitySG: real, tempC: real): LogLine
  {
    var temp := if v.tempFormat == 'F' then CtoF(tempC) else tempC;
    var gravity := if v.gravityFormat == 'P' then ToPlato(gravitySG) else gravitySG;
    Line(time, id, gravity, if v.gravityFormat == 'G' then "SG" else "P", temp, if v.tempFormat == 'C' then "C" else "F")
  }

  /**
   * With a valid gravity format and a C/F temperature format, each logged
   * value is in the unit its label names: SG as given or Plato converted,
   * Celsius as given or a Fahrenheit value that converts back.
   */
  lemma LogValuesMatchLabels(v: PushSettings, id: string, time: WallClock, gravitySG: real, tempC: real)
    requires ValidGravityFormat(v.gravityFormat) && (v.tempFormat == 'C' || v.tempFormat == 'F')
    ensures var l := LogLineOf(v, id, time, gravitySG, tempC);
      && l.Line? && l.id == id && l.time == time
      && (l.gravityUnit == "SG" <==> v.gravityFormat == 'G')
      && (l.gravityUnit == "SG" ==> l.gravity == gravitySG)
      && (l.gravityUnit != "SG" ==> l.gravityUnit == "P" && l.gravity == ToPlato(gravitySG))
      && (l.tempUnit == "C" <==> v.tempFormat == 'C')
      && (l.tempUnit == "C" ==> l.temp == tempC)
      && (l.tempUnit != "C" ==> l.tempUnit == "F" && FtoC(l.temp) == tempC)
  {
    CtoFRoundTrip(tempC);
  }

  // ----------------------------------------------------------- log ring

  /** The `k`-th most recent line of `history`, blank before there were that many. */
  function Recent(history: seq<LogLine>, k: nat): LogLine
  {
    if k < |history| then history[|history| - 1 - k] else Blank
  }

  /** The slot `renderDisplayLogs` shows on line `i + 1`. */
  function ShownSlot(index: int, i: int): (s: int)
    ensures 0 <= s < MAX_LOG_ENTRIES as int
  {
    (index - 1 - i) % MAX_LOG_ENTRIES
  }

  /**
   * The display walks every slot exactly once: the walk is its own inverse,
   * so slot `s` is on line `ShownSlot(index, s)`, and on no other.
   */
  lemma RenderVisitsEachSlotOnce(index: int)
    requires 0 <= index < MAX_LOG_ENTRIES as int
    ensures forall s :: 0 <= s < MAX_LOG_ENTRIES as int ==> ShownSlot(index, ShownSlot(index, s)) == s
    ensures forall i, j :: 0 <= i < j < MAX_LOG_ENTRIES as int ==> ShownSlot(index, i) != ShownSlot(index, j)
  {
  }

  /** `logEntryList`, `logIndex` and `logUpdated`. */
  class LogRing {
    const entries: array<LogLine>
    var index: int
    var updated: bool
    /** Every line ever added, oldest first. */
    ghost var history: seq<LogLine>

    /** The slot just before `index` holds the newest line, the one before it the next, and so on. */
    ghost predicate Valid()
      reads this`index, this`history, entries
    {
      && entries.Length == MAX_LOG_ENTRIES
      && 0 <= index < MAX_LOG_ENTRIES as int
      && forall k :: 0 <= k < MAX_LOG_ENTRIES ==> entries[ShownSlot(index, k)] == Recent(history, k)
    }

    /** Nine blank lines, index 0, and the flag set so the first `loop` draws them. */
    constructor()
      ensures Valid() && fresh(entries)
      ensures history == [] && index == 0 && updated
    {
      entries := new LogLine[MAX_LOG_ENTRIES](_ => Blank);
      index := 0;
      updated := true;
      history := [];
    }

    /** The write half of `addLogEntry`: store at `index`, advance it modulo 9, set the flag. */
    method Add(line: LogLine)
      requires Valid()
      modifies this, entries
      ensures Valid()
      ensures history == old(history) + [line] && updated
      ensures index == (old(index) + 1) % MAX_LOG_ENTRIES
      ensures entries[..] == old(entries[..])[old(index) := line]
    {
      entries[index] := line;
      updated := true;
      index := index + 1;
      if index >= MAX_LOG_ENTRIES {
        index := 0;
      }
      history := history + [line];
      forall k | 0 <= k < MAX_LOG_ENTRIES
        ensures entries[ShownSlot(index, k)] == Recent(history, k)
      {
        if k > 0 {
          assert ShownSlot(index, k) == ShownSlot(old(index), k - 1);
        }
      }
    }

    /** `renderDisplayLogs`: line `i + 1` shows slot `(index - 1 - i) mod 9`, newest line first. */
    method Render() returns (shown: seq<LogLine>)
      requires Valid()
      ensures |shown| == MAX_LOG_ENTRIES
      ensures forall i :: 0 <= i < MAX_LOG_ENTRIES ==> shown[i] == entries[ShownSlot(index, i)]
      ensures forall i :: 0 <= i < MAX_LOG_ENTRIES ==> shown[i] == Recent(history, i)
    {
      shown := [];
      var j := index;
      for i := 0 to MAX_LOG_ENTRIES
        invariant |shown| == i
        invariant 0 <= j < MAX_LOG_ENTRIES as int && j == (index - i) % MAX_LOG_ENTRIES
        invariant forall m :: 0 <= m < i ==> shown[m] == entries[ShownSlot(index, m)]
      {
        j := j - 1;
        if j < 0 {
          j := MAX_LOG_ENTRIES - 1;
        }
        shown := shown + [entries[j]];
      }
    }

    /** The tail of `loop`: redraw the log only when the flag is set, then clear it. */
    method Refresh() returns (shown: Option<seq<LogLine>>)
      requires Valid()
      modifies this`updated
      ensures Valid() && !updated
      ensures shown.Some? <==> old(updated)
      ensures shown.Some? ==> |shown.value| == MAX_LOG_ENTRIES
      ensures shown.Some? ==> forall i :: 0 <= i < MAX_LOG_ENTRIES ==> shown.value[i] == Recent(history, i)
    {
      shown := Option.None;
      if updated {
        var lines := Render();
        shown := Some(lines);
        updated := false;
      }
    }
  }

  // ------------------------------------------------------- push selection

  /** `gmd.updated && gmd.getPushAge() > getPushResendTime()`, compared as unsigned. */
  predicate Due(d: GravitymonData, now: u32, resend: i32)
  {
    d.updated && d.PushAge(now) > ToUnsigned(resend)
  }

  /** A negative resend time compares as at least 2^31 seconds, which no age reaches: nothing is ever pushed. */
  lemma NegativeResendNeverDue(d: GravitymonData, now: u32, resend: i32)
    requires resend < 0
    ensures !Due(d, now, resend)
  {
  }

  /** A slot pushed at `now` is not due again at `now`, whatever the resend time. */
  lemma PushedNotDue(d: GravitymonData, now: u32, resend: i32)
    ensures !Due(d.SetPushed(now), now, resend)
    ensures d.SetPushed(now).points == d.points
  {
  }

  function PushIfDue(d: GravitymonData, now: u32, resend: i32): GravitymonData
  {
    if Due(d, now, resend) then d.SetPushed(now) else d
  }

  /** The table after one pass: every due slot marked pushed, all others untouched. */
  function Pushed(table: seq<GravitymonData>, now: u32, resend: i32): (r: seq<GravitymonData>)
    ensures |r| == |table|
  {
    seq(|table|, i requires 0 <= i < |table| => PushIfDue(table[i], now, resend))
  }

  /** The due slots, in index order. */
  function DueSlots(table: seq<GravitymonData>, now: u32, resend: i32): (r: seq<GravitymonData>)
    ensures |r| <= |table|
    decreases |table|
  {
    if table == [] then []
    else
      var last := table[|table| - 1];
      DueSlots(table[..|table| - 1], now, resend) + (if Due(last, now, resend) then [last] else [])
  }

  /** A slot is pushed exactly when it is updated and its push age exceeds the resend time. */
  lemma {:induction false} DueSlotsIff(table: seq<GravitymonData>, now: u32, resend: i32, d: GravitymonData)
    ensures d in DueSlots(table, now, resend) <==> d in table && Due(d, now, resend)
    decreases |table|
  {
    if table != [] {
      var init := table[..|table| - 1];
      DueSlotsIff(init, now, resend, d);
      assert table == init + [table[|table| - 1]];
    }
  }

  /** A second pass at the same instant pushes nothing. */
  lemma {:induction false} NoRepushAtSameInstant(table: seq<GravitymonData>, now: u32, resend: i32)
    ensures DueSlots(Pushed(table, now, resend), now, resend) == []
    decreases |table|
  {
    if table != [] {
      var init := table[..|table| - 1];
      NoRepushAtSameInstant(init, now, resend);
      assert Pushed(table, now, resend)[..|table| - 1] == Pushed(init, now, resend);
      PushedNotDue(table[|table| - 1], now, resend);
    }
  }

  /** Marking slots pushed keeps every id, so the table stays well formed. */
  lemma PushedKeepsIds(table: seq<GravitymonData>, now: u32, resend: i32)
    ensures Ids(Pushed(table, now, resend)) == Ids(table)
  {
    forall i | 0 <= i < |table|
      ensures Ids(Pushed(table, now, resend))[i] == Ids(table)[i]
    {
      PushedNotDue(table[i], now, resend);
    }
  }

  /** The reading `sendAll` is given for a slot. */
  function ReadingOf(d: GravitymonData): PushReading
  {
    PushReading(d.points.angle, d.points.gravity, d.points.tempC, d.points.battery, d.points.interval,
                d.points.id, d.points.token, d.points.name)
  }

  /** The engine values `sendAll` sets up for a slot. */
  function Vals(v: PushSettings, d: GravitymonData, wifiRssi: int, build: BuildInfo): map<Placeholder, TplValue>
  {
    Populate(map[], v, ReadingOf(d), wifiRssi, build)
  }

  /** Everything sent for the slots `due`, one `sendAll` each, in order. */
  function SendsFor(due: seq<GravitymonData>, t: Targets, v: PushSettings, stored: Templates -> Option<string>,
                    wifiRssi: int, build: BuildInfo): seq<Delivery>
    decreases |due|
  {
    if due == [] then []
    else
      SendsFor(due[..|due| - 1], t, v, stored, wifiRssi, build) +
      Deliveries(t, stored, Vals(v, due[|due| - 1], wifiRssi, build))
  }

  /** Something is sent exactly when a slot is due and some target is configured. */
  lemma {:induction false} SendsForEmptyIff(due: seq<GravitymonData>, t: Targets, v: PushSettings,
                                            stored: Templates -> Option<string>, wifiRssi: int, build: BuildInfo)
    ensures SendsFor(due, t, v, stored, wifiRssi, build) == [] <==>
      due == [] || t == Targets(false, false, false, false, false)
    decreases |due|
  {
    if due != [] {
      SendsForEmptyIff(due[..|due| - 1], t, v, stored, wifiRssi, build);
      PushActiveIffSomeDelivery(t, stored, Vals(v, due[|due| - 1], wifiRssi, build));
    }
  }

  /** The log lines for the slots `due`, in order. */
  function LogsFor(due: seq<GravitymonData>, v: PushSettings): (r: seq<LogLine>)
    ensures |r| == |due|
    ensures forall i :: 0 <= i < |due| ==> r[i].Line? && r[i].id == due[i].points.id
    decreases |due|
  {
    if due == [] then []
    else
      var last := due[|due| - 1];
      LogsFor(due[..|due| - 1], v) + [LogLineOf(v, last.points.id, last.timeinfoUpdated, last.points.gravity, last.points.tempC)]
  }

  /** Extending the table by one slot extends the due slots by that slot when it is due. */
  lemma DueSlotsSnoc(table: seq<GravitymonData>, i: nat, now: u32, resend: i32)
    requires i < |table|
    ensures DueSlots(table[..i + 1], now, resend) ==
      DueSlots(table[..i], now, resend) + (if Due(table[i], now, resend) then [table[i]] else [])
  {
    assert table[..i + 1][..i] == table[..i];
  }

  lemma SendsForSnoc(due: seq<GravitymonData>, d: GravitymonData, t: Targets, v: PushSettings,
                     stored: Templates -> Option<string>, wifiRssi: int, build: BuildInfo)
    ensures SendsFor(due + [d], t, v, stored, wifiRssi, build) ==
      SendsFor(due, t, v, stored, wifiRssi, build) + Deliveries(t, stored, Vals(v, d, wifiRssi, build))
  {
    assert (due + [d])[..|due|] == due;
  }

  lemma LogsForSnoc(due: seq<GravitymonData>, d: GravitymonData, v: PushSettings)
    ensures LogsFor(due + [d], v) ==
      LogsFor(due, v) + [LogLineOf(v, d.points.id, d.timeinfoUpdated, d.points.gravity, d.points.tempC)]
  {
    assert (due + [d])[..|due|] == due;
  }

  /** What one more slot adds to the sends of a prefix. */
  lemma SendsForStep(table: seq<GravitymonData>, i: nat, now: u32, resend: i32, t: Targets, v: PushSettings,
                     stored: Templates -> Option<string>, wifiRssi: int, build: BuildInfo)
    requires i < |table|
    ensures SendsFor(DueSlots(table[..i + 1], now, resend), t, v, stored, wifiRssi, build) ==
      SendsFor(DueSlots(table[..i], now, resend), t, v, stored, wifiRssi, build) +
      (if Due(table[i], now, resend) then Deliveries(t, stored, Vals(v, table[i], wifiRssi, build)) else [])
  {
    DueSlotsSnoc(table, i, now, resend);
    if Due(table[i], now, resend) {
      SendsForSnoc(DueSlots(table[..i], now, resend), table[i], t, v, stored, wifiRssi, build);
    } else {
      assert DueSlots(table[..i + 1], now, resend) == DueSlots(table[..i], now, resend);
    }
  }

  /**
   * The body of a `controller` loop for slot `i`: a due slot is logged, sent
   * to every configured target and marked pushed; any other slot is left alone.
   */
  method ProcessSlot(table: array<GravitymonData>, i: nat, log: LogRing, cfg: GravmonGatewayConfig, push: GravmonGatewayPush,
                     now: u32, wifiRssi: int, build: BuildInfo, stored: Templates -> Option<string>)
    returns (sent: seq<Delivery>)
    requires i < table.Length && log.Valid()
    modifies table, log, log.entries, push`baseTemplate
    ensures log.Valid()
    ensures var d := old(table[i]);
      && table[..] == old(table[..])[i := PushIfDue(d, now, cfg.pushResendTime)]
      && sent == (if Due(d, now, cfg.pushResendTime)
                  then Deliveries(cfg.targets, stored, Vals(cfg.PushView(), d, wifiRssi, build))
                  else [])
      && log.history == old(log.history) +
           (if Due(d, now, cfg.pushResendTime)
            then [LogLineOf(cfg.PushView(), d.points.id, d.timeinfoUpdated, d.points.gravity, d.points.tempC)]
            else [])
      && log.updated == (old(log.updated) || Due(d, now, cfg.pushResendTime))
  {
    sent := [];
    var gmd := table[i];
    if gmd.updated && gmd.PushAge(now) > ToUnsigned(cfg.pushResendTime) {
      log.Add(LogLineOf(cfg.PushView(), gmd.points.id, gmd.timeinfoUpdated, gmd.points.gravity, gmd.points.tempC));
      sent := push.SendAll(cfg, ReadingOf(gmd), wifiRssi, build, stored);
      table[i] := gmd.SetPushed(now);
    }
  }

  /** What one pass over a table depends on besides the table. */
  datatype PushContext = PushContext(now: u32, resend: i32, targets: Targets, view: PushSettings,
                                     stored: Templates -> Option<string>, wifiRssi: int, build: BuildInfo)

  /** The table after the first `i` slots of `before` were processed: those pushed if due, the rest untouched. */
  ghost predicate TableProgress(before: seq<GravitymonData>, i: nat, table: seq<GravitymonData>, now: u32, resend: i32)
  {
    && i <= |before| == |table|
    && (forall k :: 0 <= k < i ==> table[k] == PushIfDue(before[k], now, resend))
    && (forall k :: i <= k < |table| ==> table[k] == before[k])
  }

  /** The sends of the first `i` slots. */
  ghost predicate SentProgress(before: seq<GravitymonData>, i: nat, sent: seq<Delivery>, c: PushContext)
  {
    i <= |before| && sent == SendsFor(DueSlots(before[..i], c.now, c.resend), c.targets, c.view, c.stored, c.wifiRssi, c.build)
  }

  /** The log lines of the first `i` slots, appended to what was there (`history0`, `updated0`). */
  ghost predicate LogProgress(before: seq<GravitymonData>, i: nat, history: seq<LogLine>, updated: bool,
                              history0: seq<LogLine>, updated0: bool, c: PushContext)
  {
    && i <= |before|
    && history == history0 + LogsFor(DueSlots(before[..i], c.now, c.resend), c.view)
    && updated == (updated0 || DueSlots(before[..i], c.now, c.resend) != [])
  }

  /** Processing slot `i` advances the table by one slot. */
  lemma TableStep(before: seq<GravitymonData>, i: nat, table: seq<GravitymonData>, table': seq<GravitymonData>, now: u32, resend: i32)
    requires i < |before| && TableProgress(before, i, table, now, resend)
    requires table' == table[i := PushIfDue(before[i], now, resend)]
    ensures TableProgress(before, i + 1, table', now, resend)
  {
  }

  /** Sending for slot `i` as `ProcessSlot` does advances the sends by one slot. */
  lemma SentStep(before: seq<GravitymonData>, i: nat, sent: seq<Delivery>, s: seq<Delivery>, c: PushContext)
    requires i < |before| && SentProgress(before, i, sent, c)
    requires s == (if Due(before[i], c.now, c.resend)
                   then Deliveries(c.targets, c.stored, Vals(c.view, before[i], c.wifiRssi, c.build)) else [])
    ensures SentProgress(before, i + 1, sent + s, c)
  {
    SendsForStep(before, i, c.now, c.resend, c.targets, c.view, c.stored, c.wifiRssi, c.build);
  }

  /** Logging slot `i` as `ProcessSlot` does advances the log by one slot. */
  lemma LogStep(before: seq<GravitymonData>, i: nat, history: seq<LogLine>, history': seq<LogLine>,
                updated: bool, updated': bool, history0: seq<LogLine>, updated0: bool, c: PushContext)
    requires i < |before| && LogProgress(before, i, history, updated, history0, updated0, c)
    requires var d := before[i];
      && history' == history +
           (if Due(d, c.now, c.resend)
            then [LogLineOf(c.view, d.points.id, d.timeinfoUpdated, d.points.gravity, d.points.tempC)]
            else [])
      && updated' == (updated || Due(d, c.now, c.resend))
    ensures LogProgress(before, i + 1, history', updated', history0, updated0, c)
  {
    DueSlotsSnoc(before, i, c.now, c.resend);
    var due := DueSlots(before[..i], c.now, c.resend);
    if Due(before[i], c.now, c.resend) {
      LogsForSnoc(due, before[i], c.view);
    } else {
      assert DueSlots(before[..i + 1], c.now, c.resend) == due;
    }
  }

  /** A completed pass over the table is `Pushed`. */
  lemma TableDone(before: seq<GravitymonData>, table: seq<GravitymonData>, now: u32, resend: i32)
    requires TableProgress(before, |before|, table, now, resend)
    ensures table == Pushed(before, now, resend)
  {
    var p := Pushed(before, now, resend);
    assert |table| == |p|;
    forall k | 0 <= k < |table|
      ensures table[k] == p[k]
    {
    }
  }

  /** A completed pass has sent for exactly the due slots. */
  lemma SentDone(before: seq<GravitymonData>, sent: seq<Delivery>, c: PushContext)
    requires SentProgress(before, |before|, sent, c)
    ensures sent == SendsFor(DueSlots(before, c.now, c.resend), c.targets, c.view, c.stored, c.wifiRssi, c.build)
  {
    WholePrefix(before);
  }

  /** A completed pass has logged exactly the due slots. */
  lemma LogDone(before: seq<GravitymonData>, history: seq<LogLine>, updated: bool,
                history0: seq<LogLine>, updated0: bool, c: PushContext)
    requires LogProgress(before, |before|, history, updated, history0, updated0, c)
    ensures history == history0 + LogsFor(DueSlots(before, c.now, c.resend), c.view)
    ensures updated == (updated0 || DueSlots(before, c.now, c.resend) != [])
  {
    WholePrefix(before);
  }

  lemma WholePrefix<T>(s: seq<T>)
    ensures s[..|s|] == s
  {
  }

  /**
   * One of the two loops of `controller`: for each slot in index order, a
   * due slot is logged, sent to every configured target and marked pushed.
   */
  method ProcessTable(table: array<GravitymonData>, log: LogRing, cfg: GravmonGatewayConfig, push: GravmonGatewayPush,
                      now: u32, wifiRssi: int, build: BuildInfo, stored: Templates -> Option<string>)
    returns (sent: seq<Delivery>)
    requires table.Length == NO_GRAVITYMON && log.Valid()
    modifies table, log, log.entries, push`baseTemplate
    ensures log.Valid()
    ensures table[..] == Pushed(old(table[..]), now, cfg.pushResendTime)
    ensures var due := DueSlots(old(table[..]), now, cfg.pushResendTime);
      && sent == SendsFor(due, cfg.targets, cfg.PushView(), stored, wifiRssi, build)
      && log.history == old(log.history) + LogsFor(due, cfg.PushView())
      && log.updated == (old(log.updated) || due != [])
  {
    ghost var before := table[..];
    ghost var c := PushContext(now, cfg.pushResendTime, cfg.targets, cfg.PushView(), stored, wifiRssi, build);
    sent := [];
    for i := 0 to NO_GRAVITYMON
      invariant log.Valid()
      invariant TableProgress(before, i, table[..], now, c.resend)
      invariant SentProgress(before, i, sent, c)
      invariant LogProgress(before, i, log.history, log.updated, old(log.history), old(log.updated), c)
    {
      ghost var t0, h0, u0 := table[..], log.history, log.updated;
      var s := ProcessSlot(table, i, log, cfg, push, now, wifiRssi, build, stored);
      TableStep(before, i, t0, table[..], now, c.resend);
      SentStep(before, i, sent, s, c);
      LogStep(before, i, h0, log.history, u0, log.updated, old(log.history), old(log.updated), c);
      sent := sent + s;
    }
    TableDone(before, table[..], now, c.resend);
    SentDone(before, sent, c);
    LogDone(before, log.history, log.updated, old(log.history), old(log.updated), c);
  }

  // ------------------------------------------------------------- gateway

  /**
   * The BLE table after `scan` and `waitForScan`: cleared when a scanner
   * exists and no scan was running (whether or not the new one starts), then
   * the readings heard during the scan stored, then the connect queue,
   * extended by the devices heard, drained.
   */
  function AfterScan(table: seq<GravitymonData>, hasScanner: bool, scanning: bool, startOk: bool, queue: seq<BleAddress>,
                     advs: seq<Advertisement>, parse: string -> Parse, env: nat -> ConnectScenario,
                     now: u32, wall: Option<WallClock>): seq<GravitymonData>
    requires forall a :: a in advs ==> Deliverable(a)
  {
    if !hasScanner then table
    else
      var heard := Heard(hasScanner, scanning, startOk, advs);
      DrainQueue(ScanTable(if scanning then table else ClearGravitymon(table), heard, parse, now, wall),
                 ScanQueue(queue, heard), env, 0, now, wall)
  }

  /**
   * The Tilt slots after `scan` and `waitForScan`: their flags cleared when a
   * scanner exists and no scan was running, then the Tilt frames heard stored.
   */
  function AfterScanTilt(tilt: seq<TiltData>, hasScanner: bool, scanning: bool, startOk: bool,
                         advs: seq<Advertisement>, now: u32, wall: Option<WallClock>): seq<TiltData>
    requires |tilt| == NO_TILT_COLORS
  {
    if !hasScanner then tilt
    else ScanTilt(if scanning then tilt else ClearTilt(tilt), Heard(hasScanner, scanning, startOk, advs), now, wall)
  }

  /**
   * A GravityMon iBeacon heard while the scan runs is in the table the same
   * pass pushes, marked updated, whatever the queued connect sessions do.
   */
  lemma HeardBeaconUpdated(table: seq<GravitymonData>, scanning: bool, startOk: bool, queue: seq<BleAddress>,
                           adv: Advertisement, parse: string -> Parse, env: nat -> ConnectScenario,
                           now: u32, wall: Option<WallClock>)
    requires scanning || startOk
    requires Route(adv) == [ToGravitymonIBeacon]
    requires FindSlot(Ids(table), DecodeGravitymonIBeacon(adv.manufacturerData).chipId) >= 0
    ensures Deliverable(adv)
    ensures var k := FindSlot(Ids(table), DecodeGravitymonIBeacon(adv.manufacturerData).chipId);
      AfterScan(table, true, scanning, startOk, queue, [adv], parse, env, now, wall)[k].updated
  {
    var start := if scanning then table else ClearGravitymon(table);
    ClearGravitymonKeepsIds(table);
    assert Ids(start) == Ids(table);
    HeardIBeaconSurvivesDrain(start, queue, adv, parse, env, now, wall);
    assert Heard(true, scanning, startOk, [adv]) == [adv];
  }

  /** The firmware's global objects. */
  class Gateway {
    const config: GravmonGatewayConfig
    const scanner: BleScanner
    const web: GravmonGatewayWebServer
    const log: LogRing

    /** Each part is valid and the two device tables are distinct arrays. */
    ghost predicate Valid()
      reads this, config, scanner, scanner.gravitymon, web, web.gravitymon, log`index, log`history, log.entries
    {
      && config.Valid() && scanner.Valid() && web.Valid() && log.Valid()
      && scanner.gravitymon != web.gravitymon
    }

    constructor(baseMdns: string, baseTempFormat: char, baseTargets: Targets, files: map<Templates, string>)
      ensures Valid()
      ensures fresh(scanner.gravitymon) && fresh(web.gravitymon) && fresh(log.entries)
      ensures log.history == [] && web.templates == files
    {
      config := new GravmonGatewayConfig(baseMdns, baseTempFormat, baseTargets);
      scanner := new BleScanner();
      web := new GravmonGatewayWebServer(files);
      log := new LogRing();
    }

    /** `addLogEntry`, with the units of the current configuration. */
    method AddLogEntry(id: string, time: WallClock, gravitySG: real, tempC: real)
      requires Valid()
      modifies log, log.entries
      ensures Valid()
      ensures log.history == old(log.history) + [LogLineOf(config.PushView(), id, time, gravitySG, tempC)]
      ensures log.updated
    {
      log.Add(LogLineOf(config.PushView(), id, time, gravitySG, tempC));
    }

    /**
     * A remote post writes only the HTTP table: the BLE tables are
     * untouched, so the two registries never see each other's devices.
     */
    method RemotePost(obj: JsonObject, now: u32, wall: Option<WallClock>) returns (statuses: seq<int>)
      requires Valid()
      modifies web.gravitymon
      ensures Valid()
      ensures unchanged(scanner.gravitymon) && unchanged(scanner.tilt)
      ensures var p := DecodeRemotePost(obj);
        web.gravitymon[..] == Upsert(old(web.gravitymon[..]), p.id, HttpWrite(p, now, wall))
    {
      statuses := web.HandleRemotePost(obj, now, wall);
    }

    /**
     * The first two calls of `controller`, results ignored: `scan`, the
     * callbacks of the BLE stack for the advertisements `advs` on air while
     * the scan runs, and `waitForScan`. `parse` is the JSON deserialiser.
     */
    method ScanAndWait(startOk: bool, advs: seq<Advertisement>, parse: string -> Parse,
                       env: nat -> ConnectScenario, now: u32, wall: Option<WallClock>)
      requires Valid()
      requires forall a :: a in advs ==> Deliverable(a)
      modifies scanner`scanning, scanner`doConnect, scanner.tilt, scanner.gravitymon
      ensures Valid()
      ensures scanner.gravitymon[..] == AfterScan(old(scanner.gravitymon[..]), scanner.hasScanner, old(scanner.scanning), startOk,
                                                  old(scanner.doConnect), advs, parse, env, now, wall)
      ensures scanner.tilt[..] == AfterScanTilt(old(scanner.tilt[..]), scanner.hasScanner, old(scanner.scanning), startOk,
                                                advs, now, wall)
      ensures scanner.hasScanner ==> !scanner.scanning && scanner.doConnect == []
      ensures !scanner.hasScanner ==> scanner.scanning == old(scanner.scanning) && scanner.doConnect == old(scanner.doConnect)
    {
      var heard := scanner.ScanHearing(startOk, advs, parse, now, wall);
      ghost var scanned := scanner.gravitymon[..];
      ghost var queued := scanner.doConnect;
      var _ := scanner.WaitForScan(env, now, wall);
      if scanner.hasScanner {
        assert scanner.gravitymon[..] == DrainQueue(scanned, queued, env, 0, now, wall);
      } else {
        assert heard == [];
        assert scanner.tilt[..] == old(scanner.tilt[..]);
        assert scanner.gravitymon[..] == old(scanner.gravitymon[..]);
      }
    }

    /** The two push loops of `controller`: the BLE table first, then the HTTP table. */
    method PushAll(now: u32, wifiRssi: int, build: BuildInfo) returns (sent: seq<Delivery>)
      requires Valid()
      modifies scanner.gravitymon, web.gravitymon, log, log.entries
      ensures Valid()
      ensures var resend := config.pushResendTime;
        var bleDue := DueSlots(old(scanner.gravitymon[..]), now, resend);
        var webDue := DueSlots(old(web.gravitymon[..]), now, resend);
        && scanner.gravitymon[..] == Pushed(old(scanner.gravitymon[..]), now, resend)
        && web.gravitymon[..] == Pushed(old(web.gravitymon[..]), now, resend)
        && sent == SendsFor(bleDue, config.targets, config.PushView(), web.Stored(), wifiRssi, build) +
                   SendsFor(webDue, config.targets, config.PushView(), web.Stored(), wifiRssi, build)
        && log.history == old(log.history) + LogsFor(bleDue, config.PushView()) + LogsFor(webDue, config.PushView())
        && log.updated == (old(log.updated) || bleDue != [] || webDue != [])
    {
      var push := new GravmonGatewayPush();
      ghost var bleTable := scanner.gravitymon[..];
      var bleSent := ProcessTable(scanner.gravitymon, log, config, push, now, wifiRssi, build, web.Stored());
      PushedKeepsIds(bleTable, now, config.pushResendTime);
      ghost var webTable := web.gravitymon[..];
      var webSent := ProcessTable(web.gravitymon, log, config, push, now, wifiRssi, build, web.Stored());
      PushedKeepsIds(webTable, now, config.pushResendTime);
      sent := bleSent + webSent;
    }

    /**
     * `controller`: scan, wait for the scan and drain the connect queue,
     * then push the due slots of the BLE table and then of the HTTP table.
     * `startOk` is whether the BLE stack starts the scan, `env` the outcome
     * of each queued connect.
     */
    method Run(startOk: bool, advs: seq<Advertisement>, parse: string -> Parse, env: nat -> ConnectScenario,
               now: u32, wall: Option<WallClock>, wifiRssi: int, build: BuildInfo)
      returns (sent: seq<Delivery>)
      requires Valid()
      requires forall a :: a in advs ==> Deliverable(a)
      modifies scanner`scanning, scanner`doConnect, scanner.tilt, scanner.gravitymon, web.gravitymon, log, log.entries
      ensures Valid()
      ensures var resend := config.pushResendTime;
        var bleTable := AfterScan(old(scanner.gravitymon[..]), scanner.hasScanner, old(scanner.scanning), startOk,
                                  old(scanner.doConnect), advs, parse, env, now, wall);
        var bleDue := DueSlots(bleTable, now, resend);
        var webDue := DueSlots(old(web.gravitymon[..]), now, resend);
        && scanner.gravitymon[..] == Pushed(bleTable, now, resend)
        && web.gravitymon[..] == Pushed(old(web.gravitymon[..]), now, resend)
        && sent == SendsFor(bleDue, config.targets, config.PushView(), web.Stored(), wifiRssi, build) +
                   SendsFor(webDue, config.targets, config.PushView(), web.Stored(), wifiRssi, build)
        && log.history == old(log.history) + LogsFor(bleDue, config.PushView()) + LogsFor(webDue, config.PushView())
        && log.updated == (old(log.updated) || bleDue != [] || webDue != [])
      ensures scanner.tilt[..] == AfterScanTilt(old(scanner.tilt[..]), scanner.hasScanner, old(scanner.scanning), startOk,
                                                advs, now, wall)
      ensures scanner.hasScanner ==> !scanner.scanning && scanner.doConnect == []
      ensures !scanner.hasScanner ==> scanner.scanning == old(scanner.scanning) && scanner.doConnect == old(scanner.doConnect)
    {
      ScanAndWait(startOk, advs, parse, env, now, wall);
      sent := PushAll(now, wifiRssi, build);
    }

    /**
     * `loop` in gateway mode: the web server's push-test step, `controller`,
     * then the log redraw when the flag is set. WiFi reconnects and uptime
     * are not part of this model.
     */
    method Loop(deviceId: string, outcome: PushOutcome, startOk: bool, advs: seq<Advertisement>, parse: string -> Parse,
                env: nat -> ConnectScenario, now: u32, wall: Option<WallClock>, wifiRssi: int, build: BuildInfo)
      returns (tested: Option<Delivery>, sent: seq<Delivery>, shown: Option<seq<LogLine>>)
      requires Valid()
      requires forall a :: a in advs ==> Deliverable(a)
      modifies web`pushTestTask, web`pushTestEnabled, web`pushTestLastSuccess, web`pushTestLastCode
      modifies scanner`scanning, scanner`doConnect, scanner.tilt, scanner.gravitymon, web.gravitymon, log, log.entries
      ensures Valid() && !log.updated
      ensures shown.Some? <==> old(log.updated) || log.history != old(log.history)
      ensures shown.Some? ==> |shown.value| == MAX_LOG_ENTRIES
      ensures shown.Some? ==> forall i :: 0 <= i < MAX_LOG_ENTRIES ==> shown.value[i] == Recent(log.history, i)
      ensures !old(web.pushTestTask) ==> tested.None? && !web.pushTestTask && web.pushTestEnabled == old(web.pushTestEnabled)
      ensures !old(web.pushTestTask) ==>
        web.pushTestLastSuccess == old(web.pushTestLastSuccess) && web.pushTestLastCode == old(web.pushTestLastCode)
      ensures old(web.pushTestTask) ==>
        !web.pushTestTask && web.pushTestLastSuccess == outcome.success && web.pushTestLastCode == outcome.code
      ensures old(web.pushTestTask) ==>
        web.pushTestEnabled == (old(web.pushTestEnabled) || TestSink(web.pushTestTarget, config.targets).Some?)
      ensures old(web.pushTestTask) ==>
        tested == TestDelivery(web.pushTestTarget, config.targets, config.PushView(), web.Stored(), deviceId, wifiRssi, build)
      ensures var resend := config.pushResendTime;
        var bleTable := AfterScan(old(scanner.gravitymon[..]), scanner.hasScanner, old(scanner.scanning), startOk,
                                  old(scanner.doConnect), advs, parse, env, now, wall);
        var bleDue := DueSlots(bleTable, now, resend);
        var webDue := DueSlots(old(web.gravitymon[..]), now, resend);
        && scanner.gravitymon[..] == Pushed(bleTable, now, resend)
        && web.gravitymon[..] == Pushed(old(web.gravitymon[..]), now, resend)
        && sent == SendsFor(bleDue, config.targets, config.PushView(), web.Stored(), wifiRssi, build) +
                   SendsFor(webDue, config.targets, config.PushView(), web.Stored(), wifiRssi, build)
        && log.history == old(log.history) + LogsFor(bleDue, config.PushView()) + LogsFor(webDue, config.PushView())
      ensures scanner.tilt[..] == AfterScanTilt(old(scanner.tilt[..]), scanner.hasScanner, old(scanner.scanning), startOk,
                                                advs, now, wall)
      ensures scanner.hasScanner ==> !scanner.scanning && scanner.doConnect == []
      ensures !scanner.hasScanner ==> scanner.scanning == old(scanner.scanning) && scanner.doConnect == old(scanner.doConnect)
    {
      tested := web.Loop(config, deviceId, wifiRssi, build, outcome);
      ghost var test := (web.pushTestTask, web.pushTestEnabled, web.pushTestLastSuccess, web.pushTestLastCode);
      sent := Run(startOk, advs, parse, env, now, wall, wifiRssi, build);
      assert (web.pushTestTask, web.pushTestEnabled, web.pushTestLastSuccess, web.pushTestLastCode) == test;
      shown := log.Refresh();
    }
  }
}
