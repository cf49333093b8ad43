/**
 * The records and tables declared in blescanner.hpp: the Tilt colour enum,
 * one record per Tilt colour, one record per GravityMon device, their
 * update/push bookkeeping and the first-match-or-empty slot lookup shared by
 * the BLE scanner's table and the web server's table.
 */
module BleData {
  import opened Wrappers
  import opened Units

  /** Number of Tilt devices that can be managed (one per colour). */
  const NO_TILT_COLORS: nat := 8
  /** Number of GravityMon devices each table can hold. */
  const NO_GRAVITYMON: nat := 8

  /** The Tilt colour enum; `None` (value -1) means "not a Tilt". */
  datatype TiltColor = None | Red | Green | Black | Purple | Orange | Blue | Yellow | Pink
  {
    /** The enumerator's integer value, which is also the Tilt table index. */
    function Value(): (v: int)
      ensures -1 <= v < NO_TILT_COLORS as int
      ensures v == -1 <==> this == TiltColor.None
    {
      match this
      case None => -1
      case Red => 0
      case Green => 1
      case Black => 2
      case Purple => 3
      case Orange => 4
      case Blue => 5
      case Yellow => 6
      case Pink => 7
    }
  }

  /** The colour whose enumerator value is `v` (a cast `(TiltColor)v`). */
  function ColorOfValue(v: int): (c: TiltColor)
    requires -1 <= v < NO_TILT_COLORS as int
    ensures c.Value() == v
  {
    if v == -1 then TiltColor.None
    else if v == 0 then Red
    else if v == 1 then Green
    else if v == 2 then Black
    else if v == 3 then Purple
    else if v == 4 then Orange
    else if v == 5 then Blue
    else if v == 6 then Yellow
    else Pink
  }

  /** Distinct colours have distinct values, so each colour owns its own table slot. */
  lemma ColorValueInjective(c: TiltColor, d: TiltColor)
    requires c.Value() == d.Value()
    ensures c == d
  {
  }

  /** The `struct tm` filled in by `getLocalTime` (only what the log line shows). */
  datatype WallClock = WallClock(hour: int, minute: int, second: int)

  const MIDNIGHT := WallClock(0, 0, 0)

  /**
   * `getUpdateAge` / `getPushAge`: `(millis() - t) / 1000` computed in
   * `uint32_t`, so the difference wraps around modulo 2^32.
   */
  function AgeSeconds(now: u32, t: u32): (r: nat)
    ensures r <= (TWO_32 - 1) / 1000
    ensures t <= now ==> r == (now - t) / 1000
    ensures now < t ==> r == (now - t + TWO_32) / 1000
  {
    ((now - t) % TWO_32) / 1000
  }

  /** Right after the stamp is taken, the age is 0. */
  lemma AgeZeroAtStamp(t: u32)
    ensures AgeSeconds(t, t) == 0
  {
  }

  /** Without wrap-around, ages do not decrease as the clock advances. */
  lemma {:induction false} AgeMonotone(t: u32, now1: u32, now2: u32)
    requires t <= now1 <= now2
    ensures AgeSeconds(now1, t) <= AgeSeconds(now2, t)
  {
    DivMonotone(now1 - t, now2 - t, 1000);
  }

  lemma {:induction false} DivMonotone(a: nat, b: nat, d: nat)
    requires a <= b && 0 < d
    ensures a / d <= b / d
  {
    if a / d > b / d {
      assert a / d >= b / d + 1;
      calc {
        a;
        >= d * (a / d);
        >= d * (b / d + 1);
        == d * (b / d) + d;
        > b;
      }
    }
  }

  // ---------------------------------------------------------------- Tilt

  /** The measured fields of a Tilt record ("Data points"). */
  datatype TiltPoints = TiltPoints(tempF: real, gravity: real, txPower: int, rssi: int)

  /** `TiltData`: measured fields plus update/push bookkeeping. */
  datatype TiltData = TiltData(
    points: TiltPoints,
    updated: bool,
    timeinfoUpdated: WallClock,
    timeUpdated: u32,
    timePushed: u32)
  {
    /**
     * `setUpdated`: flags the record as fresh and stamps it with the clock;
     * `wall` is what `getLocalTime` stored (None when it failed and left the
     * structure untouched).
     */
    function SetUpdated(now: u32, wall: Option<WallClock>): (d: TiltData)
      ensures d.updated && d.timeUpdated == now && d.UpdateAge(now) == 0
      ensures d.timeinfoUpdated == wall.GetOr(timeinfoUpdated)
      ensures d.points == points && d.timePushed == timePushed
    {
      this.(updated := true, timeUpdated := now, timeinfoUpdated := wall.GetOr(timeinfoUpdated))
    }

    /** `setPushed`: clears the fresh flag and stamps the push time. */
    function SetPushed(now: u32): (d: TiltData)
      ensures !d.updated && d.timePushed == now && d.PushAge(now) == 0
      ensures d.points == points && d.timeUpdated == timeUpdated && d.timeinfoUpdated == timeinfoUpdated
    {
      this.(updated := false, timePushed := now)
    }

    function UpdateAge(now: u32): nat { AgeSeconds(now, timeUpdated) }
    function PushAge(now: u32): nat { AgeSeconds(now, timePushed) }
  }

  const EMPTY_TILT := TiltData(TiltPoints(0.0, 0.0, 0, 0), false, MIDNIGHT, 0, 0)

  // ----------------------------------------------------------- GravityMon

  /** Where a GravityMon reading came from (the `type` string). */
  datatype SourceType = Unset | Beacon | EddyStone | ExtBeacon | Http
  {
    function Name(): string
    {
      match this
      case Unset => ""
      case Beacon => "Beacon"
      case EddyStone => "EddyStone"
      case ExtBeacon => "ExtBeacon"
      case Http => "Http"
    }
  }

  /** An opaque BLE transport address; `NoAddress` is a default-constructed one. */
  datatype BleAddress = NoAddress | Address(value: nat)

  /** The measured fields of a GravityMon record ("Data points"); `id` is the table key. */
  datatype GravitymonPoints = GravitymonPoints(
    tempC: real,
    gravity: real,
    angle: real,
    battery: real,
    txPower: int,
    rssi: int,
    id: string,
    name: string,
    token: string,
    interval: int)

  /** `GravitymonData`: measured fields plus transport, source and bookkeeping. */
  datatype GravitymonData = GravitymonData(
    points: GravitymonPoints,
    address: BleAddress,
    sourceType: SourceType,
    updated: bool,
    timeinfoUpdated: WallClock,
    timeUpdated: u32,
    timePushed: u32)
  {
    function Id(): string { points.id }

    /** `setUpdated`, as for `TiltData`. */
    function SetUpdated(now: u32, wall: Option<WallClock>): (d: GravitymonData)
      ensures d.updated && d.timeUpdated == now && d.UpdateAge(now) == 0
      ensures d.timeinfoUpdated == wall.GetOr(timeinfoUpdated)
      ensures d.points == points && d.address == address && d.sourceType == sourceType
      ensures d.timePushed == timePushed
    {
      this.(updated := true, timeUpdated := now, timeinfoUpdated := wall.GetOr(timeinfoUpdated))
    }

    /** `setPushed`, as for `TiltData`. */
    function SetPushed(now: u32): (d: GravitymonData)
      ensures !d.updated && d.timePushed == now && d.PushAge(now) == 0
      ensures d.points == points && d.address == address && d.sourceType == sourceType
      ensures d.timeUpdated == timeUpdated && d.timeinfoUpdated == timeinfoUpdated
    {
      this.(updated := false, timePushed := now)
    }

    function UpdateAge(now: u32): nat { AgeSeconds(now, timeUpdated) }
    function PushAge(now: u32): nat { AgeSeconds(now, timePushed) }
  }

  const EMPTY_POINTS := GravitymonPoints(0.0, 0.0, 0.0, 0.0, 0, 0, "", "", "", 0)
  const EMPTY_GRAVITYMON := GravitymonData(EMPTY_POINTS, NoAddress, Unset, false, MIDNIGHT, 0, 0)

  // ------------------------------------------------------ slot lookup

  /** The id column of a table. */
  function Ids(table: seq<GravitymonData>): (ids: seq<string>)
    ensures |ids| == |table|
    ensures forall i :: 0 <= i < |table| ==> ids[i] == table[i].points.id
  {
    seq(|table|, i requires 0 <= i < |table| => table[i].points.id)
  }

  /**
   * The slot `findGravitymonId(id)` picks: the first slot whose id equals
   * `id` or is empty, or -1 when there is none.
   */
  function FindSlot(ids: seq<string>, id: string): (r: int)
    ensures -1 <= r < |ids|
    ensures 0 <= r ==> ids[r] == id || ids[r] == ""
    ensures 0 <= r ==> forall j :: 0 <= j < r ==> ids[j] != id && ids[j] != ""
    ensures r == -1 <==> forall j :: 0 <= j < |ids| ==> ids[j] != id && ids[j] != ""
    decreases |ids|
  {
    if ids == [] then -1
    else if ids[0] == id || ids[0] == "" then 0
    else
      var k := FindSlot(ids[1..], id);
      if k < 0 then -1 else k + 1
  }

  /**
   * `findGravitymonId`: the linear scan over the fixed table
   * (blescanner.hpp and webserver.hpp hold the same loop).
   */
  method FindGravitymonId(table: array<GravitymonData>, id: string) returns (idx: int)
    requires table.Length == NO_GRAVITYMON
    ensures idx == FindSlot(Ids(table[..]), id)
    ensures -1 <= idx < NO_GRAVITYMON as int
    ensures 0 <= idx ==> table[idx].points.id == id || table[idx].points.id == ""
    ensures idx == -1 <==> forall j :: 0 <= j < table.Length ==> table[j].points.id != id && table[j].points.id != ""
  {
    for i := 0 to NO_GRAVITYMON
      invariant forall j :: 0 <= j < i ==> table[j].points.id != id && table[j].points.id != ""
    {
      if table[i].points.id == id || table[i].points.id == "" {
        return i;
      }
    }
    return -1;
  }

  // --------------------------------------------------- table invariant

  /**
   * The registry shape every upsert maintains: occupied slots form a prefix
   * of the table and no id occupies two slots.
   */
  ghost predicate WellFormed(ids: seq<string>)
  {
    && (forall i, j :: 0 <= i < j < |ids| && ids[i] == "" ==> ids[j] == "")
    && (forall i, j :: 0 <= i < j < |ids| && ids[i] != "" ==> ids[i] != ids[j])
  }

  /** The id column after storing a reading for `id` at the slot `FindSlot` chose. */
  function UpsertIds(ids: seq<string>, id: string): (r: seq<string>)
    ensures |r| == |ids|
  {
    var k := FindSlot(ids, id);
    if k < 0 then ids else ids[k := id]
  }

  /** A table of empty slots is well formed. */
  lemma EmptyTableWellFormed(ids: seq<string>)
    requires forall i :: 0 <= i < |ids| ==> ids[i] == ""
    ensures WellFormed(ids)
  {
  }

  /** Upserting keeps occupied slots a prefix and ids distinct. */
  lemma {:induction false} UpsertKeepsWellFormed(ids: seq<string>, id: string)
    requires WellFormed(ids)
    ensures WellFormed(UpsertIds(ids, id))
  {
    var k := FindSlot(ids, id);
    if 0 <= k {
      var r := ids[k := id];
      forall i, j | 0 <= i < j < |r| && r[i] == "" ensures r[j] == "" {
        if i == k {
          assert id == "" && ids[k] == "";
        } else if j == k {
          assert false;
        }
      }
      forall i, j | 0 <= i < j < |r| && r[i] != "" ensures r[i] != r[j] {
        if i == k {
          if ids[k] == "" {
            assert ids[j] == "";
            assert r[j] == "";
          } else {
            assert ids[k] == id;
          }
        } else if j == k {
          assert ids[i] != id && ids[i] != "";
        }
      }
    }
  }

  /** In a well-formed table a known id is found at its own slot, never a second one. */
  lemma KnownIdFound(ids: seq<string>, id: string, k: int)
    requires WellFormed(ids)
    requires 0 <= k < |ids| && ids[k] == id && id != ""
    ensures FindSlot(ids, id) == k
    ensures UpsertIds(ids, id) == ids
  {
  }

  /** After a successful upsert the id is present exactly once. */
  lemma UpsertedIdUnique(ids: seq<string>, id: string)
    requires WellFormed(ids) && id != ""
    requires FindSlot(ids, id) >= 0
    ensures var r := UpsertIds(ids, id);
      exists k :: 0 <= k < |r| && r[k] == id && forall j :: 0 <= j < |r| && j != k ==> r[j] != id
  {
    UpsertKeepsWellFormed(ids, id);
    var r := UpsertIds(ids, id);
    var k := FindSlot(ids, id);
    assert r[k] == id;
    forall j | 0 <= j < |r| && j != k ensures r[j] != id {
      if j < k {
      } else {
        assert r[k] != "";
      }
    }
  }

  /**
   * A full table (8 distinct non-empty ids) rejects a 9th unseen id: the
   * lookup answers -1 and nothing is overwritten.
   */
  lemma FullTableRejects(ids: seq<string>, id: string)
    requires |ids| == NO_GRAVITYMON
    requires forall i :: 0 <= i < |ids| ==> ids[i] != "" && ids[i] != id
    ensures FindSlot(ids, id) == -1
    ensures UpsertIds(ids, id) == ids
  {
  }

  /** Querying "" yields the first empty slot, or -1 when the table is full. */
  lemma EmptyQueryFindsFreeSlot(ids: seq<string>)
    ensures var r := FindSlot(ids, "");
      (0 <= r ==> ids[r] == "" && forall j :: 0 <= j < r ==> ids[j] != "")
      && (r == -1 <==> forall j :: 0 <= j < |ids| ==> ids[j] != "")
  {
  }

  /**
   * The table after a reading for `id` is stored: the slot `FindSlot` chose is
   * replaced by `write` of its old contents; a full table is left unchanged.
   */
  function Upsert(table: seq<GravitymonData>, id: string, write: GravitymonData -> GravitymonData): seq<GravitymonData>
  {
    var k := FindSlot(Ids(table), id);
    if k < 0 then table else table[k := write(table[k])]
  }

  /** When the write stores `id` as the key, the id column evolves as `UpsertIds`. */
  lemma UpsertIdColumn(table: seq<GravitymonData>, id: string, write: GravitymonData -> GravitymonData)
    requires forall d :: write(d).points.id == id
    ensures Ids(Upsert(table, id, write)) == UpsertIds(Ids(table), id)
  {
  }
}
