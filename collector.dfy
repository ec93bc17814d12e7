/**
 * The pure part of the data collector: the two status records, the
 * classification of a raw state label as cleaning or idle, the flattening of
 * records into spreadsheet rows, and the mapping from a device status to a
 * cleaning record.
 */
module Collector {
  import opened Wrappers

  // ---------------------------------------------------------------------------
  // Records and spreadsheet cells

  /** One primitive value of a spreadsheet row (`None` in the source is `Null`). */
  datatype Cell = Text(text: string) | Integer(number: int) | Float(amount: real) | Null

  /** One completed (or manually logged) cleaning session. */
  datatype CleaningRecord = CleaningRecord(
    timestamp: string,
    deviceName: string,
    cleanTimeMinutes: int,
    cleanAreaSqm: real,
    batteryStart: Option<int>,
    batteryEnd: Option<int>,
    fanPower: Option<string>,
    waterLevel: Option<string>,
    mopMode: Option<string>,
    state: string,
    errorCode: Option<int>)

  /** One polled snapshot of a device. The area is in square metres and is never computed on. */
  datatype DeviceStatus = DeviceStatus(
    timestamp: string,
    deviceName: string,
    state: string,
    battery: int,
    fanPower: Option<string>,
    waterBoxStatus: Option<int>,
    mopMode: Option<string>,
    errorCode: Option<int>,
    cleanTime: int,
    cleanArea: real)

  const CleaningHistoryHeaders: seq<string> := [
    "Timestamp", "Device Name", "Clean Time (min)", "Clean Area (m²)", "Battery Start (%)",
    "Battery End (%)", "Fan Power", "Water Level", "Mop Mode", "State", "Error Code"]

  const DeviceStatusHeaders: seq<string> := [
    "Timestamp", "Device Name", "State", "Battery (%)", "Fan Power",
    "Water Box Status", "Mop Mode", "Error Code", "Clean Time (min)", "Clean Area (m²)"]

  function TextCell(s: Option<string>): Cell {
    if s.Some? then Text(s.value) else Null
  }

  function IntCell(n: Option<int>): Cell {
    if n.Some? then Integer(n.value) else Null
  }

  /** The field of a cleaning record that the column titled `header` is meant to show. */
  function CleaningColumn(r: CleaningRecord, header: string): Cell {
    match header
    case "Timestamp" => Text(r.timestamp)
    case "Device Name" => Text(r.deviceName)
    case "Clean Time (min)" => Integer(r.cleanTimeMinutes)
    case "Clean Area (m²)" => Float(r.cleanAreaSqm)
    case "Battery Start (%)" => IntCell(r.batteryStart)
    case "Battery End (%)" => IntCell(r.batteryEnd)
    case "Fan Power" => TextCell(r.fanPower)
    case "Water Level" => TextCell(r.waterLevel)
    case "Mop Mode" => TextCell(r.mopMode)
    case "State" => Text(r.state)
    case "Error Code" => IntCell(r.errorCode)
    case _ => Null
  }

  /** The field of a device status that the column titled `header` is meant to show. */
  function StatusColumn(s: DeviceStatus, header: string): Cell {
    match header
    case "Timestamp" => Text(s.timestamp)
    case "Device Name" => Text(s.deviceName)
    case "State" => Text(s.state)
    case "Battery (%)" => Integer(s.battery)
    case "Fan Power" => TextCell(s.fanPower)
    case "Water Box Status" => IntCell(s.waterBoxStatus)
    case "Mop Mode" => TextCell(s.mopMode)
    case "Error Code" => IntCell(s.errorCode)
    case "Clean Time (min)" => Integer(s.cleanTime)
    case "Clean Area (m²)" => Float(s.cleanArea)
    case _ => Null
  }

  /** `CleaningRecord.to_row`: one cell per history header, each under its own title. */
  function CleaningRecordRow(r: CleaningRecord): (row: seq<Cell>)
    ensures |row| == |CleaningHistoryHeaders| == 11
    ensures forall i :: 0 <= i < |row| ==> row[i] == CleaningColumn(r, CleaningHistoryHeaders[i])
  {
    [Text(r.timestamp), Text(r.deviceName), Integer(r.cleanTimeMinutes), Float(r.cleanAreaSqm),
     IntCell(r.batteryStart), IntCell(r.batteryEnd), TextCell(r.fanPower), TextCell(r.waterLevel),
     TextCell(r.mopMode), Text(r.state), IntCell(r.errorCode)]
  }

  /** `DeviceStatus.to_row`: one cell per status header, each under its own title. */
  function DeviceStatusRow(s: DeviceStatus): (row: seq<Cell>)
    ensures |row| == |DeviceStatusHeaders| == 10
    ensures forall i :: 0 <= i < |row| ==> row[i] == StatusColumn(s, DeviceStatusHeaders[i])
  {
    [Text(s.timestamp), Text(s.deviceName), Text(s.state), Integer(s.battery),
     TextCell(s.fanPower), IntCell(s.waterBoxStatus), TextCell(s.mopMode), IntCell(s.errorCode),
     Integer(s.cleanTime), Float(s.cleanArea)]
  }

  // ---------------------------------------------------------------------------
  // State classification

  /** `str.lower` on one character; letters outside ASCII are left as they are. */
  function LowerChar(c: char): char {
    if 'A' <= c <= 'Z' then (c as int + 32) as char else c
  }

  function Lower(s: string): (r: string)
    ensures |r| == |s|
    ensures forall i :: 0 <= i < |s| ==> r[i] == LowerChar(s[i])
  {
    seq(|s|, i requires 0 <= i < |s| => LowerChar(s[i]))
  }

  function LowerAll(labels: seq<string>): (r: seq<string>)
    ensures |r| == |labels|
    ensures forall i :: 0 <= i < |labels| ==> r[i] == Lower(labels[i])
  {
    seq(|labels|, i requires 0 <= i < |labels| => Lower(labels[i]))
  }

  /** The allow-lists as written in the source, mixed case included. */
  const CleaningStates: seq<string> :=
    ["cleaning", "segment_cleaning", "zone_cleaning", "spot_cleaning", "Cleaning", "SegmentCleaning"]
  const IdleStates: seq<string> := ["charger", "idle", "charging", "paused", "Charger", "Idle"]

  lemma LowerKeepsLowercase(s: string)
    requires forall i :: 0 <= i < |s| ==> !('A' <= s[i] <= 'Z')
    ensures Lower(s) == s
  {
  }

  lemma LowerCleaningStates()
    ensures LowerAll(CleaningStates)
         == ["cleaning", "segment_cleaning", "zone_cleaning", "spot_cleaning", "cleaning", "segmentcleaning"]
  {
    LowerKeepsLowercase("cleaning");
    LowerKeepsLowercase("segment_cleaning");
    LowerKeepsLowercase("zone_cleaning");
    LowerKeepsLowercase("spot_cleaning");
    assert Lower("Cleaning") == "cleaning";
    assert Lower("SegmentCleaning") == "segmentcleaning";
  }

  lemma LowerIdleStates()
    ensures LowerAll(IdleStates) == ["charger", "idle", "charging", "paused", "charger", "idle"]
  {
    LowerKeepsLowercase("charger");
    LowerKeepsLowercase("idle");
    LowerKeepsLowercase("charging");
    LowerKeepsLowercase("paused");
    assert Lower("Charger") == "charger";
    assert Lower("Idle") == "idle";
  }

  /** `name in [s.lower() for s in labels]`. */
  predicate InLowered(name: string, labels: seq<string>) {
    |labels| > 0 && (Lower(labels[0]) == name || InLowered(name, labels[1..]))
  }

  lemma {:induction false} InLoweredMeansIn(name: string, labels: seq<string>)
    ensures InLowered(name, labels) <==> name in LowerAll(labels)
  {
    if |labels| > 0 {
      InLoweredMeansIn(name, labels[1..]);
      assert LowerAll(labels) == [Lower(labels[0])] + LowerAll(labels[1..]);
    }
  }

  /** `is_cleaning`: the lowercased label is one of the lowercased cleaning states. */
  predicate IsCleaning(status: DeviceStatus) {
    InLowered(Lower(status.state), CleaningStates)
  }

  /** `is_idle`: the lowercased label is one of the lowercased idle states. */
  predicate IsIdle(status: DeviceStatus) {
    InLowered(Lower(status.state), IdleStates)
  }

  /** The cleaning states, once lowercased, are exactly these five labels. */
  lemma IsCleaningMeans(status: DeviceStatus)
    ensures IsCleaning(status) <==>
      Lower(status.state) in {"cleaning", "segment_cleaning", "zone_cleaning", "spot_cleaning", "segmentcleaning"}
  {
    InLoweredMeansIn(Lower(status.state), CleaningStates);
    LowerCleaningStates();
  }

  /** The idle states, once lowercased, are exactly these four labels. */
  lemma IsIdleMeans(status: DeviceStatus)
    ensures IsIdle(status) <==> Lower(status.state) in {"charger", "idle", "charging", "paused"}
  {
    InLoweredMeansIn(Lower(status.state), IdleStates);
    LowerIdleStates();
  }

  /** No label is both a cleaning state and an idle state. */
  lemma CleaningAndIdleDisjoint(status: DeviceStatus)
    ensures !(IsCleaning(status) && IsIdle(status))
  {
    IsCleaningMeans(status);
    IsIdleMeans(status);
  }

  /** Two labels of equal length whose letters agree up to case. */
  predicate SameIgnoringCase(a: string, b: string) {
    |a| == |b| && forall i :: 0 <= i < |a| ==> LowerChar(a[i]) == LowerChar(b[i])
  }

  /** Classification does not depend on letter case. */
  lemma ClassificationIgnoresCase(s: DeviceStatus, t: DeviceStatus)
    requires SameIgnoringCase(s.state, t.state)
    ensures IsCleaning(s) == IsCleaning(t)
    ensures IsIdle(s) == IsIdle(t)
  {
    assert Lower(s.state) == Lower(t.state);
  }

  // ---------------------------------------------------------------------------
  // `str(n)` for an integer, and its inverse

  function DigitChar(d: nat): char
    requires d < 10
  {
    ('0' as int + d) as char
  }

  predicate IsDigit(c: char) {
    '0' <= c <= '9'
  }

  predicate AllDigits(s: string) {
    forall i :: 0 <= i < |s| ==> IsDigit(s[i])
  }

  /** The decimal digits of `n`, most significant first, without leading zeros. */
  function NatString(n: nat): (s: string)
    ensures |s| > 0 && AllDigits(s)
    ensures |s| > 1 ==> s[0] != '0'
  {
    (if n < 10 then "" else NatString(n / 10)) + [DigitChar(n % 10)]
  }

  /**
   * Python's `str` of an integer: a minus sign exactly for a negative number,
   * then decimal digits without leading zeros.
   */
  function IntString(n: int): (s: string)
    ensures ParseInt(s) == Some(n)
    ensures |s| > 0 && (s[0] == '-' <==> n < 0)
    ensures var digits := if n < 0 then s[1..] else s;
            |digits| > 0 && AllDigits(digits) && (|digits| > 1 ==> digits[0] != '0')
  {
    IntStringParses(n);
    if n < 0 then
      var digits := NatString(-n);
      assert ("-" + digits)[1..] == digits;
      "-" + digits
    else
      var digits := NatString(n);
      assert IsDigit(digits[0]);
      digits
  }

  lemma IntStringParses(n: int)
    ensures ParseInt(if n < 0 then "-" + NatString(-n) else NatString(n)) == Some(n)
  {
    if n < 0 {
      NegativeStringParses(-n);
    } else {
      NatStringParses(n);
    }
  }

  lemma NatStringParses(n: nat)
    ensures ParseInt(NatString(n)) == Some(n)
  {
    var s := NatString(n);
    assert IsDigit(s[0]);
    NatStringValue(n);
  }

  lemma NegativeStringParses(n: nat)
    requires n > 0
    ensures ParseInt("-" + NatString(n)) == Some(-(n as int))
  {
    var digits := NatString(n);
    var s := "-" + digits;
    assert s[1..] == digits;
    NatStringValue(n);
  }

  function DigitsValue(s: string): nat
    requires AllDigits(s)
  {
    if s == [] then 0
    else
      assert IsDigit(s[|s| - 1]);
      10 * DigitsValue(s[..|s| - 1]) + (s[|s| - 1] as int - '0' as int)
  }

  /** `int(s)` restricted to what `str` produces: an optional minus sign and digits. */
  function ParseInt(s: string): Option<int> {
    if |s| > 1 && s[0] == '-' && AllDigits(s[1..]) then Some(-(DigitsValue(s[1..]) as int))
    else if |s| > 0 && AllDigits(s) then Some(DigitsValue(s))
    else None
  }

  lemma DigitsValueSnoc(digits: string, c: char)
    requires AllDigits(digits) && IsDigit(c)
    ensures DigitsValue(digits + [c]) == 10 * DigitsValue(digits) + (c as int - '0' as int)
  {
    assert (digits + [c])[..|digits|] == digits;
  }

  lemma {:induction false} NatStringValue(n: nat)
    ensures DigitsValue(NatString(n)) == n
  {
    var prefix := if n < 10 then "" else NatString(n / 10);
    var last := DigitChar(n % 10);
    assert NatString(n) == prefix + [last];
    assert last as int - '0' as int == n % 10;
    if n >= 10 {
      NatStringValue(n / 10);
    }
    assert DigitsValue(prefix) == n / 10;
    DigitsValueSnoc(prefix, last);
    assert DigitsValue(NatString(n)) == 10 * (n / 10) + n % 10;
  }

  // ---------------------------------------------------------------------------
  // From a status to a cleaning record

  /** `str(w) if w else None`: an integer is truthy when it is present and not zero. */
  function WaterLevel(waterBoxStatus: Option<int>): (level: Option<string>)
    ensures level.None? <==> waterBoxStatus.None? || waterBoxStatus.value == 0
    ensures level.Some? ==> level.value == IntString(waterBoxStatus.value)
    ensures level.Some? ==> ParseInt(level.value) == Some(waterBoxStatus.value)
  {
    if waterBoxStatus.Some? && waterBoxStatus.value != 0 then Some(IntString(waterBoxStatus.value)) else None
  }

  /** The record built from a status, shared by the manual log and the monitor. */
  function RecordOf(status: DeviceStatus, deviceName: string, timestamp: string,
                    batteryStart: Option<int>, state: string): CleaningRecord
  {
    CleaningRecord(
      timestamp := timestamp,
      deviceName := deviceName,
      cleanTimeMinutes := status.cleanTime,
      cleanAreaSqm := status.cleanArea,
      batteryStart := batteryStart,
      batteryEnd := Some(status.battery),
      fanPower := status.fanPower,
      waterLevel := WaterLevel(status.waterBoxStatus),
      mopMode := status.mopMode,
      state := state,
      errorCode := status.errorCode)
  }

  const DefaultDeviceName := "Roborock Q8"

  /**
   * `create_cleaning_record`: `status` is what the status fetch returned, `deviceName` the
   * device's `name` attribute if it has one, and `now` the current time.
   */
  function CreateCleaningRecord(status: Option<DeviceStatus>, deviceName: Option<string>,
                                now: string, batteryStart: Option<int>): (r: Option<CleaningRecord>)
    ensures r.None? <==> status.None?
    ensures r.Some? ==>
      var rec, st := r.value, status.value;
      && rec.timestamp == now
      && rec.deviceName == (if deviceName.Some? then deviceName.value else DefaultDeviceName)
      && rec.batteryStart == batteryStart
      && rec.batteryEnd == Some(st.battery)
      && rec.cleanTimeMinutes == st.cleanTime
      && rec.cleanAreaSqm == st.cleanArea
      && rec.state == st.state
      && rec.fanPower == st.fanPower
      && rec.mopMode == st.mopMode
      && rec.errorCode == st.errorCode
      && (rec.waterLevel.None? <==> st.waterBoxStatus.None? || st.waterBoxStatus.value == 0)
      && (rec.waterLevel.Some? ==> rec.waterLevel.value == IntString(st.waterBoxStatus.value))
      && (rec.waterLevel.Some? ==> ParseInt(rec.waterLevel.value) == Some(st.waterBoxStatus.value))
  {
    if status.None? then None
    else
      var name := if deviceName.Some? then deviceName.value else DefaultDeviceName;
      Some(RecordOf(status.value, name, now, batteryStart, status.value.state))
  }
}
