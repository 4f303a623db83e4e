/**
 * The text of the two device listings of ikea.go, as functions of the device
 * list the gateway returned (and, for the last-seen column, of the current
 * time in Unix nanoseconds).
 */
module Listing {
  import opened Options
  import opened Text
  import opened Gateway
  import opened Sorting

  const Header: string := "  ID  -  Type  - State\n"
  const BatteryHeader: string := "Name                         -  \U{1F50B}\n"

  /** Durations in nanoseconds, the unit of Go's time.Duration. */
  const Second: int := 1_000_000_000
  const Hour: int := 3600 * Second
  const Day: int := 24 * Hour

  /** printPercent: the decimal of p and a '%', left-justified in 4 runes. */
  function PrintPercent(p: int): (s: string)
    ensures |s| == if |IntToString(p)| + 1 < 4 then 4 else |IntToString(p)| + 1
    ensures s[..|IntToString(p)| + 1] == IntToString(p) + "%"
    ensures forall i | |IntToString(p)| + 1 <= i < |s| :: s[i] == ' '
    ensures '\n' !in s
  {
    PadRight(IntToString(p) + "%", 4)
  }

  /** Reads a percentage back from its padded text. */
  function ParsePercent(s: string): Option<int> {
    var t := TrimRight(s);
    if t != [] && t[|t| - 1] == '%' then ParseInt(t[..|t| - 1]) else None
  }

  /** The padded percentage text determines the number: nothing is truncated. */
  lemma PrintPercentRoundTrip(p: int)
    ensures ParsePercent(PrintPercent(p)) == Some(p)
  {
    var t := IntToString(p) + "%";
    TrimRightPadRight(t, 4);
    assert t[..|t| - 1] == IntToString(p);
    IntToStringRoundTrip(p);
  }

  /** Go's conversion of a float to int, which truncates toward zero. */
  function Truncate(x: real): (n: int)
    ensures 0.0 <= x ==> n as real <= x < n as real + 1.0
    ensures x < 0.0 ==> n as real - 1.0 < x <= n as real
  {
    if x >= 0.0 then x.Floor else -((-x).Floor)
  }

  predicate HasPrefix(s: string, p: string) {
    |p| <= |s| && s[..|p|] == p
  }

  predicate HasSuffix(s: string, p: string) {
    |p| <= |s| && s[|s| - |p|..] == p
  }

  lemma SuffixOfAppend(s: string, p: string)
    ensures HasSuffix(s + p, p)
  {
    assert (s + p)[|s|..] == p;
  }

  lemma SuffixCarries(a: string, b: string, p: string)
    requires HasSuffix(b, p)
    ensures HasSuffix(a + b, p)
  {
    DropAppend(a, b, |a| + |b| - |p|);
  }

  lemma PrefixOfAppend(p: string, s: string)
    ensures HasPrefix(p + s, p)
  {
    assert (p + s)[..|p|] == p;
  }

  lemma NotPrefixAt(s: string, p: string, i: nat)
    requires i < |p| && i < |s| && s[i] != p[i]
    ensures !HasPrefix(s, p)
  {
    if |p| <= |s| {
      assert s[..|p|][i] == s[i];
    }
  }

  /** The type-specific column of a listing row. */
  function StateColumn(d: Device): (r: string)
    ensures d.deviceType == OutletType || d.deviceType == RepeaterType ==> |r| == 15
  {
    if d.deviceType == RemoteType then "Remote - \U{1F50B}" + PrintPercent(d.battery)
    else if d.deviceType == OutletType then
      PadRight(if d.power == 0 then "Outlet - Off" else "Outlet - On", 15)
    else if d.deviceType == MotionType then "Motion - \U{1F50B}" + PrintPercent(d.battery)
    else if d.deviceType == RepeaterType then PadRight("Repeat -", 15)
    else if d.deviceType == BlindType then
      "Blind  - \U{1F4CF}" + (PrintPercent(Truncate(d.position)) + (" - \U{1F50B}" + PrintPercent(d.battery)))
    else IntToString(d.deviceType) + "     "
  }

  lemma StateColumnOneLine(d: Device)
    ensures '\n' !in StateColumn(d)
  {
    var t := d.deviceType;
    if t == OutletType {
      assert '\n' !in (if d.power == 0 then "Outlet - Off" else "Outlet - On");
    } else if t == RepeaterType {
      assert '\n' !in "Repeat -";
    } else if t == BlindType {
      BlindColumnOneLine(d);
    } else if t == RemoteType || t == MotionType {
      var prefix := if t == RemoteType then "Remote - \U{1F50B}" else "Motion - \U{1F50B}";
      assert StateColumn(d) == prefix + PrintPercent(d.battery);
      assert '\n' !in prefix;
    }
  }

  lemma BlindColumnOneLine(d: Device)
    requires d.deviceType == BlindType
    ensures '\n' !in StateColumn(d)
  {
    var a := PrintPercent(Truncate(d.position));
    var b := " - \U{1F50B}" + PrintPercent(d.battery);
    assert StateColumn(d) == "Blind  - \U{1F4CF}" + (a + b);
    assert '\n' !in b by {
      assert '\n' !in " - \U{1F50B}";
    }
    assert '\n' !in "Blind  - \U{1F4CF}";
  }

  /** Reads the device type back from a state column. */
  function ColumnType(col: string): Option<int> {
    if HasPrefix(col, "Remote - ") then Some(RemoteType)
    else if HasPrefix(col, "Outlet - ") then Some(OutletType)
    else if HasPrefix(col, "Motion - ") then Some(MotionType)
    else if HasPrefix(col, "Repeat -") then Some(RepeaterType)
    else if HasPrefix(col, "Blind  - ") then Some(BlindType)
    else if |col| >= 5 && col[|col| - 5..] == "     " then ParseInt(col[..|col| - 5])
    else None
  }

  /** The state column tells the device's type, for every type code. */
  lemma StateColumnShowsType(d: Device)
    ensures ColumnType(StateColumn(d)) == Some(d.deviceType)
  {
    var t := d.deviceType;
    if t == RemoteType || t == MotionType || t == BlindType {
      BatteryColumnType(d);
    } else if t == OutletType {
      OutletColumnType(d);
    } else if t == RepeaterType {
      RepeaterColumnType(d);
    } else {
      DefaultColumnType(d);
    }
  }

  lemma BatteryColumnType(d: Device)
    requires d.deviceType in {RemoteType, MotionType, BlindType}
    ensures ColumnType(StateColumn(d)) == Some(d.deviceType)
  {
    if d.deviceType == RemoteType {
      RemoteColumnType(d);
    } else if d.deviceType == MotionType {
      MotionColumnType(d);
    } else {
      BlindColumnType(d);
    }
  }

  lemma RemoteColumnType(d: Device)
    requires d.deviceType == RemoteType
    ensures ColumnType(StateColumn(d)) == Some(RemoteType)
  {
    var col := StateColumn(d);
    assert col[..10] == "Remote - \U{1F50B}";
    assert col[..9] == "Remote - ";
  }

  lemma MotionColumnType(d: Device)
    requires d.deviceType == MotionType
    ensures ColumnType(StateColumn(d)) == Some(MotionType)
  {
    var col := StateColumn(d);
    assert col[..10] == "Motion - \U{1F50B}";
    assert col[..9] == "Motion - ";
    NotPrefixAt(col, "Remote - ", 0);
    NotPrefixAt(col, "Outlet - ", 0);
  }

  lemma BlindColumnType(d: Device)
    requires d.deviceType == BlindType
    ensures ColumnType(StateColumn(d)) == Some(BlindType)
  {
    var col := StateColumn(d);
    var rest := PrintPercent(Truncate(d.position)) + (" - \U{1F50B}" + PrintPercent(d.battery));
    assert col == "Blind  - \U{1F4CF}" + rest;
    assert col[..9] == "Blind  - ";
    NotPrefixAt(col, "Remote - ", 0);
    NotPrefixAt(col, "Outlet - ", 0);
    NotPrefixAt(col, "Motion - ", 0);
    NotPrefixAt(col, "Repeat -", 0);
  }

  lemma OutletColumnType(d: Device)
    requires d.deviceType == OutletType
    ensures ColumnType(StateColumn(d)) == Some(OutletType)
  {
    var col := StateColumn(d);
    var shown := if d.power == 0 then "Outlet - Off" else "Outlet - On";
    assert col[..|shown|] == shown;
    assert col[..9] == shown[..9] == "Outlet - ";
    NotPrefixAt(col, "Remote - ", 0);
  }

  lemma RepeaterColumnType(d: Device)
    requires d.deviceType == RepeaterType
    ensures ColumnType(StateColumn(d)) == Some(RepeaterType)
  {
    var col := StateColumn(d);
    assert col[..8] == "Repeat -";
    NotPrefixAt(col, "Remote - ", 2);
    NotPrefixAt(col, "Outlet - ", 0);
    NotPrefixAt(col, "Motion - ", 0);
  }

  lemma DefaultColumnType(d: Device)
    requires d.deviceType !in {RemoteType, OutletType, MotionType, RepeaterType, BlindType}
    ensures ColumnType(StateColumn(d)) == Some(d.deviceType)
  {
    var col := StateColumn(d);
    var s := IntToString(d.deviceType);
    assert col == s + "     ";
    assert col[0] == s[0] && (s[0] == '-' || IsDigit(s[0]));
    NotPrefixAt(col, "Remote - ", 0);
    NotPrefixAt(col, "Outlet - ", 0);
    NotPrefixAt(col, "Motion - ", 0);
    NotPrefixAt(col, "Repeat -", 0);
    NotPrefixAt(col, "Blind  - ", 0);
    assert col[|col| - 5..] == "     " && col[..|col| - 5] == s;
    IntToStringRoundTrip(d.deviceType);
  }

  /** An outlet's column says Off exactly when its power is 0, and On otherwise. */
  lemma OutletColumnShowsPower(d: Device)
    requires d.deviceType == OutletType
    ensures HasPrefix(StateColumn(d), "Outlet - Off") <==> d.power == 0
    ensures d.power != 0 ==> HasPrefix(StateColumn(d), "Outlet - On")
  {
    var col := StateColumn(d);
    if d.power != 0 {
      assert col[..11] == "Outlet - On" && col[11] == ' ';
    }
  }

  /** The battery glyph never occurs in a printed percentage. */
  lemma NoBatteryGlyphInPercent(p: int)
    ensures '\U{1F50B}' !in PrintPercent(p)
  {
    var s := PrintPercent(p);
    var n := IntToString(p);
    forall i | 0 <= i < |s| ensures s[i] != '\U{1F50B}' {
      if i < |n| {
        assert s[i] == (n + "%")[i] == n[i];
        if p < 0 && i > 0 {
          assert n[i] == n[1..][i - 1];
        }
      } else if i == |n| {
        assert s[i] == (n + "%")[i];
      }
    }
  }

  /**
   * Reads the battery level back from a state column: the percentage after
   * the battery glyph of a remote's or motion sensor's column, or after the
   * first battery glyph of a blind's column.
   */
  function ColumnBattery(col: string): Option<int> {
    var t := ColumnType(col);
    if |col| < 10 then None
    else if (t == Some(RemoteType) || t == Some(MotionType)) && col[9] == '\U{1F50B}' then ParsePercent(col[10..])
    else if t == Some(BlindType) && col[9] == '\U{1F4CF}' then LevelsBattery(col[10..])
    else None
  }

  /** Reads a blind's position back from its state column: the percentage between the ruler glyph and " - ". */
  function ColumnPosition(col: string): Option<int> {
    if |col| < 10 || ColumnType(col) != Some(BlindType) || col[9] != '\U{1F4CF}' then None
    else LevelsPosition(col[10..])
  }

  /** In the part of a blind's column after the ruler glyph: the percentage before " - " and the battery glyph. */
  function LevelsPosition(rest: string): Option<int> {
    var k := FirstIndex(rest, '\U{1F50B}');
    if 3 <= k < |rest| && rest[k - 3..k] == " - " then ParsePercent(rest[..k - 3]) else None
  }

  /** In the part of a blind's column after the ruler glyph: the percentage after the battery glyph. */
  function LevelsBattery(rest: string): Option<int> {
    var k := FirstIndex(rest, '\U{1F50B}');
    if k < |rest| then ParsePercent(rest[k + 1..]) else None
  }

  /** A remote's or motion sensor's column shows its battery level and no position. */
  lemma BatteryColumnShowsLevel(d: Device)
    requires d.deviceType == RemoteType || d.deviceType == MotionType
    ensures ColumnBattery(StateColumn(d)) == Some(d.battery)
    ensures ColumnPosition(StateColumn(d)) == None
  {
    var col := StateColumn(d);
    BatteryColumnType(d);
    assert col[9] == '\U{1F50B}' && col[10..] == PrintPercent(d.battery);
    PrintPercentRoundTrip(d.battery);
  }

  /** A blind's column shows its truncated position and its battery level. */
  lemma BlindColumnShowsLevels(d: Device)
    requires d.deviceType == BlindType
    ensures ColumnPosition(StateColumn(d)) == Some(Truncate(d.position))
    ensures ColumnBattery(StateColumn(d)) == Some(d.battery)
  {
    var col := StateColumn(d);
    BlindColumnType(d);
    assert col[9] == '\U{1F4CF}';
    assert col[10..] == PrintPercent(Truncate(d.position)) + (" - \U{1F50B}" + PrintPercent(d.battery));
    LevelsReadBack(col[10..], Truncate(d.position), d.battery);
  }

  /** The part of a blind's column after the ruler glyph splits back into its two percentages. */
  lemma LevelsReadBack(rest: string, position: int, battery: int)
    requires rest == PrintPercent(position) + (" - \U{1F50B}" + PrintPercent(battery))
    ensures LevelsPosition(rest) == Some(position) && LevelsBattery(rest) == Some(battery)
  {
    NoBatteryGlyphInPercent(position);
    SplitAtGlyph(PrintPercent(position), PrintPercent(battery));
    PrintPercentRoundTrip(position);
    PrintPercentRoundTrip(battery);
  }

  /** Text without the battery glyph, then " - " and the glyph, splits back at the glyph. */
  lemma SplitAtGlyph(front: string, tail: string)
    requires '\U{1F50B}' !in front
    ensures var rest := front + (" - \U{1F50B}" + tail);
      var k := FirstIndex(rest, '\U{1F50B}');
      && k == |front| + 3 && k < |rest| && rest[k - 3..k] == " - "
      && rest[..k - 3] == front && rest[k + 1..] == tail
  {
    var back := " - \U{1F50B}" + tail;
    var rest := front + back;
    FirstIndexAfter(front, '\U{1F50B}', back);
    SeparatorGlyph(tail);
    var k := |front| + 3;
    DropAppend(front, back, k - 3);
    DropAppend(front, back, k + 1);
    assert rest[k - 3..][..3] == " - ";
  }

  /** The buckets of the last-seen column. */
  datatype SeenBucket = OverAYear | Days | DaysAndHours | Hours | Recently

  /** Picks the bucket by strict comparison of the elapsed time with each threshold. */
  function BucketOf(since: int): (b: SeenBucket)
    ensures b == OverAYear <==> since > 365 * Day
    ensures b == Days <==> 7 * Day < since <= 365 * Day
    ensures b == DaysAndHours <==> Day < since <= 7 * Day
    ensures b == Hours <==> 2 * Hour < since <= Day
    ensures b == Recently <==> since <= 2 * Hour
  {
    if since > 365 * Day then OverAYear
    else if since > 7 * Day then Days
    else if since > Day then DaysAndHours
    else if since > 2 * Hour then Hours
    else Recently
  }

  /** How stale a bucket says the device is. */
  function Staleness(b: SeenBucket): nat {
    match b
    case Recently => 0
    case Hours => 1
    case DaysAndHours => 2
    case Days => 3
    case OverAYear => 4
  }

  /** A device seen longer ago never lands in a fresher bucket. */
  lemma BucketMonotone(since1: int, since2: int)
    requires since1 <= since2
    ensures Staleness(BucketOf(since1)) <= Staleness(BucketOf(since2))
  {
  }

  /** math.Round(n / d): the nearest integer, halves rounded away from zero. */
  function RoundDiv(n: int, d: int): (r: int)
    requires d > 0
    ensures 0 <= n ==> 0 <= r
    ensures n < 0 ==> r <= 0
  {
    if n >= 0 then (2 * n + d) / (2 * d) else -((2 * -n + d) / (2 * d))
  }

  /**
   * The `%v` text of math.Round(n / d) as a float64, for results below 10^6
   * (larger ones Go prints in exponent form), keeping the sign of a negative zero.
   */
  function RoundedText(n: int, d: int): (r: string)
    requires d > 0
    ensures '\n' !in r && ' ' !in r && r != []
  {
    var r := RoundDiv(n, d);
    if n < 0 && r == 0 then "-0" else IntToString(r)
  }

  /** The last-seen column for a device last seen `since` nanoseconds ago. */
  function SeenText(since: int): (r: string)
    ensures HasPrefix(r, " - \U{1F441}")
    ensures '\n' !in r
  {
    BucketText(BucketOf(since), since)
  }

  /** The text of bucket b, with its numbers rounded from `since`. */
  function BucketText(b: SeenBucket, since: int): (r: string)
    ensures HasPrefix(r, " - \U{1F441}")
    ensures '\n' !in r
  {
    var eye := " - \U{1F441}";
    var rest := BucketRest(b, since);
    PrefixOfAppend(eye, rest);
    eye + rest
  }

  /** The part of bucket b's text after the eye. */
  function BucketRest(b: SeenBucket, since: int): (r: string)
    ensures '\n' !in r
    ensures b == OverAYear ==> r == Spaces(9)
    ensures b == Days ==> HasSuffix(r, " days")
    ensures b == DaysAndHours || b == Hours ==> HasSuffix(r, " hours")
    ensures b == Recently ==> r == " Recently"
  {
    match b
    case OverAYear => "         "
    case Days => DaysText(since)
    case DaysAndHours => DaysAndHoursText(since)
    case Hours => HoursText(since)
    case Recently => " Recently"
  }

  function DaysText(since: int): (r: string)
    ensures '\n' !in r
    ensures |r| >= 9 && r[0] == ' ' && HasSuffix(r, " days")
  {
    var r := " " + Rounded(since, Day, 3) + " days";
    SuffixOfAppend(" " + Rounded(since, Day, 3), " days");
    r
  }

  function DaysAndHoursText(since: int): (r: string)
    ensures '\n' !in r
    ensures |r| >= 17 && r[0] == ' ' && HasSuffix(r, " hours")
  {
    var front := " " + Rounded(since, Day, 2) + " days ";
    var back := HoursLeftText(since);
    SuffixCarries(front, back, " hours");
    front + back
  }

  /** The hours left after the rounded days, rounded in turn (so they can be negative). */
  function HoursLeftText(since: int): (r: string)
    ensures '\n' !in r
    ensures |r| >= 8 && HasSuffix(r, " hours")
  {
    var days := RoundDiv(since, Day);
    SuffixOfAppend(Rounded(since - days * Day, Hour, 2), " hours");
    Rounded(since - days * Day, Hour, 2) + " hours"
  }

  function HoursText(since: int): (r: string)
    ensures '\n' !in r
    ensures |r| >= 9 && r[0] == ' ' && HasSuffix(r, " hours")
  {
    SuffixOfAppend(" " + Rounded(since, Hour, 2), " hours");
    " " + Rounded(since, Hour, 2) + " hours"
  }

  /** `%-Nv` of math.Round(n / d): the rounded number left-justified in `width` runes. */
  function Rounded(n: int, d: int, width: nat): (r: string)
    requires d > 0
    ensures '\n' !in r
    ensures |r| >= width && TrimRight(r) == RoundedText(n, d)
  {
    TrimRightPadRight(RoundedText(n, d), width);
    PadRight(RoundedText(n, d), width)
  }

  /** Nanoseconds from the device's last-seen second to `now`. */
  function Elapsed(d: Device, now: int): int {
    now - d.lastSeen * Second
  }

  /** One row of the device listing. */
  function Row(d: Device, now: int): (r: string)
    ensures HasPrefix(r, IntToString(d.deviceId) + " - ")
    ensures |r| >= |d.name| + 4 && r[|r| - |d.name| - 4..] == " - " + d.name + "\n"
  {
    var head := IntToString(d.deviceId) + " - ";
    var middle := StateColumn(d) + SeenText(Elapsed(d, now));
    var tail := " - " + d.name + "\n";
    var r := head + middle + tail;
    assert r[..|head|] == head;
    assert r[|r| - |tail|..] == tail;
    r
  }

  /** A row holds exactly one line break, its last character, when the name holds none. */
  lemma RowOneLine(d: Device, now: int)
    requires '\n' !in d.name
    ensures Occurrences('\n', Row(d, now)) == 1
  {
    var head := IntToString(d.deviceId) + " - ";
    var middle := StateColumn(d) + SeenText(Elapsed(d, now));
    var tail := " - " + d.name + "\n";
    assert Row(d, now) == (head + middle) + tail;
    assert '\n' !in head + middle by {
      StateColumnOneLine(d);
    }
    OccurrencesAppend('\n', head + middle, tail);
    OccurrencesAppend('\n', " - " + d.name, "\n");
  }

  /** The rows of the devices of s, in order. */
  function Rows(s: seq<Device>, now: int): string {
    if s == [] then "" else Rows(s[..|s| - 1], now) + Row(s[|s| - 1], now)
  }

  /** The order the listing shows devices in: three sorts, by id, then type, then alive. */
  function Arranged(s: seq<Device>): seq<Device> {
    Sort(Sort(Sort(s, ByDeviceId), ByType), ByAlive)
  }

  /** The devices that get a row: all of them, or only the alive ones. */
  function Shown(s: seq<Device>, includeDead: bool): seq<Device> {
    if includeDead then s else Keep(s, AliveOnly)
  }

  /** The whole text of ListDevicesWithDead for the device list s. */
  function DeviceListing(s: seq<Device>, includeDead: bool, now: int): string {
    Header + Rows(Shown(Arranged(s), includeDead), now)
  }

  lemma RowsSnoc(x: seq<Device>, d: Device, now: int)
    ensures Rows(x + [d], now) == Rows(x, now) + Row(d, now)
  {
    assert (x + [d])[..|x|] == x;
  }

  /** One more device of s adds its row exactly when it is shown. */
  lemma ShownStep(s: seq<Device>, i: nat, includeDead: bool, now: int)
    requires i < |s|
    ensures Rows(Shown(s[..i + 1], includeDead), now)
            == Rows(Shown(s[..i], includeDead), now) + if !includeDead && s[i].alive == 0 then "" else Row(s[i], now)
  {
    assert s[..i + 1] == s[..i] + [s[i]];
    var before: seq<Device> := Shown(s[..i], includeDead);
    if includeDead || s[i].alive != 0 {
      assert Shown(s[..i + 1], includeDead) == before + [s[i]];
      RowsSnoc(before, s[i], now);
    } else {
      assert Shown(s[..i + 1], includeDead) == before;
    }
  }

  /** Lexicographic order by (Alive, Type, DeviceId). */
  predicate AliveTypeIdLe(a: Device, b: Device) {
    || a.alive < b.alive
    || (a.alive == b.alive && a.deviceType < b.deviceType)
    || (a.alive == b.alive && a.deviceType == b.deviceType && a.deviceId <= b.deviceId)
  }

  lemma LexAliveTypeId(a: Device, b: Device)
    requires LexLe([ByAlive, ByType, ByDeviceId], a, b)
    ensures AliveTypeIdLe(a, b)
  {
    assert [ByAlive, ByType, ByDeviceId][1..] == [ByType, ByDeviceId];
    assert [ByType, ByDeviceId][1..] == [ByDeviceId];
  }

  lemma ArrangedLex(s: seq<Device>)
    ensures Ordered(Arranged(s), [ByAlive, ByType, ByDeviceId])
  {
    var byId := Sort(s, ByDeviceId);
    var byType := Sort(byId, ByType);
    SortOrdered(s, ByDeviceId, []);
    assert [ByDeviceId] + [] == [ByDeviceId];
    SortOrdered(byId, ByType, [ByDeviceId]);
    assert [ByType] + [ByDeviceId] == [ByType, ByDeviceId];
    SortOrdered(byType, ByAlive, [ByType, ByDeviceId]);
    assert [ByAlive] + [ByType, ByDeviceId] == [ByAlive, ByType, ByDeviceId];
  }

  /**
   * The three chained sorts leave a permutation of the gateway's list ordered
   * lexicographically by (Alive, Type, DeviceId): each later stable sort keeps
   * the earlier order among its ties.
   */
  lemma ArrangedOrder(s: seq<Device>)
    ensures multiset(Arranged(s)) == multiset(s)
    ensures forall i, j | 0 <= i < j < |Arranged(s)| :: AliveTypeIdLe(Arranged(s)[i], Arranged(s)[j])
  {
    var r := Arranged(s);
    ArrangedLex(s);
    forall i, j | 0 <= i < j < |r| ensures AliveTypeIdLe(r[i], r[j]) {
      LexAliveTypeId(r[i], r[j]);
    }
  }

  /** The battery glyph of " - \U{1F50B}" is its fourth character. */
  lemma SeparatorGlyph(tail: string)
    ensures var back := " - \U{1F50B}" + tail;
      FirstIndex(back, '\U{1F50B}') == 3 && back[..3] == " - " && back[4..] == tail
  {
    var back := " - \U{1F50B}" + tail;
    assert back[..4] == " - \U{1F50B}";
    assert back[3] == '\U{1F50B}' && back[..3] == " - ";
  }

  /**
   * The devices that get a row are in (Alive, Type, DeviceId) order, whether
   * or not dead devices are hidden.
   */
  lemma ShownOrdered(s: seq<Device>, includeDead: bool)
    ensures Ordered(Shown(Arranged(s), includeDead), [ByAlive, ByType, ByDeviceId])
  {
    ArrangedLex(s);
    KeepOrdered(Arranged(s), AliveOnly, [ByAlive, ByType, ByDeviceId]);
  }

  /**
   * Which devices get a row: with includeDead every device of the list, as
   * often as it occurs; without it exactly the devices whose Alive is not 0.
   */
  lemma ShownDevices(s: seq<Device>, includeDead: bool, d: Device)
    ensures multiset(Shown(Arranged(s), includeDead))[d]
            == if includeDead || d.alive != 0 then multiset(s)[d] else 0
  {
    ArrangedOrder(s);
    if !includeDead {
      KeepCount(Arranged(s), AliveOnly, d);
    }
  }

  /** When every device is alive, hiding dead devices changes nothing. */
  lemma AllAliveListing(s: seq<Device>, now: int)
    requires forall d | d in s :: d.alive != 0
    ensures DeviceListing(s, false, now) == DeviceListing(s, true, now)
  {
    var r := Arranged(s);
    ArrangedOrder(s);
    forall i | 0 <= i < |r| ensures Selects(AliveOnly, r[i]) {
      assert r[i] in multiset(r);
    }
    KeepEverything(r, AliveOnly);
  }

  lemma {:induction false} RowsNewlines(s: seq<Device>, now: int)
    requires forall d | d in s :: '\n' !in d.name
    ensures Occurrences('\n', Rows(s, now)) == |s|
  {
    if s != [] {
      RowsNewlines(s[..|s| - 1], now);
      RowOneLine(s[|s| - 1], now);
      OccurrencesAppend('\n', Rows(s[..|s| - 1], now), Row(s[|s| - 1], now));
    }
  }

  lemma ShownNames(s: seq<Device>, includeDead: bool)
    requires forall d | d in s :: '\n' !in d.name
    ensures forall d | d in Shown(Arranged(s), includeDead) :: '\n' !in d.name
  {
    ArrangedOrder(s);
    forall d | d in Shown(Arranged(s), includeDead) ensures '\n' !in d.name {
      if !includeDead {
        KeepCount(Arranged(s), AliveOnly, d);
        assert d in multiset(Shown(Arranged(s), includeDead));
      }
      assert d in multiset(Arranged(s));
    }
  }

  lemma HeaderOneLine()
    ensures Occurrences('\n', Header) == 1
  {
    var line := Header[..|Header| - 1];
    assert Header == line + "\n" && '\n' !in line;
    OccurrencesAppend('\n', line, "\n");
  }

  /**
   * When no device name holds a line break, the listing is the header line
   * and one line per shown device.
   */
  lemma DeviceListingLines(s: seq<Device>, includeDead: bool, now: int)
    requires forall d | d in s :: '\n' !in d.name
    ensures Occurrences('\n', DeviceListing(s, includeDead, now)) == 1 + |Shown(Arranged(s), includeDead)|
  {
    var shown := Shown(Arranged(s), includeDead);
    ShownNames(s, includeDead);
    RowsNewlines(shown, now);
    HeaderOneLine();
    OccurrencesAppend('\n', Header, Rows(shown, now));
  }

  /** One row of the battery listing. */
  function BatteryRow(d: Device): string {
    (PadRight(d.name, 28) + " - ") + (PrintPercent(d.battery) + "\n")
  }

  function BatteryRows(s: seq<Device>): string {
    if s == [] then "" else BatteryRows(s[..|s| - 1]) + BatteryRow(s[|s| - 1])
  }

  lemma BatteryRowsSnoc(x: seq<Device>, d: Device)
    ensures BatteryRows(x + [d]) == BatteryRows(x) + BatteryRow(d)
  {
    assert (x + [d])[..|x|] == x;
  }

  /** One more device of s adds its battery row exactly when it is selected. */
  lemma BatteryStep(s: seq<Device>, i: nat)
    requires i < |s|
    ensures BatteryRows(Keep(s[..i + 1], BatteryPowered))
            == BatteryRows(Keep(s[..i], BatteryPowered))
               + if Selects(BatteryPowered, s[i]) then BatteryRow(s[i]) else ""
  {
    assert s[..i + 1][..i] == s[..i];
    var before: seq<Device> := Keep(s[..i], BatteryPowered);
    if Selects(BatteryPowered, s[i]) {
      BatteryRowsSnoc(before, s[i]);
    } else {
      assert Keep(s[..i + 1], BatteryPowered) == before;
    }
  }

  /** The devices that get a battery row, in the order they are listed. */
  function BatteryDevices(s: seq<Device>): seq<Device> {
    Keep(Sort(s, ByName), BatteryPowered)
  }

  /** The whole text of ListDevicesBattery for the device list s. */
  function BatteryListing(s: seq<Device>): string {
    BatteryHeader + BatteryRows(BatteryDevices(s))
  }

  /**
   * The battery listing has rows for exactly the alive remotes, motion
   * sensors and blinds, each as often as in the gateway's list, in name order.
   */
  lemma BatteryDevicesSelected(s: seq<Device>, d: Device)
    ensures multiset(BatteryDevices(s))[d]
            == if d.alive != 0 && d.deviceType in {RemoteType, MotionType, BlindType} then multiset(s)[d] else 0
    ensures forall i, j | 0 <= i < j < |BatteryDevices(s)| ::
              !StrLess(BatteryDevices(s)[j].name, BatteryDevices(s)[i].name)
  {
    var sorted := Sort(s, ByName);
    KeepCount(sorted, BatteryPowered, d);
    SortOrdered(s, ByName, []);
    KeepOrdered(sorted, BatteryPowered, [ByName]);
    var r := BatteryDevices(s);
    forall i, j | 0 <= i < j < |r| ensures !StrLess(r[j].name, r[i].name) {
      assert LexLe([ByName], r[i], r[j]);
    }
  }

  /** Splits a battery row into the name column and the percentage. */
  function ParseBatteryRow(row: string): Option<(string, int)> {
    if |row| >= 32 && row[28..31] == " - " && row[|row| - 1] == '\n' then
      match ParsePercent(row[31..|row| - 1])
      case Some(p) => Some((TrimRight(row[..28]), p))
      case None => None
    else None
  }

  /**
   * A name of at most 28 runes that does not end in a space fills the name
   * column exactly, so the row gives back the name and the battery level.
   */
  lemma BatteryRowRoundTrip(d: Device)
    requires |d.name| <= 28 && (d.name == [] || d.name[|d.name| - 1] != ' ')
    ensures ParseBatteryRow(BatteryRow(d)) == Some((d.name, d.battery))
  {
    BatteryRowParts(d);
    TrimRightPadRight(d.name, 28);
    PrintPercentRoundTrip(d.battery);
  }

  lemma BatteryRowParts(d: Device)
    requires |d.name| <= 28
    ensures var row := BatteryRow(d);
      && |row| >= 32 && row[28..31] == " - " && row[|row| - 1] == '\n'
      && row[..28] == PadRight(d.name, 28) && row[31..|row| - 1] == PrintPercent(d.battery)
  {
    var padded := PadRight(d.name, 28);
    var percent := PrintPercent(d.battery);
    var row := padded + (" - " + (percent + "\n"));
    assert BatteryRow(d) == row;
    assert row[..28] == padded;
    assert row[28..31] == " - ";
    assert row[31..|row| - 1] == percent;
  }
}
