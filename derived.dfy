/** Values computed from the state or from an input, never stored: the user's
    tier, the relative-time label of a notification and the pickup-day rule. */
module Derived {
  import opened Numbers

  /** The five tiers of `getUserLevel`, lowest first. */
  datatype Level = Pemula | Berkembang | Mahir | Ahli | Master {
    function Name(): string {
      match this
      case Pemula => "Pemula"
      case Berkembang => "Berkembang"
      case Mahir => "Mahir"
      case Ahli => "Ahli"
      case Master => "Master"
    }

    function Rank(): nat {
      match this
      case Pemula => 0
      case Berkembang => 1
      case Mahir => 2
      case Ahli => 3
      case Master => 4
    }
  }

  /** The points at which each tier above Pemula begins. */
  const Thresholds: seq<int> := [50, 150, 300, 500]

  /** How many thresholds a balance has reached. */
  function Reached(points: int, ts: seq<int>): nat {
    if ts == [] then 0 else (if ts[0] <= points then 1 else 0) + Reached(points, ts[1..])
  }

  /** `getUserLevel` (script.js:439-445), as a function of the balance. */
  function UserLevel(points: int): (l: Level)
    ensures l.Rank() > 0 ==> Thresholds[l.Rank() - 1] <= points
    ensures l.Rank() < 4 ==> points < Thresholds[l.Rank()]
  {
    if points < 50 then Pemula
    else if points < 150 then Berkembang
    else if points < 300 then Mahir
    else if points < 500 then Ahli
    else Master
  }

  /** The tier's rank is the number of thresholds the balance has reached. */
  lemma UserLevelCountsThresholds(points: int)
    ensures UserLevel(points).Rank() == Reached(points, Thresholds)
  {
    var t4: seq<int> := [500];
    var t3: seq<int> := [300] + t4;
    var t2: seq<int> := [150] + t3;
    assert Thresholds == [50] + t2;
    assert Reached(points, t4) == (if 500 <= points then 1 else 0) by {
      assert t4[1..] == [];
    }
    assert t3[1..] == t4 && t2[1..] == t3 && Thresholds[1..] == t2;
    assert Reached(points, t3) == (if 300 <= points then 1 else 0) + Reached(points, t4);
    assert Reached(points, t2) == (if 150 <= points then 1 else 0) + Reached(points, t3);
    assert Reached(points, Thresholds) == (if 50 <= points then 1 else 0) + Reached(points, t2);
  }

  /** More points never mean a lower tier. */
  lemma UserLevelMonotone(p: int, q: int)
    requires p <= q
    ensures UserLevel(p).Rank() <= UserLevel(q).Rank()
  {
  }

  /** The tier boundaries, at both sides of each threshold. */
  lemma UserLevelBoundaries()
    ensures UserLevel(49) == Pemula && UserLevel(50) == Berkembang
    ensures UserLevel(149) == Berkembang && UserLevel(150) == Mahir
    ensures UserLevel(299) == Mahir && UserLevel(300) == Ahli
    ensures UserLevel(499) == Ahli && UserLevel(500) == Master
    ensures UserLevel(49).Name() == "Pemula" && UserLevel(50).Name() == "Berkembang"
    ensures UserLevel(150).Name() == "Mahir" && UserLevel(300).Name() == "Ahli"
    ensures UserLevel(500).Name() == "Master"
  {
  }

  const MinuteMs: int := 60000
  const HourMs: int := 3600000
  const DayMs: int := 86400000

  /** The branch `getRelativeTime` takes, with the number it shows. */
  datatype Age = JustNow | MinutesAgo(minutes: int) | HoursAgo(hours: int)
               | Yesterday | DaysAgo(days: int) | OnDate

  /** The branch selection of `getRelativeTime` (script.js:582-596) on the
      difference `now - past` in milliseconds. `Math.floor` of a division by a
      positive constant is Dafny's `/` on `int`. */
  function AgeOf(diffMs: int): (a: Age)
    ensures a.JustNow? <==> diffMs < MinuteMs
    ensures a.MinutesAgo? <==> MinuteMs <= diffMs < HourMs
    ensures a.HoursAgo? <==> HourMs <= diffMs < DayMs
    ensures a.Yesterday? <==> DayMs <= diffMs < 2 * DayMs
    ensures a.DaysAgo? <==> 2 * DayMs <= diffMs < 7 * DayMs
    ensures a.OnDate? <==> 7 * DayMs <= diffMs
    ensures a.MinutesAgo? ==> a.minutes * MinuteMs <= diffMs < (a.minutes + 1) * MinuteMs
    ensures a.HoursAgo? ==> a.hours * HourMs <= diffMs < (a.hours + 1) * HourMs
    ensures a.DaysAgo? ==> a.days * DayMs <= diffMs < (a.days + 1) * DayMs
  {
    var diffMins := diffMs / MinuteMs;
    var diffHours := diffMs / HourMs;
    var diffDays := diffMs / DayMs;
    if diffMins < 1 then JustNow
    else if diffMins < 60 then MinutesAgo(diffMins)
    else if diffHours < 24 then HoursAgo(diffHours)
    else if diffDays == 1 then Yesterday
    else if diffDays < 7 then DaysAgo(diffDays)
    else OnDate
  }

  /** The label `getRelativeTime` returns. The absolute date of the last branch
      comes from the locale formatter, which is an input (`dateText`). */
  function RelativeTime(diffMs: int, dateText: string): (r: string)
    ensures diffMs < MinuteMs ==> r == "Baru saja"
    ensures MinuteMs <= diffMs < 7 * DayMs ==> r != "Baru saja"
    ensures MinuteMs <= diffMs < HourMs ==> r == IntString(diffMs / MinuteMs) + " menit lalu"
    ensures HourMs <= diffMs < DayMs ==> r == IntString(diffMs / HourMs) + " jam lalu"
    ensures DayMs <= diffMs < 2 * DayMs ==> r == "Kemarin"
    ensures 2 * DayMs <= diffMs < 7 * DayMs ==> r == IntString(diffMs / DayMs) + " hari lalu"
    ensures 7 * DayMs <= diffMs ==> r == dateText
  {
    match AgeOf(diffMs)
    case JustNow => "Baru saja"
    case MinutesAgo(m) => IntString(m) + " menit lalu"
    case HoursAgo(h) => IntString(h) + " jam lalu"
    case Yesterday => "Kemarin"
    case DaysAgo(d) => IntString(d) + " hari lalu"
    case OnDate => dateText
  }

  const Monday: int := 1
  const Thursday: int := 4

  /** The pickup-day rule of the date input (script.js:142): `getDay()` must be
      1 (Senin) or 4 (Kamis). */
  predicate IsPickupDay(weekday: int) {
    weekday == Monday || weekday == Thursday
  }

  /** The date input after the change handler: kept on a pickup day, reset to empty otherwise. */
  function CheckedPickupDate(weekday: int, value: string): (r: string)
    ensures IsPickupDay(weekday) ==> r == value
    ensures !IsPickupDay(weekday) ==> r == ""
  {
    if weekday != 1 && weekday != 4 then "" else value
  }

  /** Of the seven weekdays `getDay()` can return, exactly two accept a pickup. */
  lemma {:induction false} TwoPickupDaysAWeek()
    ensures (set d | 0 <= d < 7 && IsPickupDay(d)) == {Monday, Thursday}
  {
    var days := set d | 0 <= d < 7 && IsPickupDay(d);
    assert Monday in days && Thursday in days;
  }
}
