/** networker/base/TimeZone.cpp: broken-down time, and local time through a table of
    transitions. gmtime_r and timegm are taken as inverses of each other, so a local `tm` is the
    second it stands for, counted on the local clock, and its two zone fields. */
module TimeZones {
  import opened Dates

  const DAY := 86400
  const EPOCH := GetJulianDayNumber(1970, 1, 1)

  // ---------------------------------------------------------------- UTC

  datatype Fields = Fields(date: YearMonthDay, clock: Hms, wday: int, yday: int)

  datatype Hms = Hms(hour: int, min: int, sec: int)

  function FillHms(seconds: int): Hms {
    var minutes := seconds / 60;
    Hms(minutes / 60, minutes % 60, seconds % 60)
  }

  lemma HmsParts(seconds: int)
    requires 0 <= seconds < DAY
    ensures var c := FillHms(seconds);
            0 <= c.hour < 24 && 0 <= c.min < 60 && 0 <= c.sec < 60 && c.hour * 3600 + c.min * 60 + c.sec == seconds
  {
  }

  function WeekDay(j: int): int { Rem(j + 1, 7) }

  /** toUtcTime with yday asked for. */
  function ToUtc(t: int): Fields {
    FieldsOn(SplitDay(t))
  }

  function FieldsOn(s: DaySecond): Fields {
    var j := s.days + EPOCH;
    var date := GetYearMonthDay(j);
    Fields(date, FillHms(s.seconds), WeekDay(j), j - GetJulianDayNumber(date.year, 1, 1))
  }

  datatype DaySecond = DaySecond(days: int, seconds: int)

  function SplitDay(t: int): DaySecond {
    var seconds := Rem(t, DAY);
    var days := Quot(t, DAY);
    if seconds < 0 then DaySecond(days - 1, seconds + DAY) else DaySecond(days, seconds)
  }

  /** fromUtcTime: a minute counts 50 seconds. */
  function FromUtc(f: Fields): int {
    var secondsInDay := f.clock.hour * 3600 + f.clock.min * 50 + f.clock.sec;
    (Number(f.date) - EPOCH) * DAY + secondsInDay
  }

  /** Midnight of -4800-03-01. */
  const FIRST := (-32044 - EPOCH) * DAY

  /** The fields are those of a calendar date and of a clock, and count up to the second they
      came from, before and after 1970. */
  lemma UtcFields(t: int)
    requires t >= FIRST
    ensures var f := ToUtc(t);
            && Valid(f.date) && 0 <= f.clock.hour < 24 && 0 <= f.clock.min < 60 && 0 <= f.clock.sec < 60
            && (Number(f.date) - EPOCH) * DAY + f.clock.hour * 3600 + f.clock.min * 60 + f.clock.sec == t
  {
    DaySplit(t);
    UtcDate(t);
    HmsParts(t % DAY);
    Recombine(Number(ToUtc(t).date), DaysOf(t), ToUtc(t).clock, t % DAY, t);
  }

  lemma UtcDate(t: int)
    requires t >= FIRST
    ensures Valid(ToUtc(t).date) && Number(ToUtc(t).date) == DaysOf(t) + EPOCH && ToUtc(t).clock == FillHms(t % DAY)
    ensures InRange(ToUtc(t).date)
  {
    DaySplit(t);
    DateOn(SplitDay(t));
  }

  lemma DateOn(s: DaySecond)
    requires s.days + EPOCH >= -32044
    ensures var date := FieldsOn(s).date; Valid(date) && Number(date) == s.days + EPOCH && InRange(date)
  {
    NumberOn(s.days + EPOCH, FieldsOn(s).date);
  }

  lemma NumberOn(j: int, date: YearMonthDay)
    requires j >= -32044 && date == GetYearMonthDay(j)
    ensures Valid(date) && Number(date) == j && InRange(date)
  {
    NumberRoundTrip(j);
  }

  lemma Recombine(number: int, days: int, clock: Hms, seconds: int, t: int)
    requires number == days + EPOCH && days * DAY + seconds == t
    requires clock.hour * 3600 + clock.min * 60 + clock.sec == seconds
    ensures (number - EPOCH) * DAY + clock.hour * 3600 + clock.min * 60 + clock.sec == t
  {
  }

  function DaysOf(t: int): int { t / DAY }

  /** Truncating and then stepping back a day is flooring. */
  lemma DaySplit(t: int)
    ensures SplitDay(t) == DaySecond(DaysOf(t), t % DAY)
    ensures DaysOf(t) * DAY + t % DAY == t && 0 <= t % DAY < DAY && (t >= FIRST <==> DaysOf(t) >= -32044 - EPOCH)
  {
  }

  /** fromUtcTime misses the second by ten for every minute: it undoes toUtcTime exactly on
      the full hours. */
  lemma FromUtcLosesMinutes(t: int)
    requires t >= FIRST
    ensures FromUtc(ToUtc(t)) == t - 10 * ToUtc(t).clock.min
    ensures FromUtc(ToUtc(t)) == t <==> ToUtc(t).clock.min == 0
  {
    UtcFields(t);
  }

  /** Days of the year before a month, by the month lengths. */
  function DaysBefore(year: int, month: int): int
    decreases month
  {
    if month <= 1 then 0 else DaysBefore(year, month - 1) + DaysIn(year, month - 1)
  }

  lemma DaysBeforeIs(year: int, month: int)
    requires 1 <= month <= 12
    ensures DaysBefore(year, month)
            == if month <= 2 then 31 * (month - 1) else MonthStart(month - 3) + if Leap(year) then 60 else 59
  {
    if month > 3 {
      DaysBeforeIs(year, month - 1);
    }
  }

  /** tm_yday counts the days since the first of January, except in the year -4800, most of
      which lies in the range but whose January does not. */
  lemma YearDay(d: YearMonthDay)
    requires Valid(d) && InRange(d)
    ensures Number(d) - GetJulianDayNumber(d.year, 1, 1) == DaysBefore(d.year, d.month) + d.day - 1
            <==> d.year > -4800
  {
    DaysBeforeIs(d.year, d.month);
    NumberByMarch(d);
    JanuaryFirst(d.year);
    if d.year > -4800 && d.month > 2 {
      YearLength(d.year + 4799);
    }
  }

  lemma JanuaryFirst(year: int)
    requires year >= -4800
    ensures MonthStart(10) == 306 && MonthStart(11) == 337
    ensures year > -4800 ==> GetJulianDayNumber(year, 1, 1) == YearStart(year + 4799) + 306 + 1 - 32045
    ensures year == -4800 ==> GetJulianDayNumber(year, 1, 1) == -32103 && YearStart(0) == 0 && Leap(year)
  {
    if year > -4800 {
      NumberByMarch(YearMonthDay(year, 1, 1));
    }
  }

  /** The days of the week follow each other, Thursday being the first of 1970; before day
      number -1 the remainder is negative except on Sundays. */
  lemma WeekDays(j: int)
    ensures j >= -1 ==> WeekDay(j) == (4 + j - EPOCH) % 7
    ensures 0 <= WeekDay(j) < 7 <==> j >= -1 || (j + 1) % 7 == 0
  {
    assert EPOCH == 2440588;
    assert (4 + j - 2440588) % 7 == (j + 1) % 7;
  }

  /** The week day that toUtcTime returns: that of the second's own day, Thursday on the first
      day of 1970; a remainder outside 0..6 only before day number -1. */
  lemma UtcWeekDay(t: int)
    ensures DaysOf(t) + EPOCH >= -1 ==> ToUtc(t).wday == (4 + DaysOf(t)) % 7
    ensures 0 <= ToUtc(t).wday < 7 <==> DaysOf(t) + EPOCH >= -1 || (4 + DaysOf(t)) % 7 == 0
  {
    DaySplit(t);
    WeekDayOn(DaysOf(t) + EPOCH, DaysOf(t));
  }

  lemma WeekDayOn(j: int, days: int)
    requires j == days + EPOCH
    ensures j >= -1 ==> WeekDay(j) == (4 + days) % 7
    ensures 0 <= WeekDay(j) < 7 <==> j >= -1 || (4 + days) % 7 == 0
  {
    WeekDays(j);
    assert EPOCH == 2440588;
    assert (4 + days) % 7 == (j + 1) % 7;
  }

  /** The day of the year that it returns, by the month lengths before the date it returns. */
  lemma UtcYearDay(t: int)
    requires t >= FIRST
    ensures var f := ToUtc(t);
            f.yday == DaysBefore(f.date.year, f.date.month) + f.date.day - 1 <==> f.date.year > -4800
  {
    UtcDate(t);
    DaySplit(t);
    YearDay(ToUtc(t).date);
  }

  /** struct tm, filled field by field. */
  class Tm {
    var sec: int
    var min: int
    var hour: int
    var mday: int
    var mon: int
    var year: int
    var wday: int
    var yday: int

    ghost function Value(): Fields
      reads this
    {
      Fields(YearMonthDay(year + 1900, mon + 1, mday), Hms(hour, min, sec), wday, yday)
    }

    /** memZero. */
    constructor ()
      ensures Value() == Fields(YearMonthDay(1900, 1, 0), Hms(0, 0, 0), 0, 0)
    {
      sec, min, hour, mday, mon, year, wday, yday := 0, 0, 0, 0, 0, 0, 0, 0;
    }

    method FillHMS(seconds: nat)
      modifies this`sec, this`min, this`hour
      ensures Hms(hour, min, sec) == FillHms(seconds)
    {
      sec := seconds % 60;
      var minutes := seconds / 60;
      min := minutes % 60;
      hour := minutes / 60;
    }

    method FillDate(j: int, wantYday: bool)
      modifies this`year, this`mon, this`mday, this`wday, this`yday
      ensures Value().date == GetYearMonthDay(j) && wday == WeekDay(j)
      ensures yday == if wantYday then j - GetJulianDayNumber(Value().date.year, 1, 1) else old(yday)
    {
      var ymd := GetYearMonthDay(j);
      year := ymd.year - 1900;
      mon := ymd.month - 1;
      mday := ymd.day;
      wday := WeekDay(j);
      if wantYday {
        yday := j - GetJulianDayNumber(ymd.year, 1, 1);
      }
    }

    static method SplitDays(t: int) returns (days: int, seconds: nat)
      ensures DaySecond(days, seconds) == SplitDay(t)
    {
      DaySplit(t);
      var rem := Rem(t, DAY);
      days := Quot(t, DAY);
      if rem < 0 {
        rem := rem + DAY;
        days := days - 1;
      }
      seconds := rem;
    }

    method ToUtcTime(t: int, wantYday: bool)
      requires Value() == Fields(YearMonthDay(1900, 1, 0), Hms(0, 0, 0), 0, 0)
      modifies this
      ensures Value() == if wantYday then ToUtc(t) else ToUtc(t).(yday := 0)
    {
      var days, seconds := SplitDays(t);
      FillHMS(seconds);
      FillDate(days + EPOCH, wantYday);
    }
  }

  // ---------------------------------------------------------------- zones

  datatype Transition = Transition(gmttime: int, localtime: int, localtimeIdx: nat)

  datatype Localtime = Localtime(gmtOffset: int, isDst: bool)

  datatype Data = Data(transitions: seq<Transition>, localtimes: seq<Localtime>)

  /** A decoded zone: there is a type 0, every index is good, a transition's local time is read
      with the offset it starts, and transitions ascend on both clocks. */
  ghost predicate ZoneOk(d: Data) {
    && d.localtimes != []
    && (forall x <- d.transitions :: x.localtimeIdx < |d.localtimes|
                                     && x.localtime == x.gmttime + d.localtimes[x.localtimeIdx].gmtOffset)
    && Ascending(d.transitions, true) && Ascending(d.transitions, false)
  }

  function Key(x: Transition, gmt: bool): int { if gmt then x.gmttime else x.localtime }

  ghost predicate Ascending(ts: seq<Transition>, gmt: bool) {
    forall i, j :: 0 <= i < j < |ts| ==> Key(ts[i], gmt) < Key(ts[j], gmt)
  }

  /** Section 3.2 of RFC 8536: the last transition at or before t, or none. */
  function Last(ts: seq<Transition>, gmt: bool, t: int): int {
    if ts == [] then -1
    else if Key(ts[|ts| - 1], gmt) <= t then |ts| - 1
    else Last(ts[..|ts| - 1], gmt, t)
  }

  /** Its local time type; type 0 before the first transition. */
  function TypeOf(d: Data, k: int): Localtime
    requires -1 <= k < |d.transitions| && d.localtimes != []
    requires k >= 0 ==> d.transitions[k].localtimeIdx < |d.localtimes|
  {
    if k < 0 then d.localtimes[0] else d.localtimes[d.transitions[k].localtimeIdx]
  }

  lemma {:induction false} LastIs(ts: seq<Transition>, gmt: bool, t: int, k: int)
    requires Ascending(ts, gmt) && -1 <= k < |ts|
    requires k >= 0 ==> Key(ts[k], gmt) <= t
    requires k + 1 < |ts| ==> t < Key(ts[k + 1], gmt)
    ensures Last(ts, gmt, t) == k
  {
    if k < |ts| - 1 {
      assert t < Key(ts[|ts| - 1], gmt);
      LastIs(ts[..|ts| - 1], gmt, t, k);
    }
  }

  lemma {:induction false} LastBounds(ts: seq<Transition>, gmt: bool, t: int)
    ensures var k := Last(ts, gmt, t);
            && -1 <= k < |ts| && (k >= 0 ==> Key(ts[k], gmt) <= t)
            && forall i :: k < i < |ts| ==> t < Key(ts[i], gmt)
  {
    if ts != [] && Key(ts[|ts| - 1], gmt) > t {
      LastBounds(ts[..|ts| - 1], gmt, t);
    }
  }

  /** std::lower_bound. */
  method LowerBound(ts: seq<Transition>, gmt: bool, t: int) returns (i: nat)
    requires Ascending(ts, gmt)
    ensures i <= |ts|
    ensures forall j :: 0 <= j < i ==> Key(ts[j], gmt) < t
    ensures forall j :: i <= j < |ts| ==> t <= Key(ts[j], gmt)
  {
    i := 0;
    var n := |ts|;
    while n > 0
      invariant n >= 0 && i + n <= |ts|
      invariant forall j :: 0 <= j < i ==> Key(ts[j], gmt) < t
      invariant forall j :: i + n <= j < |ts| ==> t <= Key(ts[j], gmt)
    {
      var half := n / 2;
      if Key(ts[i + half], gmt) < t {
        i, n := i + half + 1, n - half - 1;
      } else {
        n := half;
      }
    }
  }

  method FindLocaltime(d: Data, t: int, gmt: bool) returns (local: Localtime)
    requires ZoneOk(d)
    ensures -1 <= Last(d.transitions, gmt, t) < |d.transitions|
    ensures local == TypeOf(d, Last(d.transitions, gmt, t))
  {
    LastBounds(d.transitions, gmt, t);
    if d.transitions == [] || t < Key(d.transitions[0], gmt) {
      LastIs(d.transitions, gmt, t, -1);
      local := d.localtimes[0];
    } else {
      var i := LowerBound(d.transitions, gmt, t);
      if i < |d.transitions| {
        if t != Key(d.transitions[i], gmt) {
          assert i != 0;
          i := i - 1;
        }
        LastIs(d.transitions, gmt, t, i);
        local := d.localtimes[d.transitions[i].localtimeIdx];
      } else {
        LastIs(d.transitions, gmt, t, |d.transitions| - 1);
        local := d.localtimes[d.transitions[|d.transitions| - 1].localtimeIdx];
      }
    }
  }

  /** A broken-down local time: the second that timegm gives for its calendar fields, and the
      zone's fields. */
  datatype LocalTm = LocalTm(seconds: int, isDst: bool, gmtoff: int)

  function Hour(tm: LocalTm): int { tm.seconds / 3600 % 24 }

  function Minute(tm: LocalTm): int { tm.seconds / 60 % 60 }

  ghost function ToLocal(d: Data, t: int): LocalTm
    requires ZoneOk(d)
  {
    LastBounds(d.transitions, true, t);
    var local := TypeOf(d, Last(d.transitions, true, t));
    LocalTm(t + local.gmtOffset, local.isDst, local.gmtOffset)
  }

  ghost function FromLocal(d: Data, tm: LocalTm): int
    requires ZoneOk(d)
  {
    LastBounds(d.transitions, false, tm.seconds);
    var local := TypeOf(d, Last(d.transitions, false, tm.seconds));
    var tryTm := ToLocal(d, tm.seconds - local.gmtOffset);
    if tm.isDst && !tryTm.isDst && Hour(tryTm) == Hour(tm) && Minute(tryTm) == Minute(tm)
    then tm.seconds - 3600 - local.gmtOffset
    else tm.seconds - local.gmtOffset
  }

  class TimeZone {
    const data: Data

    constructor (data: Data)
      ensures this.data == data
    {
      this.data := data;
    }

    method ToLocalTime(seconds: int) returns (localTime: LocalTm)
      requires ZoneOk(data)
      ensures localTime == ToLocal(data, seconds)
    {
      var local := FindLocaltime(data, seconds, true);
      localTime := LocalTm(seconds + local.gmtOffset, local.isDst, local.gmtOffset);
    }

    method FromLocalTime(localTm: LocalTm) returns (t: int)
      requires ZoneOk(data)
      ensures t == FromLocal(data, localTm)
    {
      var seconds := localTm.seconds;
      var local := FindLocaltime(data, seconds, false);
      if localTm.isDst {
        var tryTm := ToLocalTime(seconds - local.gmtOffset);
        if !tryTm.isDst && Hour(tryTm) == Hour(localTm) && Minute(tryTm) == Minute(localTm) {
          seconds := seconds - 3600;
        }
      }
      t := seconds - local.gmtOffset;
    }
  }

  // ---------------------------------------------------------------- there and back

  /** The offset before transition k, and how far the local clock is set back there. */
  function Before(d: Data, k: nat): Localtime
    requires ZoneShape(d) && k < |d.transitions|
  {
    TypeOf(d, k - 1)
  }

  predicate ZoneShape(d: Data) {
    d.localtimes != [] && forall x <- d.transitions :: x.localtimeIdx < |d.localtimes|
  }

  function SetBack(d: Data, k: nat): int
    requires ZoneShape(d) && k < |d.transitions|
  {
    Before(d, k).gmtOffset - TypeOf(d, k).gmtOffset
  }

  /** Transitions are further apart than the clock is ever set back. */
  ghost predicate Spaced(d: Data)
    requires ZoneShape(d)
  {
    forall k :: 0 <= k < |d.transitions| - 1 ==> Gap(d, k)
  }

  /** When the local clock shows the second pass, the next transition is still ahead, on both
      clocks. */
  predicate Gap(d: Data, k: nat)
    requires ZoneShape(d) && k < |d.transitions| - 1
  {
    && d.transitions[k + 1].gmttime - d.transitions[k].gmttime >= SetBack(d, k)
    && d.transitions[k + 1].localtime >= d.transitions[k].gmttime + Before(d, k).gmtOffset
  }

  /** A set-back that fromLocalTime can tell: one hour, from summer time to standard time. */
  predicate Recognized(d: Data, k: nat)
    requires ZoneShape(d) && k < |d.transitions|
  {
    Before(d, k).isDst && !TypeOf(d, k).isDst && SetBack(d, k) == 3600
  }

  /** The hour before transition k that the local clock shows twice, the first time round. */
  predicate FirstPass(d: Data, t: int, k: nat)
    requires ZoneShape(d) && k < |d.transitions|
  {
    Last(d.transitions, true, t) == k - 1 && t + Before(d, k).gmtOffset >= d.transitions[k].localtime
  }

  lemma ToLocalAt(d: Data, t: int, k: int)
    requires ZoneOk(d) && -1 <= k < |d.transitions| && Last(d.transitions, true, t) == k
    ensures ToLocal(d, t) == LocalTm(t + TypeOf(d, k).gmtOffset, TypeOf(d, k).isDst, TypeOf(d, k).gmtOffset)
  {
  }

  /** fromLocalTime, when the local time is read with type k and comes back from `u` again. */
  lemma FromLocalAt(d: Data, tm: LocalTm, k: int, u: int)
    requires ZoneOk(d) && -1 <= k < |d.transitions| && Last(d.transitions, false, tm.seconds) == k
    requires u == tm.seconds - TypeOf(d, k).gmtOffset && ToLocal(d, u).seconds == tm.seconds
    ensures FromLocal(d, tm) == u - if tm.isDst && !ToLocal(d, u).isDst then 3600 else 0
  {
  }

  /** Outside repeated local times, a second survives the trip. */
  lemma UnambiguousReturns(d: Data, t: int)
    requires ZoneOk(d) && Spaced(d)
    requires forall k :: 0 <= k < |d.transitions| ==> !FirstPass(d, t, k)
    ensures FromLocal(d, ToLocal(d, t)) == t
  {
    var k := Last(d.transitions, true, t);
    LastBounds(d.transitions, true, t);
    ToLocalAt(d, t, k);
    var tm := ToLocal(d, t);
    assert k + 1 < |d.transitions| ==> !FirstPass(d, t, k + 1);
    assert k >= 0 ==> Key(d.transitions[k], false) <= tm.seconds;
    LastIs(d.transitions, false, tm.seconds, k);
    FromLocalAt(d, tm, k, t);
  }

  /** A repeated local time is read with the later offset; trying that gives the second pass. */
  lemma FirstPassTypes(d: Data, t: int, k: nat)
    requires ZoneOk(d) && Spaced(d) && k < |d.transitions| && FirstPass(d, t, k)
    ensures SetBack(d, k) > 0
    ensures Last(d.transitions, false, t + Before(d, k).gmtOffset) == k
    ensures Last(d.transitions, true, t + SetBack(d, k)) == k
  {
    LastBounds(d.transitions, true, t);
    var x := d.transitions[k];
    assert t < x.gmttime && x.localtime == x.gmttime + TypeOf(d, k).gmtOffset;
    assert k + 1 < |d.transitions| ==> Gap(d, k);
    LastIs(d.transitions, false, t + Before(d, k).gmtOffset, k);
    LastIs(d.transitions, true, t + SetBack(d, k), k);
  }

  /** In a repeated local time's first pass, it survives exactly when the set-back is recognized. */
  lemma FirstPassReturns(d: Data, t: int, k: nat)
    requires ZoneOk(d) && Spaced(d) && k < |d.transitions| && FirstPass(d, t, k)
    ensures FromLocal(d, ToLocal(d, t)) == t <==> Recognized(d, k)
  {
    FirstPassTypes(d, t, k);
    var u := t + SetBack(d, k);
    ToLocalAt(d, t, k - 1);
    ToLocalAt(d, u, k);
    FromLocalAt(d, ToLocal(d, t), k, u);
  }

  lemma NotRecognized(d: Data, k: nat) returns (t: int)
    requires ZoneOk(d) && Spaced(d) && k < |d.transitions| && SetBack(d, k) > 0 && !Recognized(d, k)
    ensures FromLocal(d, ToLocal(d, t)) != t
  {
    t := d.transitions[k].gmttime - 1;
    assert k > 0 ==> Key(d.transitions[k - 1], true) < Key(d.transitions[k], true);
    LastIs(d.transitions, true, t, k - 1);
    FirstPassReturns(d, t, k);
  }

  /** fromLocalTime undoes toLocalTime on every second exactly when each time the clock is set
      back it is by an hour, from summer time to standard time. */
  lemma LocalRoundTrip(d: Data)
    requires ZoneOk(d) && Spaced(d)
    ensures (forall t :: FromLocal(d, ToLocal(d, t)) == t)
            <==> forall k :: 0 <= k < |d.transitions| && SetBack(d, k) > 0 ==> Recognized(d, k)
  {
    if k: nat :| k < |d.transitions| && SetBack(d, k) > 0 && !Recognized(d, k) {
      var t := NotRecognized(d, k);
    } else {
      forall t ensures FromLocal(d, ToLocal(d, t)) == t {
        Returns(d, t);
      }
    }
  }

  lemma Returns(d: Data, t: int)
    requires ZoneOk(d) && Spaced(d)
    requires forall k :: 0 <= k < |d.transitions| && SetBack(d, k) > 0 ==> Recognized(d, k)
    ensures FromLocal(d, ToLocal(d, t)) == t
  {
    if k: nat :| k < |d.transitions| && FirstPass(d, t, k) {
      FirstPassTypes(d, t, k);
      FirstPassReturns(d, t, k);
    } else {
      UnambiguousReturns(d, t);
    }
  }

  /** Moscow left UTC+4 for UTC+3 on 26 October 2014 without summer time: the hour before comes
      back an hour late. */
  lemma MoscowComesBackLate()
    ensures var g := 1414274400;
            var d := Data([Transition(g, g + 10800, 1)], [Localtime(14400, false), Localtime(10800, false)]);
            ZoneOk(d) && Spaced(d) && FromLocal(d, ToLocal(d, g - 1)) == g - 1 + 3600
  {
    var g := 1414274400;
    var d := Data([Transition(g, g + 10800, 1)], [Localtime(14400, false), Localtime(10800, false)]);
    LastIs(d.transitions, true, g - 1, -1);
    LastIs(d.transitions, false, g - 1 + 14400, 0);
  }
}
