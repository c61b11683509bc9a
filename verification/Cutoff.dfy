/** The weekly cutoff: a weekday and a clock time in a zone, made into an instant. */
module Cutoff {
  import opened Wrappers

  /** A zone: the local day an instant falls on, and the instant of a clock time on a local day. Days
      are numbered from the first of January 1970, a Thursday. */
  datatype Zone = Zone(dayOf: int -> int, at: (int, int, int) -> int)

  /** The local date never steps back, and a clock time of a day falls on that day. */
  ghost predicate Sane(z: Zone) {
    && (forall a, b :: a <= b ==> z.dayOf(a) <= z.dayOf(b))
    && (forall d, h, m :: 0 <= h <= 23 && 0 <= m <= 59 ==> z.dayOf(z.at(d, h, m)) == d)
  }

  /** The fixed weekly moment a promotion is cut at. */
  datatype Weekly = Weekly(zone: Zone, weekday: int, hour: int, minute: int)

  ghost predicate Set(c: Weekly) {
    Sane(c.zone) && 0 <= c.weekday < 7 && 0 <= c.hour <= 23 && 0 <= c.minute <= 59
  }

  const NAMES := ["Sunday", "Monday", "Tuesday", "Wednesday", "Thursday", "Friday", "Saturday"]

  function Weekday(day: int): int { (day + 4) % 7 }

  /** The weekdays turn from the Thursday that day nought was, before it and after. */
  lemma WeekdaysTurn(day: int)
    ensures NAMES[Weekday(0)] == "Thursday"
    ensures NAMES[Weekday(day + 1)] == NAMES[(Weekday(day) + 1) % 7]
    ensures 0 <= Weekday(day) < 7
  {
  }

  function MarkOn(c: Weekly, day: int): int { c.zone.at(day, c.hour, c.minute) }

  /** The local day the program looks at first: the last one of the weekday, today included. */
  function DayBefore(c: Weekly, now: int): int {
    var local := c.zone.dayOf(now);
    local - (Weekday(local) - c.weekday + 7) % 7
  }

  function CutoffOf(c: Weekly, now: int): int {
    var day := DayBefore(c, now);
    if MarkOn(c, day) > now then MarkOn(c, day - 7) else MarkOn(c, day)
  }

  /** A weekly mark: the clock time on some local day of that weekday. */
  ghost predicate Mark(c: Weekly, t: int) {
    exists d :: Weekday(d) == c.weekday && MarkOn(c, d) == t
  }

  ghost predicate LatestMark(c: Weekly, now: int, cut: int) {
    Mark(c, cut) && cut <= now && forall t :: Mark(c, t) && t <= now ==> t <= cut
  }

  lemma DayBeforeIsClose(c: Weekly, now: int)
    requires Set(c)
    ensures DayBefore(c, now) <= c.zone.dayOf(now) < DayBefore(c, now) + 7
    ensures Weekday(DayBefore(c, now)) == Weekday(DayBefore(c, now) - 7) == c.weekday
  {
  }

  lemma SameWeekdayIsAWeekAway(d: int, e: int)
    requires Weekday(d) == Weekday(e) && d < e
    ensures d + 7 <= e
  {
  }

  /** A mark that has passed falls on or before the chosen day, and before it when that day's own mark
      is still to come. */
  lemma PassedMarksAreNotLater(c: Weekly, now: int, e: int)
    requires Set(c) && Weekday(e) == c.weekday && MarkOn(c, e) <= now
    ensures e <= DayBefore(c, now)
    ensures MarkOn(c, DayBefore(c, now)) > now ==> e <= DayBefore(c, now) - 7
  {
    DayBeforeIsClose(c, now);
    assert c.zone.dayOf(MarkOn(c, e)) == e;
    assert e <= c.zone.dayOf(now);
    var day := DayBefore(c, now);
    assert day < e ==> day + 7 <= e by {
      if day < e {
        SameWeekdayIsAWeekAway(day, e);
      }
    }
    assert e < day ==> e + 7 <= day by {
      if e < day {
        SameWeekdayIsAWeekAway(e, day);
      }
    }
  }

  /** The cutoff is the latest weekly mark at or before now. */
  lemma CutoffIsLatestMark(c: Weekly, now: int)
    requires Set(c)
    ensures LatestMark(c, now, CutoffOf(c, now))
  {
    DayBeforeIsClose(c, now);
    var day := DayBefore(c, now);
    assert c.zone.dayOf(MarkOn(c, day - 7)) == day - 7;
    forall t | Mark(c, t) && t <= now ensures t <= CutoffOf(c, now) {
      var e :| Weekday(e) == c.weekday && MarkOn(c, e) == t;
      PassedMarksAreNotLater(c, now, e);
      MarksRise(c, e, if MarkOn(c, day) > now then day - 7 else day);
    }
  }

  lemma MarksRise(c: Weekly, d: int, e: int)
    requires Set(c) && d <= e
    ensures MarkOn(c, d) <= MarkOn(c, e)
  {
    assert c.zone.dayOf(MarkOn(c, d)) == d && c.zone.dayOf(MarkOn(c, e)) == e;
  }

  /** The cutoff never moves back. */
  lemma CutoffsRise(c: Weekly, now: int, later: int)
    requires Set(c) && now <= later
    ensures CutoffOf(c, now) <= CutoffOf(c, later)
  {
    CutoffIsLatestMark(c, now);
    CutoffIsLatestMark(c, later);
  }

  /** The cutoffs of a moment and of all later ones. */
  ghost predicate LaterMark(c: Weekly, now: int, cut: int) { Mark(c, cut) && CutoffOf(c, now) <= cut }

  /** Every mark at or after the cutoff of now is the cutoff of some moment from now on. */
  lemma MarkIsACutoff(c: Weekly, now: int, cut: int) returns (t: int)
    requires Set(c) && LaterMark(c, now, cut)
    ensures now <= t && CutoffOf(c, t) == cut
  {
    t := if now <= cut then cut else now;
    CutoffIsLatestMark(c, now);
    CutoffIsLatestMark(c, t);
  }

  lemma CutoffIsALaterMark(c: Weekly, now: int, t: int)
    requires Set(c) && now <= t
    ensures LaterMark(c, now, CutoffOf(c, t))
  {
    CutoffIsLatestMark(c, t);
    CutoffsRise(c, now, t);
  }

  datatype Fault = NoZone | UnknownWeekday | BadClock

  datatype Result = Ok(cut: int) | Err(fault: Fault)

  predicate ClockOk(clock: seq<Option<int>>) {
    |clock| == 2 && clock[0].Some? && clock[1].Some? && 0 <= clock[0].value <= 23 && 0 <= clock[1].value <= 59
  }

  lemma ClockTold(clock: seq<Option<int>>)
    ensures ClockOk(clock) <==> exists h, m :: clock == [Some(h), Some(m)] && 0 <= h < 24 && 0 <= m < 60
  {
    if ClockOk(clock) {
      assert clock == [Some(clock[0].value), Some(clock[1].value)];
    }
  }

  method WeekdayNamed(name: string) returns (r: Option<int>)
    ensures r.None? ==> name !in NAMES
    ensures r.Some? ==> 0 <= r.value < 7 && NAMES[r.value] == name
  {
    for i := 0 to 7
      invariant forall k :: 0 <= k < i ==> NAMES[k] != name
    {
      if NAMES[i] == name {
        return Some(i);
      }
    }
    return None;
  }

  /** What cutoffAt answers: a fault, in the order it looks for them, or the weekly mark it steps back to,
      which in a sane zone is the latest. */
  ghost predicate RightCutoff(zone: Option<Zone>, name: string, clock: seq<Option<int>>, now: int, r: Result) {
    && (zone.None? <==> r == Err(NoZone))
    && (zone.Some? && name !in NAMES <==> r == Err(UnknownWeekday))
    && (zone.Some? && name in NAMES && !(exists h, m :: clock == [Some(h), Some(m)] && 0 <= h < 24 && 0 <= m < 60) <==>
        r == Err(BadClock))
    && (r.Ok? ==> exists w :: 0 <= w < 7 && NAMES[w] == name && CutAtMark(zone.value, w, clock, now, r.cut))
  }

  ghost predicate CutAtMark(z: Zone, w: int, clock: seq<Option<int>>, now: int, cut: int) {
    ClockOk(clock) &&
    var c := Weekly(z, w, clock[0].value, clock[1].value);
    cut == CutoffOf(c, now) && (Sane(z) ==> LatestMark(c, now, cut))
  }

  method CutoffAt(now: int, zone: Option<Zone>, name: string, clock: seq<Option<int>>) returns (r: Result)
    ensures RightCutoff(zone, name, clock, now, r)
  {
    if zone.None? {
      return Err(NoZone);
    }
    var day := WeekdayNamed(name);
    if day.None? {
      return Err(UnknownWeekday);
    }
    ClockTold(clock);
    if !ClockOk(clock) {
      return Err(BadClock);
    }
    var z, hour, minute := zone.value, clock[0].value, clock[1].value;
    var local := z.dayOf(now);
    var days := (Weekday(local) - day.value + 7) % 7;
    var date := local - days;
    var cut := z.at(date, hour, minute);
    if cut > now {
      date := date - 7;
      cut := z.at(date, hour, minute);
    }
    ghost var c := Weekly(z, day.value, hour, minute);
    if Sane(z) {
      CutoffIsLatestMark(c, now);
    }
    assert cut == CutoffOf(c, now);
    assert CutAtMark(z, day.value, clock, now, cut);
    return Ok(cut);
  }
}
