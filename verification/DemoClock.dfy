/**
 The automations clock replayed over a fortnight: the stretches a window was open, the moment a
 slot was taken, the slots one automation took, and the judgements a watch may record. Moments are
 whole nanoseconds; where a wall time falls is given by an arbitrary function, so no rule about
 daylight changes is assumed, and a schedule is any function whose next slot is later.
 */
module DemoClock {
  import opened Sorting
  import opened Wrappers

  const SECOND := 1_000_000_000
  const MINUTE := 60 * SECOND
  const HOUR := 60 * MINUTE
  const DESK_OPENS := 8 * HOUR + 40 * MINUTE
  const DESK_CLOSES := 18 * HOUR + 20 * MINUTE
  const SITTING_FOR := 6 * HOUR
  const USAGE_DAYS := 14

  datatype Span = Span(from: int, to: int)

  datatype Hours = Hours(opens: int, closes: int)

  /** The hours of a day so many days back; a day no window was opened closes when it opens. */
  function HoursOf(day: nat): Hours {
    if day == 9 || day == 8 then Hours(0, 0)
    else if day == 7 then Hours(10 * HOUR + 15 * MINUTE, DESK_CLOSES)
    else if day == 4 then Hours(DESK_OPENS, 16 * HOUR + 10 * MINUTE)
    else if day == 3 then Hours(11 * HOUR + 30 * MINUTE, DESK_CLOSES)
    else Hours(DESK_OPENS, DESK_CLOSES)
  }

  predicate Within(s: Span, t: int) { s.from <= t <= s.to }

  ghost predicate Covered(spans: seq<Span>, t: int) { exists i :: 0 <= i < |spans| && Within(spans[i], t) }

  // ----- what the windows are made of

  function DaySpan(wall: (nat, int) -> int, day: nat, h: Hours): seq<Span> {
    if h.closes > h.opens then [Span(wall(day, h.opens), wall(day, h.closes))] else []
  }

  function DaySpans(wall: (nat, int) -> int, days: nat): seq<Span> {
    if days == 0 then [] else DaySpan(wall, days - 1, HoursOf(days - 1)) + DaySpans(wall, days - 1)
  }

  function MadeSpans(made: seq<int>): seq<Span>
    decreases |made|
  {
    if made == [] then []
    else MadeSpans(made[..|made| - 1]) + [Span(made[|made| - 1] - MINUTE, made[|made| - 1] + 10 * MINUTE)]
  }

  /** Every stretch before clipping: the working days, the window open now, and the making of each. */
  function RawSpans(now: int, made: seq<int>, wall: (nat, int) -> int): seq<Span> {
    DaySpans(wall, USAGE_DAYS) + [Span(now - SITTING_FOR, now)] + MadeSpans(made)
  }

  function Clip(now: int, s: Span): Span { if s.to > now then s.(to := now) else s }

  predicate Nonempty(s: Span) { s.from < s.to }

  function Clipped(now: int, spans: seq<Span>): seq<Span>
    decreases |spans|
  {
    if spans == [] then []
    else
      var front, s := Clipped(now, spans[..|spans| - 1]), Clip(now, spans[|spans| - 1]);
      if Nonempty(s) then front + [s] else front
  }

  /** Non-empty stretches in order, with time between each and the next, none of it after now. */
  ghost predicate Windows(spans: seq<Span>, now: int) {
    && (forall i :: 0 <= i < |spans| ==> Nonempty(spans[i]) && spans[i].to <= now)
    && (forall i, j :: 0 <= i < j < |spans| ==> spans[i].to < spans[j].from)
  }

  function FromOf(s: Span): real { s.from as real }

  // ----- the program's loops

  // What is gathered and the days still to come make up all of them.
  ghost predicate Gathered(spans: seq<Span>, wall: (nat, int) -> int, day: nat, days: nat) {
    spans + DaySpans(wall, day) == DaySpans(wall, days)
  }

  lemma DayGathered(spans: seq<Span>, wall: (nat, int) -> int, day: nat, days: nat, h: Hours)
    requires Gathered(spans, wall, day + 1, days) && h == HoursOf(day)
    ensures Gathered(spans + DaySpan(wall, day, h), wall, day, days)
  {
    Regroup(spans, DaySpan(wall, day, h), DaySpans(wall, day));
  }

  lemma Regroup(a: seq<Span>, b: seq<Span>, c: seq<Span>)
    ensures a + (b + c) == a + b + c
  {
  }

  method GatherDays(wall: (nat, int) -> int, days: nat) returns (spans: seq<Span>)
    ensures spans == DaySpans(wall, days)
  {
    spans := [];
    assert [] + DaySpans(wall, days) == DaySpans(wall, days);
    var day := days - 1;
    while day >= 0
      invariant -1 <= day < days
      invariant Gathered(spans, wall, day + 1, days)
    {
      var h := HoursOf(day);
      DayGathered(spans, wall, day, days, h);
      assert spans + [] == spans;
      if h.closes > h.opens {
        spans := spans + [Span(wall(day, h.opens), wall(day, h.closes))];
      }
      day := day - 1;
    }
    assert spans + DaySpans(wall, 0) == spans;
  }

  method GatherMade(made: seq<int>) returns (spans: seq<Span>)
    ensures spans == MadeSpans(made)
  {
    spans := [];
    for i := 0 to |made|
      invariant spans == MadeSpans(made[..i])
    {
      assert made[..i + 1][..i] == made[..i];
      spans := spans + [Span(made[i] - MINUTE, made[i] + 10 * MINUTE)];
    }
    assert made[..|made|] == made;
  }

  method GatherSpans(now: int, made: seq<int>, wall: (nat, int) -> int) returns (spans: seq<Span>)
    ensures spans == RawSpans(now, made, wall)
  {
    var days := GatherDays(wall, USAGE_DAYS);
    var making := GatherMade(made);
    spans := days + [Span(now - SITTING_FOR, now)] + making;
  }

  method ClipAll(now: int, spans: seq<Span>) returns (clipped: seq<Span>)
    ensures clipped == Clipped(now, spans)
  {
    clipped := [];
    for i := 0 to |spans|
      invariant clipped == Clipped(now, spans[..i])
    {
      assert spans[..i + 1][..i] == spans[..i];
      var span := spans[i];
      if span.to > now {
        span := span.(to := now);
      }
      if span.from < span.to {
        clipped := clipped + [span];
      }
    }
    assert spans[..|spans|] == spans;
  }

  /** Stretches in order of opening, merged where they touch or overlap: nothing is gained or lost. */
  method Merge(sorted: seq<Span>, now: int) returns (merged: seq<Span>)
    requires Sorted(sorted, FromOf) && forall i :: 0 <= i < |sorted| ==> Nonempty(sorted[i]) && sorted[i].to <= now
    ensures Windows(merged, now)
    ensures forall t :: Covered(merged, t) <==> Covered(sorted, t)
  {
    merged := [];
    for i := 0 to |sorted|
      invariant MergedSoFar(merged, sorted[..i], now)
    {
      var span := sorted[i];
      MergedUpTo(sorted, i, merged, now);
      ghost var more := Merged(merged, span);
      var last := |merged| - 1;
      if last >= 0 && span.from <= merged[last].to {
        if span.to > merged[last].to {
          merged := merged[last := merged[last].(to := span.to)];
        }
        assert merged == more;
        continue;
      }
      merged := merged + [span];
      assert merged == more;
    }
    assert sorted[..|sorted|] == sorted;
  }

  ghost predicate MergedSoFar(merged: seq<Span>, front: seq<Span>, now: int) {
    && Windows(merged, now)
    && (forall t :: Covered(merged, t) <==> Covered(front, t))
    && (merged == [] <==> front == [])
    && (front != [] ==> merged[|merged| - 1].from <= front[|front| - 1].from)
  }

  lemma MergedStep(merged: seq<Span>, front: seq<Span>, s: Span, now: int)
    requires MergedSoFar(merged, front, now) && Nonempty(s) && s.to <= now
    requires front != [] ==> front[|front| - 1].from <= s.from
    ensures MergedSoFar(Merged(merged, s), front + [s], now)
  {
    CoveredSnoc(front, s);
    MergedOne(merged, s, now);
  }

  lemma MergedUpTo(sorted: seq<Span>, i: nat, merged: seq<Span>, now: int)
    requires Sorted(sorted, FromOf) && forall i :: 0 <= i < |sorted| ==> Nonempty(sorted[i]) && sorted[i].to <= now
    requires i < |sorted| && MergedSoFar(merged, sorted[..i], now)
    ensures MergedSoFar(Merged(merged, sorted[i]), sorted[..i + 1], now)
  {
    assert 0 < i ==> FromOf(sorted[i - 1]) <= FromOf(sorted[i]);
    assert sorted[..i + 1] == sorted[..i] + [sorted[i]];
    MergedStep(merged, sorted[..i], sorted[i], now);
  }

  /** What becomes of the windows so far when the next stretch is taken in. */
  function Merged(spans: seq<Span>, s: Span): seq<Span> {
    var n := |spans| - 1;
    if spans == [] || s.from > spans[n].to then spans + [s]
    else if s.to > spans[n].to then spans[n := spans[n].(to := s.to)]
    else spans
  }

  lemma MergedOne(spans: seq<Span>, s: Span, now: int)
    requires Windows(spans, now) && Nonempty(s) && s.to <= now && (spans != [] ==> spans[|spans| - 1].from <= s.from)
    ensures Windows(Merged(spans, s), now)
    ensures forall t :: Covered(Merged(spans, s), t) <==> Covered(spans, t) || Within(s, t)
  {
    if spans == [] || s.from > spans[|spans| - 1].to {
      CoveredSnoc(spans, s);
    } else {
      CoveredGrown(spans, s);
    }
  }

  lemma CoveredSnoc(spans: seq<Span>, s: Span)
    ensures forall t :: Covered(spans + [s], t) <==> Covered(spans, t) || Within(s, t)
  {
    forall t ensures Covered(spans + [s], t) <==> Covered(spans, t) || Within(s, t) {
      if Covered(spans, t) {
        var i :| 0 <= i < |spans| && Within(spans[i], t);
        assert (spans + [s])[i] == spans[i];
      }
      if Within(s, t) {
        assert (spans + [s])[|spans|] == s;
      }
    }
  }

  /** Stretching the last of the stretches to reach over one that touches it covers just that one more. */
  lemma CoveredGrown(spans: seq<Span>, s: Span)
    requires spans != [] && spans[|spans| - 1].from <= s.from <= spans[|spans| - 1].to
    ensures var n := |spans| - 1;
      var more := if s.to > spans[n].to then spans[n := spans[n].(to := s.to)] else spans;
      forall t :: Covered(more, t) <==> Covered(spans, t) || Within(s, t)
  {
    var n := |spans| - 1;
    var more := if s.to > spans[n].to then spans[n := spans[n].(to := s.to)] else spans;
    CoveredSnoc(spans[..n], spans[n]);
    CoveredSnoc(more[..n], more[n]);
    assert spans == spans[..n] + [spans[n]] && more == more[..n] + [more[n]] && more[..n] == spans[..n];
  }

  lemma SamePlaces(a: seq<Span>, b: seq<Span>)
    requires multiset(a) == multiset(b)
    ensures forall t :: Covered(a, t) ==> Covered(b, t)
    ensures forall i :: 0 <= i < |a| ==> a[i] in b
  {
    forall i | 0 <= i < |a| ensures a[i] in b {
      assert a[i] in multiset(b);
    }
    forall t | Covered(a, t) ensures Covered(b, t) {
      var i :| 0 <= i < |a| && Within(a[i], t);
      var k :| 0 <= k < |b| && b[k] == a[i];
    }
  }

  lemma {:induction false} ClippedGood(now: int, spans: seq<Span>)
    ensures forall i :: 0 <= i < |Clipped(now, spans)| ==> Nonempty(Clipped(now, spans)[i]) && Clipped(now, spans)[i].to <= now
    decreases |spans|
  {
    if spans != [] {
      ClippedGood(now, spans[..|spans| - 1]);
    }
  }

  /** Somebody was at a window on a day so many days back, at t: not on the two days away, from a quarter past ten on
      the day after, until ten past four on the fourth, from half past eleven on the third, and else from twenty to nine
      to twenty past six. Times of day are in minutes. */
  predicate OnDay(wall: (nat, int) -> int, day: nat, now: int, t: int) {
    var from := wall(day, (if day == 7 then 615 else if day == 3 then 690 else 520) * 60_000_000_000);
    var till := wall(day, (if day == 4 then 970 else 1100) * 60_000_000_000);
    day != 9 && day != 8 && from < now && from < till && from <= t <= till
  }

  /** Somebody made an automation about t: from a minute before to ten minutes after. */
  predicate OnMaking(made: int, now: int, t: int) {
    made - 60_000_000_000 < now && made - 60_000_000_000 <= t <= made + 600_000_000_000
  }

  /** When a window was open, told from the days, the makings and the six hours of the sitting. */
  ghost predicate AtTheDesk(now: int, made: seq<int>, wall: (nat, int) -> int, t: int) {
    t <= now
    && (|| now - 21_600_000_000_000 <= t
        || (exists day :: 0 <= day < 14 && OnDay(wall, day, now, t))
        || (exists k :: 0 <= k < |made| && OnMaking(made[k], now, t)))
  }

  /** The windows of the fortnight are stretches in order with time between them, none after now, and they cover
      exactly the moments somebody was at a window: the working days, the makings, the sitting. */
  method DeskWindows(now: int, made: seq<int>, wall: (nat, int) -> int) returns (windows: seq<Span>)
    ensures Windows(windows, now)
    ensures forall t :: Covered(windows, t) <==> AtTheDesk(now, made, wall, t)
  {
    var spans := GatherSpans(now, made, wall);
    var clipped := ClipAll(now, spans);
    ClippedGood(now, spans);
    var sorted := SortUnstably(clipped, FromOf);
    SamePlaces(sorted, clipped);
    SamePlaces(clipped, sorted);
    windows := Merge(sorted, now);
    forall t ensures Covered(clipped, t) <==> AtTheDesk(now, made, wall, t) {
      ClippedCovers(now, spans, t);
      RawReaches(now, made, wall, t);
    }
  }

  // A stretch that began before now reaches over a moment no later than now.
  predicate Reaches(s: Span, now: int, t: int) { s.from < now && s.from < s.to && Within(s, t) && t <= now }

  ghost predicate AnyReaches(spans: seq<Span>, now: int, t: int) { exists i :: 0 <= i < |spans| && Reaches(spans[i], now, t) }

  lemma ReachesOneMore(spans: seq<Span>, now: int, t: int)
    requires spans != []
    ensures AnyReaches(spans, now, t) <==> AnyReaches(spans[..|spans| - 1], now, t) || Reaches(spans[|spans| - 1], now, t)
  {
    var front := spans[..|spans| - 1];
    assert forall i :: 0 <= i < |front| ==> front[i] == spans[i];
  }

  lemma ClippedOne(clipped: seq<Span>, s: Span, now: int, t: int)
    ensures Covered(if Nonempty(Clip(now, s)) then clipped + [Clip(now, s)] else clipped, t) <==> Covered(clipped, t) || Reaches(s, now, t)
  {
    CoveredSnoc(clipped, Clip(now, s));
  }

  lemma {:induction false} ClippedCovers(now: int, spans: seq<Span>, t: int)
    ensures Covered(Clipped(now, spans), t) <==> AnyReaches(spans, now, t)
    decreases |spans|
  {
    if spans != [] {
      ClippedCovers(now, spans[..|spans| - 1], t);
      ClippedOne(Clipped(now, spans[..|spans| - 1]), spans[|spans| - 1], now, t);
      ReachesOneMore(spans, now, t);
    }
  }

  lemma ReachesConcat(a: seq<Span>, b: seq<Span>, now: int, t: int)
    ensures AnyReaches(a + b, now, t) <==> AnyReaches(a, now, t) || AnyReaches(b, now, t)
  {
    var all := a + b;
    assert forall i :: 0 <= i < |a| ==> all[i] == a[i];
    assert forall i :: 0 <= i < |b| ==> all[|a| + i] == b[i];
    if i :| 0 <= i < |all| && Reaches(all[i], now, t) {
      assert if i < |a| then Reaches(a[i], now, t) else Reaches(b[i - |a|], now, t);
    }
  }

  lemma DayReaches(wall: (nat, int) -> int, day: nat, now: int, t: int)
    requires t <= now
    ensures AnyReaches(DaySpan(wall, day, HoursOf(day)), now, t) <==> OnDay(wall, day, now, t)
  {
    var h := HoursOf(day);
    if h.closes > h.opens {
      assert DaySpan(wall, day, h)[0] == Span(wall(day, h.opens), wall(day, h.closes));
    }
  }

  lemma {:induction false} DaysReach(wall: (nat, int) -> int, days: nat, now: int, t: int)
    requires t <= now
    ensures AnyReaches(DaySpans(wall, days), now, t) <==> exists day :: 0 <= day < days && OnDay(wall, day, now, t)
  {
    if days > 0 {
      DaysReach(wall, days - 1, now, t);
      DayReaches(wall, days - 1, now, t);
      ReachesConcat(DaySpan(wall, days - 1, HoursOf(days - 1)), DaySpans(wall, days - 1), now, t);
    }
  }

  lemma {:induction false} MakingsReach(made: seq<int>, now: int, t: int)
    requires t <= now
    ensures AnyReaches(MadeSpans(made), now, t) <==> exists k :: 0 <= k < |made| && OnMaking(made[k], now, t)
    decreases |made|
  {
    if made != [] {
      var n := |made| - 1;
      MakingsReach(made[..n], now, t);
      ReachesOneMore(MadeSpans(made), now, t);
      assert forall k :: 0 <= k < n ==> made[..n][k] == made[k];
      assert MadeSpans(made)[..|MadeSpans(made)| - 1] == MadeSpans(made[..n]);
    }
  }

  lemma PartsReach(days: seq<Span>, sitting: Span, making: seq<Span>, now: int, t: int)
    ensures AnyReaches(days + [sitting] + making, now, t) <==>
      AnyReaches(days, now, t) || Reaches(sitting, now, t) || AnyReaches(making, now, t)
  {
    ReachesConcat(days + [sitting], making, now, t);
    ReachesConcat(days, [sitting], now, t);
    assert AnyReaches([sitting], now, t) <==> Reaches([sitting][0], now, t);
  }

  lemma RawReaches(now: int, made: seq<int>, wall: (nat, int) -> int, t: int)
    ensures AnyReaches(RawSpans(now, made, wall), now, t) <==> AtTheDesk(now, made, wall, t)
  {
    if t <= now {
      DaysReach(wall, USAGE_DAYS, now, t);
      MakingsReach(made, now, t);
      PartsReach(DaySpans(wall, USAGE_DAYS), Span(now - SITTING_FOR, now), MadeSpans(made), now, t);
    }
  }

  // ----- when a slot is taken

  datatype Taken = Taken(at: int, closes: int)

  function TakenIn(s: Span, slot: int): Taken {
    if slot < s.from then Taken(s.from, s.to)
    else Taken(if slot + SECOND > s.to then s.to else slot + SECOND, s.to)
  }

  function WhenOf(windows: seq<Span>, slot: int): Option<Taken> {
    if windows == [] then None
    else if slot > windows[0].to then WhenOf(windows[1..], slot)
    else Some(TakenIn(windows[0], slot))
  }

  method When(windows: seq<Span>, slot: int) returns (r: Option<Taken>)
    ensures r == WhenOf(windows, slot)
  {
    for i := 0 to |windows|
      invariant WhenOf(windows, slot) == WhenOf(windows[i..], slot)
    {
      var span := windows[i];
      if slot > span.to {
        continue;
      }
      if slot < span.from {
        return Some(Taken(span.from, span.to));
      }
      var at := slot + SECOND;
      if at > span.to {
        at := span.to;
      }
      return Some(Taken(at, span.to));
    }
    return None;
  }

  /** The first window not over at the slot takes it: as it opens, or within a second of the slot but no later than it
      closes. Where every window is over, nothing does. */
  lemma {:induction false} FirstWindowTakes(windows: seq<Span>, slot: int, i: nat)
    requires i <= |windows| && forall k :: 0 <= k < i ==> windows[k].to < slot
    requires i < |windows| ==> slot <= windows[i].to
    ensures var r := WhenOf(windows, slot);
      && (r.None? <==> i == |windows|)
      && (r.Some? ==>
          var s := windows[i];
          && r.value.closes == s.to
          && (slot < s.from ==> r.value.at == s.from)
          && (s.from <= slot ==> r.value.at == slot + 1_000_000_000 || (r.value.at == s.to && s.to < slot + 1_000_000_000))
          && (s.from <= slot && slot + 1_000_000_000 <= s.to ==> r.value.at == slot + 1_000_000_000))
    decreases i
  {
    if i > 0 {
      assert windows[0].to < slot;
      FirstWindowTakes(windows[1..], slot, i - 1);
    }
  }

  /** A slot is taken inside a window, never before its time, and at the first moment of any window
      from the slot on, or within a second of the slot where a window is open; it is taken by nobody
      exactly when no window is open from then on. */
  ghost predicate RightlyTaken(windows: seq<Span>, now: int, slot: int, w: Option<Taken>) {
    && (w.None? <==> forall t :: slot <= t ==> !Covered(windows, t))
    && (w.Some? ==> slot <= w.value.at <= w.value.closes <= now && Covered(windows, w.value.at))
    && (w.Some? && !Covered(windows, slot) ==> forall t :: slot <= t < w.value.at ==> !Covered(windows, t))
    && (w.Some? && Covered(windows, slot) ==> w.value.at <= slot + SECOND)
  }

  lemma {:induction false} TakenInAWindow(windows: seq<Span>, now: int, slot: int)
    requires Windows(windows, now)
    ensures RightlyTaken(windows, now, slot, WhenOf(windows, slot))
  {
    if windows != [] {
      if slot > windows[0].to {
        TakenInAWindow(windows[1..], now, slot);
        TakenLater(windows, now, slot, WhenOf(windows[1..], slot));
      } else {
        TakenFirst(windows, now, slot);
      }
    }
  }

  lemma TakenLater(windows: seq<Span>, now: int, slot: int, w: Option<Taken>)
    requires Windows(windows, now) && windows != [] && slot > windows[0].to && RightlyTaken(windows[1..], now, slot, w)
    ensures RightlyTaken(windows, now, slot, w)
  {
    CoveredCons(windows);
  }

  lemma TakenFirst(windows: seq<Span>, now: int, slot: int)
    requires Windows(windows, now) && windows != [] && slot <= windows[0].to
    ensures RightlyTaken(windows, now, slot, Some(TakenIn(windows[0], slot)))
  {
    var s := windows[0];
    var at := TakenIn(s, slot).at;
    assert Within(s, at) && Within(s, s.to);
    assert Covered(windows, at) && Covered(windows, s.to);
    assert forall i :: 0 < i < |windows| ==> s.to < windows[i].from;
    assert forall t :: t < s.from ==> !Covered(windows, t);
  }

  lemma CoveredCons(spans: seq<Span>)
    requires spans != []
    ensures forall t :: Covered(spans, t) <==> Within(spans[0], t) || Covered(spans[1..], t)
  {
    forall t ensures Covered(spans, t) <==> Within(spans[0], t) || Covered(spans[1..], t) {
      if Covered(spans[1..], t) {
        var i :| 0 <= i < |spans[1..]| && Within(spans[1..][i], t);
        assert spans[i + 1] == spans[1..][i];
      }
      if Covered(spans, t) && !Within(spans[0], t) {
        var i :| 0 <= i < |spans| && Within(spans[i], t);
        assert spans[1..][i - 1] == spans[i];
      }
    }
  }

  /** A later slot is never taken earlier, nor taken where an earlier one is not. */
  lemma {:induction false} LaterSlotsLater(windows: seq<Span>, now: int, slot: int, later: int)
    requires Windows(windows, now) && slot <= later && WhenOf(windows, later).Some?
    ensures WhenOf(windows, slot).Some?
    ensures WhenOf(windows, slot).value.at <= WhenOf(windows, later).value.at
    ensures WhenOf(windows, slot).value.closes <= WhenOf(windows, later).value.closes
  {
    if later > windows[0].to {
      if slot > windows[0].to {
        LaterSlotsLater(windows[1..], now, slot, later);
      } else {
        TakenInAWindow(windows[1..], now, later);
        AfterFirst(windows, now, later);
      }
    }
  }

  lemma {:induction false} AfterFirst(windows: seq<Span>, now: int, slot: int)
    requires Windows(windows, now) && windows != [] && WhenOf(windows[1..], slot).Some?
    ensures windows[0].to < WhenOf(windows[1..], slot).value.at
    ensures windows[0].to < WhenOf(windows[1..], slot).value.closes
  {
    TakenInAWindow(windows[1..], now, slot);
    var at := WhenOf(windows[1..], slot).value.at;
    var i :| 0 <= i < |windows[1..]| && Within(windows[1..][i], at);
    assert windows[i + 1] == windows[1..][i];
  }

  // ----- the slots one automation took

  datatype NextSlot = Failed | Never | Slot(t: int)

  datatype Take = Take(slot: int, at: int, closes: int)

  /** One automation to replay: the windows and the fixture's now, when it was paused, whether it
      repeats, what it speaks after, its first slot and its schedule. */
  datatype Job = Job(windows: seq<Span>, now: int, paused: Option<int>, repeats: bool, speaks: Option<int>,
                     first: NextSlot, next: int -> NextSlot)

  ghost predicate Later(next: int -> NextSlot) { forall t :: next(t).Slot? ==> next(t).t > t }

  ghost predicate Proper(j: Job) { Windows(j.windows, j.now) && Later(j.next) }

  /** The clock takes nothing after the fixture's now, nor from a pause on. */
  predicate Stopped(j: Job, slot: int) {
    var w := WhenOf(j.windows, slot);
    w.None? || w.value.at > j.now || (j.paused.Some? && w.value.at >= j.paused.value)
  }

  /** After this take there is no other: it does not repeat, or it has come to what it speaks after. */
  predicate LastTake(j: Job, t: Take) { !j.repeats || (j.speaks.Some? && t.at >= j.speaks.value) }

  predicate IsTake(j: Job, t: Take) { !Stopped(j, t.slot) && WhenOf(j.windows, t.slot) == Some(Taken(t.at, t.closes)) }

  predicate Follows(j: Job, a: Take, b: Take) { j.next(a.at) == Slot(b.slot) && !LastTake(j, a) }

  /** No window takes the slot before the fixture's now is over or the automation is paused. */
  predicate TakesNothing(j: Job, slot: int) {
    var w := WhenOf(j.windows, slot);
    w.Some? ==> w.value.at > j.now || (j.paused.Some? && w.value.at >= j.paused.value)
  }

  /** The takes of an automation: each the taking of its slot, and each slot the schedule's next after
      the take before it. */
  ghost predicate Chain(j: Job, takes: seq<Take>) {
    && (forall i :: 0 <= i < |takes| ==> IsTake(j, takes[i]))
    && (takes != [] ==> j.first == Slot(takes[0].slot))
    && (forall i :: 0 < i < |takes| ==> Follows(j, takes[i - 1], takes[i]))
  }

  function Upcoming(j: Job, takes: seq<Take>): NextSlot { if takes == [] then j.first else j.next(takes[|takes| - 1].at) }

  predicate Closed(j: Job, takes: seq<Take>) { takes != [] && LastTake(j, takes[|takes| - 1]) }

  /** Why a chain of takes ends where it does: its last take was the last, the schedule has no more,
      or the clock took nothing further. */
  predicate Ended(j: Job, takes: seq<Take>) {
    Closed(j, takes) || (Upcoming(j, takes).Slot? ==> Stopped(j, Upcoming(j, takes).t))
  }

  /** The loop over the slots; what its contract comes to is told in `TakeTold` and `EndTold`. */
  method Slots(j: Job) returns (takes: seq<Take>, failed: bool)
    requires Proper(j) && !j.first.Failed?
    ensures Chain(j, takes) && Ended(j, takes)
    ensures failed <==> !Closed(j, takes) && Upcoming(j, takes).Failed?
  {
    takes := [];
    var upcoming := j.first;
    while upcoming.Slot?
      invariant Chain(j, takes) && !Closed(j, takes)
      invariant upcoming == Upcoming(j, takes) && !upcoming.Failed?
      decreases if upcoming.Slot? then j.now - upcoming.t + 1 else -1
    {
      var w := When(j.windows, upcoming.t);
      if w.None? || w.value.at > j.now || (j.paused.Some? && w.value.at >= j.paused.value) {
        return takes, false;
      }
      TakenInAWindow(j.windows, j.now, upcoming.t);
      var one := Take(upcoming.t, w.value.at, w.value.closes);
      ChainSnoc(j, takes, one);
      takes := takes + [one];
      if !j.repeats || (j.speaks.Some? && one.at >= j.speaks.value) {
        return takes, false;
      }
      upcoming := j.next(one.at);
      if upcoming.Failed? {
        return takes, true;
      }
    }
    return takes, false;
  }

  /** A take of the loop, told by the schedule, the pause and what is spoken after: it is the taking of its slot, not
      after now and before any pause, and if another follows it is not the last and the slot of that one is the
      schedule's next. */
  lemma TakeTold(j: Job, takes: seq<Take>, i: nat)
    requires Chain(j, takes) && i < |takes|
    ensures WhenOf(j.windows, takes[i].slot) == Some(Taken(takes[i].at, takes[i].closes))
    ensures takes[i].at <= j.now && (j.paused.Some? ==> takes[i].at < j.paused.value)
    ensures i == 0 ==> j.first == Slot(takes[i].slot)
    ensures i + 1 < |takes| ==>
      j.repeats && j.next(takes[i].at) == Slot(takes[i + 1].slot) && (j.speaks.Some? ==> takes[i].at < j.speaks.value)
  {
    assert IsTake(j, takes[i]);
    if i + 1 < |takes| {
      assert Follows(j, takes[(i + 1) - 1], takes[i + 1]);
    }
  }

  /** Where the loop stops: before any take when no window takes the first slot, and after one that repeats and has not
      come to what it speaks after only when no window takes the schedule's next. */
  lemma EndTold(j: Job, takes: seq<Take>)
    requires Ended(j, takes)
    ensures takes == [] && j.first.Slot? ==> TakesNothing(j, j.first.t)
    ensures takes != [] ==>
      var at := takes[|takes| - 1].at;
      j.repeats && (j.speaks.Some? ==> at < j.speaks.value) && j.next(at).Slot? ==> TakesNothing(j, j.next(at).t)
  {
  }

  lemma ChainSnoc(j: Job, takes: seq<Take>, one: Take)
    requires Chain(j, takes) && !Closed(j, takes) && IsTake(j, one) && Upcoming(j, takes) == Slot(one.slot)
    ensures Chain(j, takes + [one])
  {
  }

  /** Takes come in order of time, each no earlier than its slot and inside its window. */
  lemma {:induction false} TakesRise(j: Job, takes: seq<Take>, a: nat, b: nat)
    requires Proper(j) && Chain(j, takes) && a < b < |takes|
    ensures takes[a].slot <= takes[a].at < takes[b].slot <= takes[b].at <= takes[b].closes <= j.now
    ensures Covered(j.windows, takes[a].at)
    decreases b
  {
    assert IsTake(j, takes[a]) && IsTake(j, takes[b]) && Follows(j, takes[b - 1], takes[b]);
    TakenInAWindow(j.windows, j.now, takes[a].slot);
    TakenInAWindow(j.windows, j.now, takes[b].slot);
    if a < b - 1 {
      TakesRise(j, takes, a, b - 1);
    }
  }

  /** MISSED SLOTS ARE CAUGHT UP ONCE. Of the slots taken, no two lie in one stretch with no window
      open: between any two of them some window was open, and the earlier was taken in it. */
  lemma CaughtUpOnce(j: Job, takes: seq<Take>, a: nat, b: nat)
    requires Proper(j) && Chain(j, takes) && a < b < |takes|
    ensures exists t :: takes[a].slot <= t < takes[b].slot && Covered(j.windows, t)
  {
    TakesRise(j, takes, a, b);
    assert takes[a].slot <= takes[a].at < takes[b].slot && Covered(j.windows, takes[a].at);
  }

  /** There is one chain of takes that ends as it must: what the replay found is what there was. */
  lemma {:induction false} OneReplay(j: Job, xs: seq<Take>, ys: seq<Take>)
    requires Chain(j, xs) && Ended(j, xs) && Chain(j, ys) && Ended(j, ys)
    ensures xs == ys
  {
    if |xs| <= |ys| {
      SamePrefix(j, xs, ys, |xs|);
      NoMore(j, xs, ys);
    } else {
      SamePrefix(j, ys, xs, |ys|);
      NoMore(j, ys, xs);
    }
  }

  lemma {:induction false} SamePrefix(j: Job, xs: seq<Take>, ys: seq<Take>, n: nat)
    requires Chain(j, xs) && Chain(j, ys) && n <= |xs| && n <= |ys|
    ensures xs[..n] == ys[..n]
    decreases n
  {
    if n > 0 {
      SamePrefix(j, xs, ys, n - 1);
      assert IsTake(j, xs[n - 1]) && IsTake(j, ys[n - 1]);
      if n > 1 {
        assert Follows(j, xs[n - 2], xs[n - 1]) && Follows(j, ys[n - 2], ys[n - 1]);
        assert xs[n - 2] == xs[..n - 1][n - 2] == ys[..n - 1][n - 2] == ys[n - 2];
      }
      assert xs[..n] == xs[..n - 1] + [xs[n - 1]] && ys[..n] == ys[..n - 1] + [ys[n - 1]];
    }
  }

  lemma NoMore(j: Job, xs: seq<Take>, ys: seq<Take>)
    requires |xs| <= |ys| && xs == ys[..|xs|] && Ended(j, xs) && Chain(j, ys)
    ensures xs == ys
  {
    if |xs| < |ys| {
      WentOn(j, ys, |xs|);
    }
  }

  // Where a chain went on, it had not ended.
  lemma WentOn(j: Job, ys: seq<Take>, n: nat)
    requires Chain(j, ys) && n < |ys|
    ensures !Ended(j, ys[..n])
  {
    assert IsTake(j, ys[n]);
    if 0 < n {
      assert Follows(j, ys[n - 1], ys[n]) && ys[..n][n - 1] == ys[n - 1];
    }
  }

  /** When a run ended: after what it took, or when its window closed. */
  function FinishedAt(t: Take, took: int): int { if t.at + took > t.closes then t.closes else t.at + took }

  /** Every run ends inside the window it was taken in, no earlier than it was taken, and not after now. */
  lemma RunsEndInTheirWindow(windows: seq<Span>, now: int, slot: int, took: int)
    requires Windows(windows, now) && 0 <= took && WhenOf(windows, slot).Some?
    ensures var w := WhenOf(windows, slot).value;
      var finished := FinishedAt(Take(slot, w.at, w.closes), took);
      && w.at <= finished <= w.closes <= now
      && (finished < w.closes ==> finished - w.at == took)
      && (finished == w.closes ==> took >= w.closes - w.at)
      && forall t :: w.at <= t <= finished ==> Covered(windows, t)
  {
    TakenInAWindow(windows, now, slot);
    OneWindow(windows, now, slot);
  }

  // The moment of taking and the closing belong to one window.
  lemma {:induction false} OneWindow(windows: seq<Span>, now: int, slot: int)
    requires Windows(windows, now) && WhenOf(windows, slot).Some?
    ensures var w := WhenOf(windows, slot).value;
      forall t :: w.at <= t <= w.closes ==> Covered(windows, t)
  {
    CoveredCons(windows);
    if slot > windows[0].to {
      OneWindow(windows[1..], now, slot);
    }
  }

  // ----- what a watch may record

  datatype Outcome = Unchecked | Quiet | Done | Other

  datatype Look = Look(judged: string, outcome: Outcome)

  /** The last judgement that decided anything. */
  function SeenAfter(looks: seq<Look>): string
    decreases |looks|
  {
    if looks == [] then ""
    else if looks[|looks| - 1].judged != "" then looks[|looks| - 1].judged
    else SeenAfter(looks[..|looks| - 1])
  }

  function Expected(judged: string, seen: string): Outcome {
    if judged == "" then Unchecked else if judged == "no" || seen == "yes" then Quiet else Done
  }

  predicate LookOk(watch: bool, looks: seq<Look>, i: nat)
    requires i < |looks|
  {
    if watch then looks[i].outcome == Expected(looks[i].judged, SeenAfter(looks[..i])) else looks[i].judged == ""
  }

  /** The last look before i that judged anything judged yes. */
  ghost predicate YesBefore(looks: seq<Look>, i: nat)
    requires i <= |looks|
  {
    exists k :: 0 <= k < i && looks[k].judged == "yes" && forall m :: k < m < i ==> looks[m].judged == ""
  }

  /** What a look may come to: unchecked exactly when it judged nothing; quiet exactly on a no, or while the yes before
      it stands; done otherwise. What is no watch judges nothing. */
  ghost predicate Fits(watch: bool, looks: seq<Look>, i: nat)
    requires i < |looks|
  {
    var look := looks[i];
    if !watch then look.judged == ""
    else
      && (look.outcome == Unchecked <==> look.judged == "")
      && (look.outcome == Quiet <==> look.judged == "no" || (look.judged != "" && YesBefore(looks, i)))
      && (look.outcome == Done <==> look.judged != "" && look.judged != "no" && !YesBefore(looks, i))
  }

  lemma {:induction false} SeenIsTheLast(looks: seq<Look>, i: nat)
    requires i <= |looks|
    ensures SeenAfter(looks[..i]) == "yes" <==> YesBefore(looks, i)
  {
    if i > 0 {
      assert looks[..i][..i - 1] == looks[..i - 1];
      SeenIsTheLast(looks, i - 1);
      if looks[i - 1].judged == "" && YesBefore(looks, i - 1) {
        var k :| 0 <= k < i - 1 && looks[k].judged == "yes" && forall m :: k < m < i - 1 ==> looks[m].judged == "";
        assert forall m :: k < m < i ==> looks[m].judged == "";
      }
    }
  }

  lemma LookFits(watch: bool, looks: seq<Look>, i: nat)
    requires i < |looks|
    ensures LookOk(watch, looks, i) <==> Fits(watch, looks, i)
  {
    SeenIsTheLast(looks, i);
  }

  /** A history is refused at the first look whose outcome the clock would not have recorded; what is
      no watch may judge nothing. */
  method CheckJudgments(watch: bool, looks: seq<Look>) returns (bad: Option<nat>)
    ensures bad.None? <==> forall i :: 0 <= i < |looks| ==> Fits(watch, looks, i)
    ensures bad.Some? ==> bad.value < |looks| && !Fits(watch, looks, bad.value) && forall i :: 0 <= i < bad.value ==> Fits(watch, looks, i)
  {
    forall i | 0 <= i < |looks| ensures LookOk(watch, looks, i) <==> Fits(watch, looks, i) {
      LookFits(watch, looks, i);
    }
    var seen := "";
    for i := 0 to |looks|
      invariant watch ==> seen == SeenAfter(looks[..i])
      invariant forall k :: 0 <= k < i ==> LookOk(watch, looks, k)
    {
      var run := looks[i];
      assert looks[..i + 1][..i] == looks[..i];
      if !watch {
        if run.judged != "" {
          assert !LookOk(watch, looks, i);
          return Some(i);
        }
        continue;
      }
      var want := Done;
      if run.judged == "" {
        want := Unchecked;
      } else if run.judged == "no" || seen == "yes" {
        want := Quiet;
      }
      if run.outcome != want {
        assert !LookOk(watch, looks, i);
        return Some(i);
      }
      if run.judged != "" {
        seen := run.judged;
      }
    }
    return None;
  }

  ghost predicate Accepted(looks: seq<Look>) {
    forall i :: 0 <= i < |looks| ==> Fits(true, looks, i)
  }

  /** A watch that spoke on a yes speaks again only after something else was judged in between. */
  lemma SpeaksOnTheChange(looks: seq<Look>, i: nat, j: nat)
    requires Accepted(looks) && i < j < |looks|
    requires looks[i].outcome == Done && looks[i].judged == "yes" && looks[j].outcome == Done
    ensures exists k :: i < k < j && looks[k].judged != "" && looks[k].judged != "yes"
  {
    assert Fits(true, looks, j);
    LookFits(true, looks, j);
    if forall k :: i < k < j ==> looks[k].judged == "" || looks[k].judged == "yes" {
      StillYes(looks, i, j);
    }
  }

  lemma {:induction false} StillYes(looks: seq<Look>, i: nat, j: nat)
    requires i < j <= |looks| && looks[i].judged == "yes"
    requires forall k :: i < k < j ==> looks[k].judged == "" || looks[k].judged == "yes"
    ensures SeenAfter(looks[..j]) == "yes"
    decreases j
  {
    assert looks[..j][..j - 1] == looks[..j - 1];
    if i < j - 1 {
      StillYes(looks, i, j - 1);
    }
  }
}
