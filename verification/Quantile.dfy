/** The weighted quantile of what a sample has left. */
module Quantile {
  import opened Forgetting
  import opened Sample
  import opened Sorting

  datatype Weighed = Weighed(value: real, weight: real)

  /** Every observation with what it has left at a moment, those with nothing left out. */
  function Held(exp2: real -> real, half: real, now: real, s: seq<Obs>): seq<Weighed> {
    if s == [] then []
    else
      var weight := Decay(exp2, now - s[0].when, half);
      (if weight <= 0.0 then [] else [Weighed(s[0].value, weight)]) + Held(exp2, half, now, s[1..])
  }

  /** The weight of those whose value satisfies a test. */
  function Weight(s: seq<Weighed>, p: real -> bool): real {
    if s == [] then 0.0 else (if p(s[0].value) then s[0].weight else 0.0) + Weight(s[1..], p)
  }

  predicate Any(x: real) { true }

  function UpTo(v: real): real -> bool { x => x <= v }

  function Below(v: real): real -> bool { x => x < v }

  ghost predicate Positive(s: seq<Weighed>) { forall i :: 0 <= i < |s| ==> 0.0 < s[i].weight }

  ghost predicate Holds(s: seq<Weighed>, v: real) { exists i :: 0 <= i < |s| && s[i].value == v }

  /** The value where the weight, counted from the least value up, first reaches what is wanted. */
  ghost predicate IsQuantile(s: seq<Weighed>, want: real, v: real) {
    Holds(s, v) && want <= Weight(s, UpTo(v)) && Weight(s, Below(v)) < want
  }

  function Want(share: real, total: real): real { share * total }

  function ValueOf(w: Weighed): real { w.value }

  lemma {:induction false} WeightGrows(s: seq<Weighed>, p: real -> bool, q: real -> bool)
    requires Positive(s) && forall i :: 0 <= i < |s| && p(s[i].value) ==> q(s[i].value)
    ensures 0.0 <= Weight(s, p) <= Weight(s, q)
  {
    if s != [] {
      WeightGrows(s[1..], p, q);
    }
  }

  lemma {:induction false} WeightSame(s: seq<Weighed>, p: real -> bool, q: real -> bool)
    requires forall i :: 0 <= i < |s| ==> p(s[i].value) == q(s[i].value)
    ensures Weight(s, p) == Weight(s, q)
  {
    if s != [] {
      WeightSame(s[1..], p, q);
    }
  }

  lemma {:induction false} WeightNone(s: seq<Weighed>, p: real -> bool)
    requires forall i :: 0 <= i < |s| ==> !p(s[i].value)
    ensures Weight(s, p) == 0.0
  {
    if s != [] {
      WeightNone(s[1..], p);
    }
  }

  lemma {:induction false} WeightConcat(a: seq<Weighed>, b: seq<Weighed>, p: real -> bool)
    ensures Weight(a + b, p) == Weight(a, p) + Weight(b, p)
  {
    if a == [] {
      assert a + b == b;
    } else {
      assert (a + b)[1..] == a[1..] + b && (a + b)[0] == a[0];
      WeightConcat(a[1..], b, p);
    }
  }

  lemma WeightSplit(s: seq<Weighed>, i: nat, p: real -> bool)
    requires i <= |s|
    ensures Weight(s, p) == Weight(s[..i], p) + Weight(s[i..], p)
  {
    assert s == s[..i] + s[i..];
    WeightConcat(s[..i], s[i..], p);
  }

  lemma WeightWithout(s: seq<Weighed>, i: nat, p: real -> bool)
    requires i < |s|
    ensures Weight(s, p) == (if p(s[i].value) then s[i].weight else 0.0) + Weight(s[..i] + s[i + 1..], p)
    ensures multiset(s[..i] + s[i + 1..]) == multiset(s) - multiset{s[i]}
  {
    WeightSplit(s, i, p);
    assert s[i..][1..] == s[i + 1..];
    WeightConcat(s[..i], s[i + 1..], p);
    Without(s, i);
  }

  lemma Without(s: seq<Weighed>, i: nat)
    requires i < |s|
    ensures multiset(s[..i] + s[i + 1..]) == multiset(s) - multiset{s[i]}
  {
    assert s == s[..i] + [s[i]] + s[i + 1..];
  }

  /** The order of the observations does not show in any weight. */
  lemma {:induction false} WeightPermutes(a: seq<Weighed>, b: seq<Weighed>, p: real -> bool)
    requires multiset(a) == multiset(b)
    ensures Weight(a, p) == Weight(b, p)
  {
    if a == [] {
      assert |multiset(b)| == 0;
    } else {
      assert a == [a[0]] + a[1..];
      assert a[0] in multiset(b);
      var i :| 0 <= i < |b| && b[i] == a[0];
      WeightWithout(b, i, p);
      WeightPermutes(a[1..], b[..i] + b[i + 1..], p);
    }
  }

  /** More wanted, no smaller a value; the same wanted, the same value. */
  lemma QuantileOrder(s: seq<Weighed>, want: real, more: real, v: real, u: real)
    requires Positive(s) && want <= more && IsQuantile(s, want, v) && IsQuantile(s, more, u)
    ensures v <= u
    ensures want == more ==> v == u
  {
    if u < v {
      WeightGrows(s, UpTo(u), Below(v));
    }
    if v < u {
      WeightGrows(s, UpTo(v), Below(u));
    }
  }

  /** The quantile of a greater share is no smaller. */
  lemma QuantileGrowsWithShare(s: seq<Weighed>, share: real, more: real, v: real, u: real)
    requires Positive(s) && share <= more
    requires IsQuantile(s, Want(share, Weight(s, Any)), v) && IsQuantile(s, Want(more, Weight(s, Any)), u)
    ensures v <= u
  {
    WeightGrows(s, Any, Any);
    WantGrows(share, more, Weight(s, Any));
    QuantileOrder(s, Want(share, Weight(s, Any)), Want(more, Weight(s, Any)), v, u);
  }

  lemma WantGrows(share: real, more: real, total: real)
    requires share <= more && 0.0 <= total
    ensures Want(share, total) <= Want(more, total)
  {
  }

  // Where a walk in order of value stands at place i.
  lemma WeightAt(s: seq<Weighed>, i: nat)
    requires Positive(s) && Sorted(s, ValueOf) && i < |s|
    ensures Weight(s[..i + 1], Any) <= Weight(s, UpTo(s[i].value))
    ensures Weight(s, Below(s[i].value)) <= Weight(s[..i], Any)
  {
    var v, head := s[i].value, s[..i + 1];
    forall k | 0 <= k < |head| ensures Any(head[k].value) == UpTo(v)(head[k].value) {
      assert ValueOf(s[k]) <= ValueOf(s[i]);
    }
    WeightSame(head, Any, UpTo(v));
    WeightSplit(s, i + 1, UpTo(v));
    WeightGrows(s[i + 1..], UpTo(v), Any);
    WeightSplit(s, i, Below(v));
    var tail := s[i..];
    forall k | 0 <= k < |tail| ensures !Below(v)(tail[k].value) {
      assert ValueOf(s[i]) <= ValueOf(s[i + k]);
    }
    WeightNone(tail, Below(v));
    WeightGrows(s[..i], Below(v), Any);
  }

  lemma WeightSnoc(s: seq<Weighed>, i: nat)
    requires i < |s|
    ensures Weight(s[..i + 1], Any) == Weight(s[..i], Any) + s[i].weight
  {
    assert s[..i + 1] == s[..i] + [s[i]];
    WeightConcat(s[..i], [s[i]], Any);
  }

  lemma SamePositive(a: seq<Weighed>, b: seq<Weighed>)
    requires multiset(a) == multiset(b) && Positive(a)
    ensures Positive(b)
  {
    forall i | 0 <= i < |b| ensures 0.0 < b[i].weight {
      assert b[i] in multiset(a);
    }
  }

  // The walk's answer on the ordered observations is its answer on the observations.
  lemma QuantilePermutes(a: seq<Weighed>, b: seq<Weighed>, want: real, v: real)
    requires multiset(a) == multiset(b) && IsQuantile(a, want, v)
    ensures IsQuantile(b, want, v)
  {
    WeightPermutes(a, b, UpTo(v));
    WeightPermutes(a, b, Below(v));
    var i :| 0 <= i < |a| && a[i].value == v;
    assert a[i] in multiset(b);
    var k :| 0 <= k < |b| && b[k] == a[i];
  }

  // ----- the program's own steps

  method Weigh(exp2: real -> real, s: seq<Obs>, now: real, half: real) returns (held: seq<Weighed>, total: real)
    ensures held == Held(exp2, half, now, s) && Positive(held) && total == Weight(held, Any)
  {
    held, total := [], 0.0;
    for i := 0 to |s|
      invariant held == Held(exp2, half, now, s[..i]) && Positive(held) && total == Weight(held, Any)
    {
      HeldUpTo(exp2, half, now, s, i);
      var weight := Decay(exp2, now - s[i].when, half);
      if weight <= 0.0 {
        continue;
      }
      OneMoreHeld(held, Weighed(s[i].value, weight));
      held, total := held + [Weighed(s[i].value, weight)], total + weight;
    }
    assert s[..|s|] == s;
  }

  lemma OneMoreHeld(held: seq<Weighed>, one: Weighed)
    requires Positive(held) && 0.0 < one.weight
    ensures Positive(held + [one]) && Weight(held + [one], Any) == Weight(held, Any) + one.weight
  {
    WeightConcat(held, [one], Any);
  }

  lemma HeldUpTo(exp2: real -> real, half: real, now: real, s: seq<Obs>, i: nat)
    requires i < |s|
    ensures var weight := Decay(exp2, now - s[i].when, half);
      Held(exp2, half, now, s[..i + 1]) == Held(exp2, half, now, s[..i]) + if weight <= 0.0 then [] else [Weighed(s[i].value, weight)]
  {
    HeldSnoc(exp2, half, now, s[..i], s[i]);
    assert s[..i] + [s[i]] == s[..i + 1];
  }

  lemma {:induction false} HeldSnoc(exp2: real -> real, half: real, now: real, s: seq<Obs>, o: Obs)
    ensures var weight := Decay(exp2, now - o.when, half);
      Held(exp2, half, now, s + [o]) == Held(exp2, half, now, s) + if weight <= 0.0 then [] else [Weighed(o.value, weight)]
  {
    if s == [] {
      assert s + [o] == [o];
    } else {
      assert (s + [o])[1..] == s[1..] + [o] && (s + [o])[0] == s[0];
      HeldSnoc(exp2, half, now, s[1..], o);
    }
  }

  /** In order of value, the first whose running weight reaches what is wanted; the last if none. */
  method Walk(order: seq<Weighed>, want: real) returns (v: real)
    requires order != [] && Positive(order) && Sorted(order, ValueOf)
    ensures 0.0 < want <= Weight(order, Any) ==> IsQuantile(order, want, v)
    ensures Weight(order, Any) < want ==> v == order[|order| - 1].value
    ensures want <= 0.0 ==> v == order[0].value
  {
    var running := 0.0;
    for i := 0 to |order|
      invariant running == Weight(order[..i], Any)
      invariant running < want || (i == 0 && want <= 0.0)
      invariant want <= 0.0 ==> i == 0 && running == 0.0
    {
      WeightSnoc(order, i);
      running := running + order[i].weight;
      if want <= running {
        WeightAt(order, i);
        WeightSplit(order, i + 1, Any);
        WeightGrows(order[i + 1..], Any, Any);
        return order[i].value;
      }
    }
    assert order[..|order|] == order;
    v := order[|order| - 1].value;
  }

  // ----- two observations

  lemma WeightOfTwo(x: Weighed, y: Weighed, p: real -> bool)
    ensures Weight([x, y], p) == (if p(x.value) then x.weight else 0.0) + (if p(y.value) then y.weight else 0.0)
  {
    assert [x, y][1..] == [y] && [y][1..] == [];
    assert Weight([y], p) == (if p(y.value) then y.weight else 0.0) + Weight([], p);
  }

  lemma HeldOfTwo(exp2: real -> real, half: real, now: real, x: Obs, y: Obs)
    requires Exponential(exp2) && 0.0 < half && x.when <= y.when <= now
    ensures Held(exp2, half, now, [x, y]) ==
      [Weighed(x.value, Decay(exp2, now - x.when, half)), Weighed(y.value, Decay(exp2, now - y.when, half))]
  {
    HeldCons(exp2, half, now, [x, y]);
    HeldCons(exp2, half, now, [y]);
    assert [x, y][1..] == [y] && [y][1..] == [];
    assert Held(exp2, half, now, []) == [];
  }

  /** Of two values, the second is the quantile exactly when the first does not reach the share, or it does so
      itself when it is the smaller. */
  lemma SecondOfTwo(x: Weighed, y: Weighed, want: real, v: real)
    requires 0.0 < x.weight && 0.0 < y.weight && x.value != y.value && IsQuantile([x, y], want, v)
    ensures v == y.value <==> if x.value < y.value then x.weight < want else want <= y.weight
  {
    WeightOfTwo(x, y, UpTo(v));
    WeightOfTwo(x, y, Below(v));
    assert v in {x.value, y.value};
  }

  /** Two observations a half-life apart: the younger counts twice as much, so it is the answer for every share
      over a third when it is the greater, and up to two thirds when it is the smaller. */
  lemma YoungerOfTwo(exp2: real -> real, half: real, now: real, x: Obs, y: Obs, share: real, v: real)
    requires Exponential(exp2) && exp2(1.0) == 2.0 && 0.0 < half && y.when == x.when + half && y.when <= now
    requires x.value != y.value
    requires var held := Held(exp2, half, now, [x, y]); IsQuantile(held, Want(share, Weight(held, Any)), v)
    ensures v == y.value <==> if x.value < y.value then 1.0 < 3.0 * share else 3.0 * share <= 2.0
  {
    var elder, young := Weighed(x.value, Decay(exp2, now - x.when, half)), Weighed(y.value, Decay(exp2, now - y.when, half));
    HeldOfTwo(exp2, half, now, x, y);
    HalfLifeHalves(exp2, now - y.when, half);
    DecayAcross(exp2, x.when, now, now, half);
    DecayAcross(exp2, y.when, now, now, half);
    WeightOfTwo(elder, young, Any);
    SecondOfTwo(elder, young, Want(share, Weight([elder, young], Any)), v);
    ThirdsOf(share, elder.weight, young.weight);
  }

  /** The answer to two observations a half-life apart: the younger is it for every share over a third when it is the
      greater, and up to two thirds when it is the smaller. */
  ghost predicate YoungerCountsDouble(exp2: real -> real, s: seq<Obs>, now: real, share: real, half: real, v: real) {
    Exponential(exp2) && exp2(1.0) == 2.0 && 0.0 < half && 0.0 < share <= 1.0 &&
    |s| == 2 && s[1].when == s[0].when + half && s[1].when <= now && s[0].value != s[1].value ==>
      (v == s[1].value <==> if s[0].value < s[1].value then 1.0 < 3.0 * share else 3.0 * share <= 2.0)
  }

  lemma AnyTwo(exp2: real -> real, half: real, now: real, s: seq<Obs>, share: real, v: real)
    requires var held := Held(exp2, half, now, s);
      0.0 < half && held != [] && 0.0 < share <= 1.0 ==> IsQuantile(held, Want(share, Weight(held, Any)), v)
    ensures YoungerCountsDouble(exp2, s, now, share, half, v)
  {
    if Exponential(exp2) && exp2(1.0) == 2.0 && 0.0 < half && 0.0 < share <= 1.0 {
      if |s| == 2 && s[1].when == s[0].when + half && s[1].when <= now && s[0].value != s[1].value {
        TwoAreHeld(exp2, half, now, s);
        assert s == [s[0], s[1]];
        YoungerOfTwo(exp2, half, now, s[0], s[1], share, v);
      }
    }
  }

  lemma TwoAreHeld(exp2: real -> real, half: real, now: real, s: seq<Obs>)
    requires Exponential(exp2) && 0.0 < half && |s| == 2 && s[0].when <= s[1].when <= now
    ensures |Held(exp2, half, now, s)| == 2
  {
    assert s == [s[0], s[1]];
    HeldOfTwo(exp2, half, now, s[0], s[1]);
  }

  lemma ThirdsOf(share: real, elder: real, young: real)
    requires 0.0 < elder && 2.0 * elder == young
    ensures elder < Want(share, elder + young) <==> 1.0 < 3.0 * share
    ensures Want(share, elder + young) <= young <==> 3.0 * share <= 2.0
  {
    assert Want(share, elder + young) == elder * (3.0 * share);
    assert (3.0 * share - 1.0) * elder == elder * (3.0 * share) - elder;
    assert (2.0 - 3.0 * share) * elder == young - elder * (3.0 * share);
  }

  /** Weigh what is left, put it in order of value, and walk to the share wanted. No half-life or
      nothing left is no opinion, which reads as zero. For a share in (0, 1] the answer is the
      quantile, however ties were ordered; a share past 1 answers the greatest value, and one that is not
      positive the least. */
  method At(exp2: real -> real, s: seq<Obs>, now: real, share: real, half: real) returns (v: real)
    ensures half <= 0.0 || Held(exp2, half, now, s) == [] ==> v == 0.0
    ensures var held := Held(exp2, half, now, s);
      0.0 < half && held != [] && 0.0 < share <= 1.0 ==> IsQuantile(held, Want(share, Weight(held, Any)), v)
    ensures var held := Held(exp2, half, now, s);
      0.0 < half && held != [] && 1.0 < share ==> Holds(held, v) && forall i :: 0 <= i < |held| ==> held[i].value <= v
    ensures var held := Held(exp2, half, now, s);
      0.0 < half && held != [] && share <= 0.0 ==> Holds(held, v) && forall i :: 0 <= i < |held| ==> v <= held[i].value
    ensures YoungerCountsDouble(exp2, s, now, share, half, v)
  {
    if |s| == 0 || half <= 0.0 {
      return 0.0;
    }
    var held, total := Weigh(exp2, s, now, half);
    TotalPositive(held);
    if total <= 0.0 {
      AnyTwo(exp2, half, now, s, share, 0.0);
      return 0.0;
    }
    var order := SortUnstably(held, ValueOf);
    SamePositive(held, order);
    WeightPermutes(held, order, Any);
    var want := Want(share, total);
    ShareOf(share, total);
    v := Walk(order, want);
    if 0.0 < share <= 1.0 {
      QuantilePermutes(order, held, want, v);
    } else {
      EndsOfOrder(held, order);
    }
    AnyTwo(exp2, half, now, s, share, v);
  }

  lemma ShareOf(share: real, total: real)
    requires 0.0 < total
    ensures 0.0 < share <= 1.0 ==> 0.0 < Want(share, total) <= total
    ensures 1.0 < share ==> total < Want(share, total)
    ensures share <= 0.0 ==> Want(share, total) <= 0.0
  {
  }

  lemma TotalPositive(s: seq<Weighed>)
    requires Positive(s)
    ensures s != [] <==> 0.0 < Weight(s, Any)
  {
    if s != [] {
      WeightGrows(s[1..], Any, Any);
    }
  }

  lemma EndsOfOrder(held: seq<Weighed>, order: seq<Weighed>)
    requires multiset(held) == multiset(order) && Sorted(order, ValueOf) && order != []
    ensures Holds(held, order[0].value) && Holds(held, order[|order| - 1].value)
    ensures forall i :: 0 <= i < |held| ==> order[0].value <= held[i].value <= order[|order| - 1].value
  {
    OneOf(held, order, 0);
    OneOf(held, order, |order| - 1);
    forall i | 0 <= i < |held| ensures order[0].value <= held[i].value <= order[|order| - 1].value {
      assert held[i] in multiset(order);
      var k :| 0 <= k < |order| && order[k] == held[i];
      assert ValueOf(order[0]) <= ValueOf(order[k]) <= ValueOf(order[|order| - 1]);
    }
  }

  lemma OneOf(held: seq<Weighed>, order: seq<Weighed>, k: nat)
    requires multiset(held) == multiset(order) && k < |order|
    ensures Holds(held, order[k].value)
  {
    assert order[k] in multiset(held);
    var j :| 0 <= j < |held| && held[j] == order[k];
  }

  // ----- time alone moves nothing

  ghost predicate AddsUp(g: real -> real, x: real, y: real) { g(x + y) == g(x) + g(y) }

  ghost predicate Orders(g: real -> real, x: real, y: real) { x <= y <==> g(x) <= g(y) }

  ghost predicate Shares(g: real -> real, share: real, x: real) { Want(share, g(x)) == g(Want(share, x)) }

  /** A change of scale: it keeps sums, order and shares. */
  ghost predicate Scale(g: real -> real) {
    g(0.0) == 0.0 && (forall x, y :: AddsUp(g, x, y)) && (forall x, y :: Orders(g, x, y)) && (forall k, x :: Shares(g, k, x))
  }

  function Times(f: real): real -> real { x => x * f }

  lemma TimesIsScale(f: real)
    requires 0.0 < f
    ensures Scale(Times(f))
  {
    var g := Times(f);
    forall x, y ensures AddsUp(g, x, y) { Distribute(x, y, f); }
    forall x, y ensures Orders(g, x, y) { ScaleOrder(x, y, f); }
    forall k, x ensures Shares(g, k, x) { Associate(k, x, f); }
  }

  lemma ScaleOrder(x: real, y: real, f: real)
    requires 0.0 < f
    ensures x <= y <==> x * f <= y * f
  {
  }

  ghost predicate Scaled(a: seq<Weighed>, b: seq<Weighed>, g: real -> real) {
    |a| == |b| && forall i :: 0 <= i < |a| ==> b[i] == Weighed(a[i].value, g(a[i].weight))
  }

  lemma HeldCons(exp2: real -> real, half: real, now: real, s: seq<Obs>)
    requires Exponential(exp2) && s != [] && s[0].when <= now
    ensures Held(exp2, half, now, s) == [Weighed(s[0].value, Decay(exp2, now - s[0].when, half))] + Held(exp2, half, now, s[1..])
  {
    DecayAcross(exp2, s[0].when, now, now, half);
  }

  lemma {:induction false} HeldScales(exp2: real -> real, half: real, now: real, later: real, s: seq<Obs>)
    requires Exponential(exp2) && now <= later && forall i :: 0 <= i < |s| ==> s[i].when <= now
    ensures Scaled(Held(exp2, half, now, s), Held(exp2, half, later, s), Times(Decay(exp2, later - now, half)))
  {
    if s != [] {
      HeldScales(exp2, half, now, later, s[1..]);
      HeldCons(exp2, half, now, s);
      HeldCons(exp2, half, later, s);
      DecayAcross(exp2, s[0].when, now, later, half);
    }
  }

  lemma {:induction false} WeightScales(a: seq<Weighed>, b: seq<Weighed>, g: real -> real, p: real -> bool)
    requires Scaled(a, b, g) && Scale(g)
    ensures Weight(b, p) == g(Weight(a, p))
  {
    if a != [] {
      WeightScales(a[1..], b[1..], g, p);
      assert AddsUp(g, if p(a[0].value) then a[0].weight else 0.0, Weight(a[1..], p));
    }
  }

  lemma SameValues(a: seq<Weighed>, b: seq<Weighed>, g: real -> real, v: real)
    requires Scaled(a, b, g)
    ensures Holds(a, v) <==> Holds(b, v)
  {
    assert forall i :: 0 <= i < |a| ==> a[i].value == b[i].value;
  }

  /** A change of scale moves no quantile. */
  lemma QuantileScales(a: seq<Weighed>, b: seq<Weighed>, g: real -> real, share: real, v: real)
    requires Scaled(a, b, g) && Scale(g)
    ensures IsQuantile(a, Want(share, Weight(a, Any)), v) <==> IsQuantile(b, Want(share, Weight(b, Any)), v)
  {
    SameValues(a, b, g, v);
    WeightScales(a, b, g, Any);
    WeightScales(a, b, g, UpTo(v));
    WeightScales(a, b, g, Below(v));
    assert Shares(g, share, Weight(a, Any));
    assert Orders(g, Want(share, Weight(a, Any)), Weight(a, UpTo(v)));
    assert Orders(g, Want(share, Weight(a, Any)), Weight(a, Below(v)));
  }

  /** A picture that nothing is added to gives the same quantile at every later moment, whatever the
      share: all the weights fade together. */
  lemma QuantileStandsStill(exp2: real -> real, half: real, now: real, later: real, s: seq<Obs>, share: real, v: real)
    requires Exponential(exp2) && now <= later && forall i :: 0 <= i < |s| ==> s[i].when <= now
    ensures var a, b := Held(exp2, half, now, s), Held(exp2, half, later, s);
      IsQuantile(a, Want(share, Weight(a, Any)), v) <==> IsQuantile(b, Want(share, Weight(b, Any)), v)
  {
    var f := Decay(exp2, later - now, half);
    HeldScales(exp2, half, now, later, s);
    DecayAcross(exp2, now, later, later, half);
    TimesIsScale(f);
    QuantileScales(Held(exp2, half, now, s), Held(exp2, half, later, s), Times(f), share, v);
  }
}
