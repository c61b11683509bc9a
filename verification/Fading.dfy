/** A count that forgets. */
module Fading {
  import opened Forgetting

  datatype Addition = Addition(at: real, amount: real)

  datatype Count = Count(weight: real, at: real)

  /** What is left of an amount after a stretch of time. */
  type Fade = (real, real) -> real

  /** Forgetting at a half-life, which is how the choosers forget. */
  function Halving(exp2: real -> real, half: real): Fade {
    (amount: real, since: real) => amount * Decay(exp2, since, half)
  }

  ghost predicate Adds(fade: Fade, x: real, y: real, since: real) { fade(x + y, since) == fade(x, since) + fade(y, since) }

  ghost predicate Composes(fade: Fade, x: real, s: real, t: real) { fade(fade(x, s), t) == fade(x, s + t) }

  /** A sum fades as its parts do, and fading in two stretches is fading in one. */
  ghost predicate Fades(fade: Fade) {
    && (forall x, y, since :: Adds(fade, x, y, since))
    && (forall x, s, t :: 0.0 <= s && 0.0 <= t ==> Composes(fade, x, s, t))
  }

  lemma HalvingFades(exp2: real -> real, half: real)
    requires Exponential(exp2)
    ensures Fades(Halving(exp2, half))
  {
    forall x, y, since ensures Adds(Halving(exp2, half), x, y, since) {
      Distribute(x, y, Decay(exp2, since, half));
    }
    forall x, s, t | 0.0 <= s && 0.0 <= t ensures Composes(Halving(exp2, half), x, s, t) {
      DecayAcross(exp2, 0.0, s, s + t, half);
      Associate(x, Decay(exp2, s, half), Decay(exp2, t, half));
    }
  }

  /** Of an amount half is left a half-life on, and half of what is left at any moment is left a half-life later. */
  lemma HalvingHalves(exp2: real -> real, half: real, amount: real, since: real)
    requires Exponential(exp2) && exp2(1.0) == 2.0 && 0.0 < half && 0.0 <= since
    ensures Halving(exp2, half)(amount, 0.0) == amount
    ensures 2.0 * Halving(exp2, half)(amount, since + half) == Halving(exp2, half)(amount, since)
  {
    HalfLifeHalves(exp2, since, half);
    NothingForgotten(exp2, 0.0, half);
    Associate(amount, 2.0, Decay(exp2, since + half, half));
    Associate(2.0, amount, Decay(exp2, since + half, half));
  }

  function Added(fade: Fade, c: Count, a: Addition): Count { Count(fade(c.weight, a.at - c.at) + a.amount, a.at) }

  function Left(fade: Fade, c: Count, now: real): real { fade(c.weight, now - c.at) }

  /** The count after a history of additions. */
  function Counted(fade: Fade, zero: real, adds: seq<Addition>): Count
    decreases |adds|
  {
    if adds == [] then Count(0.0, zero) else Added(fade, Counted(fade, zero, adds[..|adds| - 1]), adds[|adds| - 1])
  }

  /** The count as one would say it: every addition, each decayed from its own moment. */
  function Sum(fade: Fade, adds: seq<Addition>, now: real): real
    decreases |adds|
  {
    if adds == [] then 0.0
    else Sum(fade, adds[..|adds| - 1], now) + fade(adds[|adds| - 1].amount, now - adds[|adds| - 1].at)
  }

  ghost predicate InTime(adds: seq<Addition>) {
    forall i, j :: 0 <= i < j < |adds| ==> adds[i].at <= adds[j].at
  }

  ghost predicate NoneAfter(adds: seq<Addition>, now: real) { forall i :: 0 <= i < |adds| ==> adds[i].at <= now }

  class Tally {
    var weight: real
    var at: real
    ghost const start: real
    ghost var history: seq<Addition>

    constructor (zero: real)
      ensures start == zero && history == [] && forall fade: Fade :: Tells(fade)
    {
      weight, at, start, history := 0.0, zero, zero, [];
    }

    /** The one number kept is what the whole history comes to under this way of fading. */
    ghost predicate Tells(fade: Fade)
      reads this
    {
      Count(weight, at) == Counted(fade, start, history)
    }

    /** An addition joins the history, and the number goes on telling it. */
    method Add(fade: Fade, at: real, amount: real)
      modifies this
      ensures history == old(history) + [Addition(at, amount)]
      ensures old(Tells(fade)) ==> Tells(fade)
      ensures this.at == at && weight == fade(old(weight), at - old(this.at)) + amount
    {
      CountedOnce(fade, start, history, Addition(at, amount));
      weight := fade(weight, at - this.at) + amount;
      this.at := at;
      history := history + [Addition(at, amount)];
    }

    /** For additions in the order of time, none of them after now, the answer is the sum of them all,
        each faded from its own moment. */
    method Standing(fade: Fade, now: real) returns (left: real)
      ensures Fades(fade) && Tells(fade) && InTime(history) && NoneAfter(history, now) ==> left == Sum(fade, history, now)
      ensures left == fade(weight, now - at)
    {
      left := fade(weight, now - at);
      if Fades(fade) && Tells(fade) && InTime(history) && NoneAfter(history, now) {
        CountIsTheSum(fade, start, history, now);
      }
    }
  }

  lemma CountedOnce(fade: Fade, zero: real, adds: seq<Addition>, a: Addition)
    ensures Counted(fade, zero, adds + [a]) == Added(fade, Counted(fade, zero, adds), a)
  {
    assert (adds + [a])[..|adds|] == adds;
  }

  lemma {:induction false} SumFades(fade: Fade, adds: seq<Addition>, now: real, later: real)
    requires Fades(fade) && now <= later && NoneAfter(adds, now)
    ensures Sum(fade, adds, later) == fade(Sum(fade, adds, now), later - now)
    decreases |adds|
  {
    var t := later - now;
    if adds == [] {
      assert Adds(fade, 0.0, 0.0, t);
    } else {
      var front, a := adds[..|adds| - 1], adds[|adds| - 1];
      SumFades(fade, front, now, later);
      assert Adds(fade, Sum(fade, front, now), fade(a.amount, now - a.at), t);
      assert Composes(fade, a.amount, now - a.at, t);
    }
  }

  /** One number kept up to date is the whole history: for additions in the order of time, what is
      left at a moment is the sum of every addition faded from its own. */
  lemma {:induction false} CountIsTheSum(fade: Fade, zero: real, adds: seq<Addition>, now: real)
    requires Fades(fade) && InTime(adds) && NoneAfter(adds, now)
    ensures Left(fade, Counted(fade, zero, adds), now) == Sum(fade, adds, now)
    decreases |adds|
  {
    if adds == [] {
      assert Adds(fade, 0.0, 0.0, now - zero);
    } else {
      var front, a := adds[..|adds| - 1], adds[|adds| - 1];
      CountIsTheSum(fade, zero, front, a.at);
      SumFades(fade, front, a.at, now);
      assert Adds(fade, Left(fade, Counted(fade, zero, front), a.at), a.amount, now - a.at);
    }
  }
}
