/**
 Forgetting at a half-life. Moments and measurements are real numbers. Powers of two are any
 positive function that turns sums into products; that it is two at one, and that it rises, is asked for where it is used.
 */
module Forgetting {

  ghost predicate AddLaw(exp2: real -> real, a: real, b: real) { exp2(a + b) == exp2(a) * exp2(b) }

  ghost predicate Exponential(exp2: real -> real) {
    && exp2(0.0) == 1.0
    && (forall a, b :: AddLaw(exp2, a, b))
    && (forall a :: exp2(a) > 0.0)
  }

  /** How much of itself a measurement has left after a stretch; a stretch that is not positive is no
      decay at all. */
  function Decay(exp2: real -> real, since: real, half: real): real {
    if half <= 0.0 || since <= 0.0 then 1.0 else exp2(-since / half)
  }

  /** Forgetting up to now and then from now on is forgetting from the start. */
  lemma DecayAcross(exp2: real -> real, at: real, now: real, later: real, half: real)
    requires Exponential(exp2) && at <= now <= later
    ensures Decay(exp2, later - at, half) == Decay(exp2, now - at, half) * Decay(exp2, later - now, half)
    ensures 0.0 < Decay(exp2, now - at, half)
  {
    if 0.0 < half && at < now < later {
      var a, b := -(now - at) / half, -(later - now) / half;
      assert AddLaw(exp2, a, b);
      assert -(later - at) / half == a + b;
    }
  }

  /** A stretch that is not positive, or no half-life, forgets nothing. */
  lemma NothingForgotten(exp2: real -> real, since: real, half: real)
    requires since <= 0.0 || half <= 0.0
    ensures Decay(exp2, since, half) == 1.0
  {
  }

  lemma HalfOfTwo(exp2: real -> real)
    requires Exponential(exp2) && exp2(1.0) == 2.0
    ensures 2.0 * exp2(-1.0) == 1.0
  {
    assert AddLaw(exp2, -1.0, 1.0);
  }

  /** What is left halves with every half-life, from any age on. */
  lemma HalfLifeHalves(exp2: real -> real, since: real, half: real)
    requires Exponential(exp2) && exp2(1.0) == 2.0 && 0.0 < half && 0.0 <= since
    ensures 2.0 * Decay(exp2, since + half, half) == Decay(exp2, since, half)
  {
    var a := -since / half;
    HalfOfTwo(exp2);
    assert AddLaw(exp2, a, -1.0);
    OneHalfLifeMore(since, half);
    if since == 0.0 {
      assert a == 0.0;
    }
    Associate(2.0, exp2(-1.0), exp2(a));
  }

  lemma OneHalfLifeMore(since: real, half: real)
    requires 0.0 < half
    ensures -(since + half) / half == -since / half + -1.0
  {
    var a := -since / half;
    Quotient(-since, a, half);
    Distribute(a, -1.0, half);
    Quotient(-(since + half), a + -1.0, half);
  }

  lemma Quotient(x: real, y: real, half: real)
    requires 0.0 < half
    ensures x / half == y <==> x == y * half
  {
  }

  /** Older never counts more. */
  lemma OlderIsNoHeavier(exp2: real -> real, since: real, longer: real, half: real)
    requires Exponential(exp2) && (forall a, b :: a <= b ==> exp2(a) <= exp2(b)) && since <= longer
    ensures Decay(exp2, longer, half) <= Decay(exp2, since, half)
  {
    if 0.0 < half && 0.0 < longer {
      var a, b := -longer / half, -since / half;
      Shorter(since, longer, half);
      assert exp2(a) <= exp2(b);
      assert exp2(a) <= exp2(0.0);
    }
  }

  lemma Shorter(since: real, longer: real, half: real)
    requires 0.0 < half && since <= longer
    ensures -longer / half <= -since / half
    ensures 0.0 < longer ==> -longer / half <= 0.0
  {
  }

  lemma Distribute(x: real, y: real, f: real)
    ensures (x + y) * f == x * f + y * f
  {
  }

  lemma Associate(x: real, y: real, f: real)
    ensures (x * y) * f == x * (y * f)
  {
  }
}
