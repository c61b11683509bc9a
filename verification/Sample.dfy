/** A sample that forgets. */
module Sample {

  datatype Obs = Obs(when: real, value: real)

  /** Ten half-lives back: what is stamped before this is forgotten. */
  function Oldest(at: real, half: real): real { at - 10.0 * half }

  /** The observations stamped at or after a moment, in the order they came. */
  function Kept(s: seq<Obs>, oldest: real): seq<Obs>
    decreases |s|
  {
    if s == [] then []
    else
      var front, o := Kept(s[..|s| - 1], oldest), s[|s| - 1];
      if o.when < oldest then front else front + [o]
  }

  function AddedTo(s: seq<Obs>, o: Obs, half: real): seq<Obs> {
    if o.value <= 0.0 || half <= 0.0 then s else Kept(s + [o], Oldest(o.when, half))
  }

  function Zip(when: seq<real>, value: seq<real>): seq<Obs>
    requires |when| == |value|
  {
    seq(|when|, i requires 0 <= i < |when| => Obs(when[i], value[i]))
  }

  class Sketch {
    var when: seq<real>
    var value: seq<real>
    ghost var history: seq<Obs>

    constructor ()
      ensures Valid() && Seen() == [] && history == []
    {
      when, value, history := [], [], [];
    }

    ghost predicate Valid()
      reads this
    {
      |when| == |value|
    }

    function Seen(): seq<Obs>
      reads this
      requires Valid()
    {
      Zip(when, value)
    }

    /** What is kept is what the whole history comes to at this half-life. */
    ghost predicate Tells(half: real)
      reads this
      requires Valid()
    {
      Seen() == Sampled(history, half)
    }

    /** Append, and compact in place what has not been forgotten. The measurement joins the history; and
        for measurements in the order of time what is left is the accepted ones within ten half-lives of
        the last of them. */
    method Add(at: real, v: real, half: real)
      requires Valid()
      modifies this
      ensures Valid() && history == old(history) + [Obs(at, v)]
      ensures Seen() == AddedTo(old(Seen()), Obs(at, v), half)
      ensures v <= 0.0 || half <= 0.0 ==> Seen() == old(Seen())
      ensures 0.0 < v && 0.0 < half ==>
                forall o ::
                  multiset(Seen())[o] == if at - 10.0 * half <= o.when then multiset(old(Seen()) + [Obs(at, v)])[o] else 0
      ensures old(Tells(half)) ==> Tells(half)
      ensures old(Tells(half)) && 0.0 < half && TakenInOrder(history) ==> Seen() == RecentPast(Accepted(history), half)
    {
      SampledOnce(history, Obs(at, v), half);
      history := history + [Obs(at, v)];
      Remembered(history, half);
      KeptCounted(Seen() + [Obs(at, v)], Oldest(at, half));
      Compact(at, v, half);
    }

    method Compact(at: real, v: real, half: real)
      requires Valid()
      modifies this`when, this`value
      ensures Valid() && Seen() == AddedTo(old(Seen()), Obs(at, v), half)
    {
      if v <= 0.0 || half <= 0.0 {
        return;
      }
      ghost var was := Zip(when, value) + [Obs(at, v)];
      when, value := when + [at], value + [v];
      assert Zip(when, value) == was;
      var oldest := Oldest(at, half);
      var keep := 0;
      for index := 0 to |when|
        invariant Valid() && |when| == |was| && keep <= index
        invariant forall i :: index <= i < |was| ==> when[i] == was[i].when && value[i] == was[i].value
        invariant Zip(when[..keep], value[..keep]) == Kept(was[..index], oldest)
      {
        assert was[..index + 1][..index] == was[..index];
        if when[index] < oldest {
          continue;
        }
        var w, x := when[index], value[index];
        ZipSet(when, value, keep, w, x);
        when, value := when[keep := w], value[keep := x];
        keep := keep + 1;
      }
      assert was[..|was|] == was;
      when, value := when[..keep], value[..keep];
    }
  }

  lemma ZipSet(when: seq<real>, value: seq<real>, keep: nat, w: real, x: real)
    requires |when| == |value| && keep < |when|
    ensures Zip(when[keep := w][..keep + 1], value[keep := x][..keep + 1]) == Zip(when[..keep], value[..keep]) + [Obs(w, x)]
  {
  }

  lemma {:induction false} KeptTwice(s: seq<Obs>, early: real, late: real)
    requires early <= late
    ensures Kept(Kept(s, early), late) == Kept(s, late)
    decreases |s|
  {
    if s != [] {
      KeptTwice(s[..|s| - 1], early, late);
      var front, o := Kept(s[..|s| - 1], early), s[|s| - 1];
      assert (front + [o])[..|front + [o]| - 1] == front;
    }
  }

  lemma KeptAppend(s: seq<Obs>, o: Obs, oldest: real)
    ensures Kept(s + [o], oldest) == if o.when < oldest then Kept(s, oldest) else Kept(s, oldest) + [o]
  {
    assert (s + [o])[..|s + [o]| - 1] == s;
  }

  lemma {:induction false} KeptCounted(s: seq<Obs>, oldest: real)
    ensures forall o :: multiset(Kept(s, oldest))[o] == if oldest <= o.when then multiset(s)[o] else 0
    decreases |s|
  {
    if s != [] {
      KeptCounted(s[..|s| - 1], oldest);
      assert s == s[..|s| - 1] + [s[|s| - 1]];
    }
  }

  /** The sample after a history of measurements. */
  function Sampled(adds: seq<Obs>, half: real): seq<Obs>
    decreases |adds|
  {
    if adds == [] then [] else AddedTo(Sampled(adds[..|adds| - 1], half), adds[|adds| - 1], half)
  }

  /** The measurements that count at all. */
  function Accepted(adds: seq<Obs>): seq<Obs>
    decreases |adds|
  {
    if adds == [] then []
    else
      var front, o := Accepted(adds[..|adds| - 1]), adds[|adds| - 1];
      if o.value <= 0.0 then front else front + [o]
  }

  lemma {:induction false} AcceptedBefore(adds: seq<Obs>, t: real)
    requires forall i :: 0 <= i < |adds| ==> adds[i].when <= t
    ensures forall i :: 0 <= i < |Accepted(adds)| ==> Accepted(adds)[i].when <= t
    decreases |adds|
  {
    if adds != [] {
      AcceptedBefore(adds[..|adds| - 1], t);
    }
  }

  lemma SampledOnce(adds: seq<Obs>, o: Obs, half: real)
    ensures Sampled(adds + [o], half) == AddedTo(Sampled(adds, half), o, half)
  {
    assert (adds + [o])[..|adds|] == adds;
  }

  ghost predicate TakenInOrder(adds: seq<Obs>) {
    forall i, j :: 0 <= i < j < |adds| ==> adds[i].when <= adds[j].when
  }

  /** What is within ten half-lives of the last of these. */
  function RecentPast(all: seq<Obs>, half: real): seq<Obs> {
    if all == [] then [] else Kept(all, Oldest(all[|all| - 1].when, half))
  }

  /** Compacting at every measurement loses nothing that the last one would have kept: in the order of
      time, the sample is exactly the positive measurements within ten half-lives of the last of
      them, as they arrived. */
  lemma {:induction false} SampleIsTheRecentPast(adds: seq<Obs>, half: real)
    requires 0.0 < half && TakenInOrder(adds)
    ensures Sampled(adds, half) == RecentPast(Accepted(adds), half)
    decreases |adds|
  {
    if adds != [] {
      var front, o := adds[..|adds| - 1], adds[|adds| - 1];
      SampleIsTheRecentPast(front, half);
      AcceptedBefore(front, o.when);
      if 0.0 < o.value {
        KeptOneMore(Accepted(front), o, half);
      }
    }
  }

  lemma Remembered(adds: seq<Obs>, half: real)
    ensures 0.0 < half && TakenInOrder(adds) ==> Sampled(adds, half) == RecentPast(Accepted(adds), half)
  {
    if 0.0 < half && TakenInOrder(adds) {
      SampleIsTheRecentPast(adds, half);
    }
  }

  lemma KeptOneMore(all: seq<Obs>, o: Obs, half: real)
    requires 0.0 < half && 0.0 < o.value && forall i :: 0 <= i < |all| ==> all[i].when <= o.when
    ensures AddedTo(RecentPast(all, half), o, half) == RecentPast(all + [o], half)
  {
    var oldest := Oldest(o.when, half);
    var before := RecentPast(all, half);
    KeptAppend(all, o, oldest);
    KeptAppend(before, o, oldest);
    if all != [] {
      KeptTwice(all, Oldest(all[|all| - 1].when, half), oldest);
    }
  }
}
