/** What else the headline layer has: for any entries at all, exactly when it is nothing but headlines. */
module OnlyHeadlines {
  import opened HeadlineLayer
  import opened ReleaseNotes
  import opened Text
  import R = Rendering

  // ----- what an entry leaves

  /** Lines kept one after another, a blank one not directly behind an empty one. */
  function KeepAll(out: seq<string>, ls: seq<string>): seq<string>
    decreases |ls|
  {
    if ls == [] then out else KeepAll(Keep(out, ls[0]), ls[1..])
  }

  lemma {:induction false} KeepAllConcat(out: seq<string>, a: seq<string>, b: seq<string>)
    ensures KeepAll(out, a + b) == KeepAll(KeepAll(out, a), b)
    decreases |a|
  {
    if a == [] {
      assert a + b == b;
    } else {
      assert (a + b)[1..] == a[1..] + b;
      KeepAllConcat(Keep(out, a[0]), a[1..], b);
    }
  }

  lemma {:induction false} CalmStrips(out: seq<string>, ls: seq<string>)
    requires NoneOpens(ls)
    ensures StripFrom(out, false, ls) == KeepAll(out, ls)
    decreases |ls|
  {
    if ls != [] {
      CalmStrips(Keep(out, ls[0]), ls[1..]);
    }
  }

  /** Some line with ink stands outside every fold. */
  predicate LeakFrom(inFold: bool, ls: seq<string>)
    decreases |ls|
  {
    ls != [] && ((!inFold && !Opens(ls[0]) && !Blank(ls[0])) || LeakFrom(FoldNext(inFold, ls[0]), ls[1..]))
  }

  /** A claim or a body that closes the fold before its end, with ink behind that. */
  predicate Leaks(e: R.Entry) { LeakFrom(false, Flat(FoldOf(e))) }

  predicate SomeLeaks(es: seq<R.Entry>) { exists i :: 0 <= i < |es| && Leaks(es[i]) }

  lemma {:induction false} NoLeakDrops(out: seq<string>, inFold: bool, ls: seq<string>)
    requires out != [] && out[|out| - 1] == "" && !LeakFrom(inFold, ls)
    ensures StripFrom(out, inFold, ls) == out
    decreases |ls|
  {
    if ls != [] {
      NoLeakDrops(out, FoldNext(inFold, ls[0]), ls[1..]);
    }
  }

  lemma FoldBeginsEmpty(e: R.Entry) returns (rest: seq<string>)
    requires R.Folded(e)
    ensures Flat(FoldOf(e)) == [""] + rest
  {
    rest := Flat(FoldOf(e)[1..]);
    assert FoldOf(e)[0] == "" && Lines("") == [""];
  }

  lemma FoldLeavesABlank(out: seq<string>, e: R.Entry)
    requires R.Folded(e) && !Leaks(e)
    ensures StripFrom(out, false, Flat(FoldOf(e))) == Keep(out, "")
  {
    var rest := FoldBeginsEmpty(e);
    BlankEmpty();
    assert ([""] + rest)[1..] == rest;
    NoLeakDrops(Keep(out, ""), false, rest);
  }

  /** What is to be seen of one entry: its headline, and a blank line when it has a fold. */
  function ShownOf(e: R.Entry): seq<string> { Lines(R.Headline(e)) + (if R.Folded(e) then [""] else []) }

  function Shown(es: seq<R.Entry>): seq<string>
    decreases |es|
  {
    if es == [] then [] else Shown(es[..|es| - 1]) + ShownOf(es[|es| - 1])
  }

  lemma EntryLeavesItsHeadline(out: seq<string>, e: R.Entry)
    requires Calm(e) && !Leaks(e)
    ensures StripFrom(out, false, Flat(R.EntryLines(e))) == KeepAll(out, ShownOf(e))
  {
    var hs := Lines(R.Headline(e));
    FlatEntry(e);
    StripConcat(out, false, hs, Flat(FoldOf(e)));
    NoneOpensNoFold(hs);
    CalmStrips(out, hs);
    KeepAllConcat(out, hs, if R.Folded(e) then [""] else []);
    if R.Folded(e) {
      FoldLeavesABlank(KeepAll(out, hs), e);
      assert [""][1..] == [] && KeepAll(Keep(KeepAll(out, hs), ""), []) == Keep(KeepAll(out, hs), "");
    } else {
      assert hs + [] == hs;
    }
  }

  lemma StripOneMore(out: seq<string>, es: seq<R.Entry>)
    requires es != [] && AllCalm(es)
    ensures var front, e := es[..|es| - 1], es[|es| - 1];
      StripFrom(out, false, Flat(R.Entries(es))) == StripFrom(StripFrom(out, false, Flat(R.Entries(front))), false, Flat(R.EntryLines(e)))
  {
    var front, e := es[..|es| - 1], es[|es| - 1];
    FlatConcat(R.Entries(front), R.EntryLines(e));
    EntriesEndOutside(front);
    StripConcat(out, false, Flat(R.Entries(front)), Flat(R.EntryLines(e)));
  }

  lemma {:induction false} EntriesLeaveHeadlines(out: seq<string>, es: seq<R.Entry>)
    requires AllCalm(es) && !SomeLeaks(es)
    ensures StripFrom(out, false, Flat(R.Entries(es))) == KeepAll(out, Shown(es))
    decreases |es|
  {
    if es != [] {
      var front, e := es[..|es| - 1], es[|es| - 1];
      StripOneMore(out, es);
      EntriesLeaveHeadlines(out, front);
      EntryLeavesItsHeadline(KeepAll(out, Shown(front)), e);
      KeepAllConcat(out, Shown(front), ShownOf(e));
    }
  }

  // ----- counting what is left

  function Inked(ls: seq<string>): nat { if ls == [] then 0 else Inked(ls[1..]) + if Blank(ls[0]) then 0 else 1 }

  lemma {:induction false} InkedConcat(a: seq<string>, b: seq<string>)
    ensures Inked(a + b) == Inked(a) + Inked(b)
  {
    if a == [] {
      assert a + b == b;
    } else {
      InkedConcat(a[1..], b);
      assert (a + b)[1..] == a[1..] + b;
    }
  }

  lemma InkedKeep(out: seq<string>, l: string)
    ensures Inked(Keep(out, l)) == Inked(out) + if Blank(l) then 0 else 1
  {
    InkedConcat(out, [l]);
    assert Inked([l]) == Inked([l][1..]) + if Blank(l) then 0 else 1;
  }

  lemma {:induction false} InkedStrip(out: seq<string>, inFold: bool, ls: seq<string>)
    ensures Inked(StripFrom(out, inFold, ls)) >= Inked(out) + if LeakFrom(inFold, ls) then 1 else 0
    decreases |ls|
  {
    if ls != [] {
      InkedKeep(out, ls[0]);
      InkedStrip(StripNext(out, inFold, ls[0]), FoldNext(inFold, ls[0]), ls[1..]);
    }
  }

  lemma {:induction false} InkedKeepAll(out: seq<string>, ls: seq<string>)
    ensures Inked(KeepAll(out, ls)) == Inked(out) + Inked(ls)
    decreases |ls|
  {
    if ls != [] {
      InkedKeep(out, ls[0]);
      InkedKeepAll(Keep(out, ls[0]), ls[1..]);
    }
  }

  lemma InkedShownOf(e: R.Entry)
    ensures Inked(ShownOf(e)) == Inked(Lines(R.Headline(e)))
  {
    BlankEmpty();
    InkedConcat(Lines(R.Headline(e)), if R.Folded(e) then [""] else []);
    assert [""][1..] == [] && Inked([""]) == 0;
  }

  lemma InkedEntry(out: seq<string>, e: R.Entry)
    requires Calm(e)
    ensures Inked(StripFrom(out, false, Flat(R.EntryLines(e)))) >= Inked(out) + Inked(ShownOf(e)) + if Leaks(e) then 1 else 0
  {
    var hs := Lines(R.Headline(e));
    FlatEntry(e);
    StripConcat(out, false, hs, Flat(FoldOf(e)));
    NoneOpensNoFold(hs);
    CalmStrips(out, hs);
    InkedKeepAll(out, hs);
    InkedStrip(KeepAll(out, hs), false, Flat(FoldOf(e)));
    InkedShownOf(e);
  }

  /** Calm entries leave at least their headlines. */
  lemma {:induction false} InkedEntries(out: seq<string>, es: seq<R.Entry>)
    requires AllCalm(es)
    ensures Inked(StripFrom(out, false, Flat(R.Entries(es)))) >= Inked(out) + Inked(Shown(es))
    decreases |es|
  {
    if es != [] {
      InkedEntries(out, es[..|es| - 1]);
      InkedOneMore(out, es);
    }
  }

  lemma InkedOneMore(out: seq<string>, es: seq<R.Entry>)
    requires es != [] && AllCalm(es)
    ensures var front, e := es[..|es| - 1], es[|es| - 1];
      Inked(StripFrom(out, false, Flat(R.Entries(es)))) - Inked(Shown(es))
      >= Inked(StripFrom(out, false, Flat(R.Entries(front)))) - Inked(Shown(front)) + if Leaks(e) then 1 else 0
  {
    var front, e := es[..|es| - 1], es[|es| - 1];
    StripOneMore(out, es);
    InkedEntry(StripFrom(out, false, Flat(R.Entries(front))), e);
    InkedConcat(Shown(front), ShownOf(e));
  }

  /** And more when one of them leaks. */
  lemma {:induction false} InkedLeak(out: seq<string>, es: seq<R.Entry>, i: nat)
    requires AllCalm(es) && i < |es| && Leaks(es[i])
    ensures Inked(StripFrom(out, false, Flat(R.Entries(es)))) > Inked(out) + Inked(Shown(es))
    decreases |es|
  {
    InkedOneMore(out, es);
    if i < |es| - 1 {
      InkedLeak(out, es[..|es| - 1], i);
    } else {
      InkedEntries(out, es[..|es| - 1]);
    }
  }

  // ----- a headline that opens a fold

  lemma {:induction false} NoOpeningKept(out: seq<string>, inFold: bool, ls: seq<string>)
    ensures out <= StripFrom(out, inFold, ls) && NoneOpens(StripFrom(out, inFold, ls)[|out|..])
    decreases |ls|
  {
    if ls != [] {
      var next := StripNext(out, inFold, ls[0]);
      NoOpeningKept(next, FoldNext(inFold, ls[0]), ls[1..]);
      var all := StripFrom(out, inFold, ls);
      assert forall i :: |next| <= i < |all| ==> all[i] == all[|next|..][i - |next|];
    }
  }

  lemma {:induction false} KeptIsThere(out: seq<string>, ls: seq<string>, i: nat)
    requires i < |ls| && !Blank(ls[i])
    ensures out <= KeepAll(out, ls) && ls[i] in KeepAll(out, ls)[|out|..]
    decreases |ls|
  {
    var next := Keep(out, ls[0]);
    KeepAllGrows(next, ls[1..]);
    if i == 0 {
      assert KeepAll(out, ls)[|out|] == ls[0];
    } else {
      KeptIsThere(next, ls[1..], i - 1);
      var all := KeepAll(out, ls);
      var k :| 0 <= k < |all[|next|..]| && all[|next|..][k] == ls[i];
      assert all[|out|..][k + (|next| - |out|)] == ls[i];
    }
  }

  lemma {:induction false} KeepAllGrows(out: seq<string>, ls: seq<string>)
    ensures out <= KeepAll(out, ls)
    decreases |ls|
  {
    if ls != [] {
      KeepAllGrows(Keep(out, ls[0]), ls[1..]);
    }
  }

  lemma {:induction false} ShownHolds(es: seq<R.Entry>, i: nat, k: nat) returns (m: nat)
    requires i < |es| && k < |Lines(R.Headline(es[i]))|
    ensures m < |Shown(es)| && Shown(es)[m] == Lines(R.Headline(es[i]))[k]
    decreases |es|
  {
    if i < |es| - 1 {
      m := ShownHolds(es[..|es| - 1], i, k);
    } else {
      m := |Shown(es[..|es| - 1])| + k;
    }
  }

  lemma OpeningIsLost(out: seq<string>, es: seq<R.Entry>, ls: seq<string>)
    requires !AllCalm(es)
    ensures StripFrom(out, false, ls) != KeepAll(out, Shown(es) + [""])
  {
    var i :| 0 <= i < |es| && !Calm(es[i]);
    var k :| 0 <= k < |Lines(R.Headline(es[i]))| && Opens(Lines(R.Headline(es[i]))[k]);
    var m := ShownHolds(es, i, k);
    var shown := Shown(es) + [""];
    assert shown[m] == Lines(R.Headline(es[i]))[k] && !Blank(shown[m]);
    NoOpeningKept(out, false, ls);
    KeptIsThere(out, shown, m);
    var kept := KeepAll(out, shown)[|out|..];
    assert !NoneOpens(kept) by {
      var j :| 0 <= j < |kept| && kept[j] == shown[m];
    }
  }

  /** Of the entries of a kind, whatever they say, the page without folds has exactly the lines of their headlines,
      with a blank line for each fold and none twice in a row, if and only if no headline opens a fold and no
      claim or body lets anything out of its own. */
  lemma OnlyHeadlinesStay(out: seq<string>, es: seq<R.Entry>)
    ensures StripFrom(out, false, Lines(Unlines(R.Entries(es)))) == KeepAll(out, Shown(es) + [""])
        <==> AllCalm(es) && !SomeLeaks(es)
  {
    var ls := Flat(R.Entries(es));
    LinesOfUnlines(R.Entries(es));
    if AllCalm(es) {
      EntriesEndOutside(es);
      StripConcat(out, false, ls, [""]);
      KeepAllConcat(out, Shown(es), [""]);
      LastEmpty(StripFrom(out, false, ls), KeepAll(out, Shown(es)));
      InkedKeepAll(out, Shown(es));
      if SomeLeaks(es) {
        var i :| 0 <= i < |es| && Leaks(es[i]);
        InkedLeak(out, es, i);
      } else {
        EntriesLeaveHeadlines(out, es);
      }
    } else {
      OpeningIsLost(out, es, ls + [""]);
    }
  }

  lemma LastEmpty(a: seq<string>, b: seq<string>)
    ensures StripFrom(a, false, [""]) == Keep(a, "") && KeepAll(b, [""]) == Keep(b, "")
    ensures Inked(Keep(a, "")) == Inked(a) && Inked(Keep(b, "")) == Inked(b)
  {
    BlankEmpty();
    StripOne(a, false, "");
    InkedKeep(a, "");
    InkedKeep(b, "");
    assert [""][1..] == [];
    assert KeepAll(Keep(b, ""), []) == Keep(b, "");
  }

  // ----- a body that lets something out

  lemma {:induction false} LeakFromConcat(inFold: bool, a: seq<string>, b: seq<string>)
    ensures LeakFrom(inFold, a + b) == (LeakFrom(inFold, a) || LeakFrom(FoldAfter(inFold, a), b))
    decreases |a|
  {
    if a == [] {
      assert a + b == b;
    } else {
      assert (a + b)[1..] == a[1..] + b;
      LeakFromConcat(FoldNext(inFold, a[0]), a[1..], b);
    }
  }

  /** A closing line inside the fold, and a line with ink right behind it. */
  lemma ClosedEarly(e: R.Entry, front: seq<string>, shut: string, l: string, rest: seq<string>)
    requires Flat(FoldOf(e)) == front + ([shut] + ([l] + rest)) && Closes(shut) && !Blank(l) && !Opens(l)
    ensures Leaks(e)
  {
    LeakFromConcat(false, front, [shut] + ([l] + rest));
    LeakFromConcat(FoldAfter(false, front), [shut], [l] + rest);
    StripOne([], FoldAfter(false, front), shut);
    assert LeakFrom(false, [l] + rest) by { assert ([l] + rest)[0] == l; }
  }

  const SHUT := "</details>"

  lemma BodyOfTwo(e: R.Entry, l: string)
    requires e.invalidates == [] && e.body == SHUT + "\n" + l && OneLine(l) && l != ""
    ensures FoldOf(e) == ["", R.Opening(e), ""] + (["  " + SHUT] + (["  " + l] + ["", R.CLOSING, ""]))
  {
    SecondLine(SHUT, l);
    var inside := R.Inside(e);
    assert R.BodyLines([SHUT, l]) == [R.BodyLine(SHUT), R.BodyLine(l)];
    assert R.Claims([]) == [] && inside == [R.BodyLine(SHUT), R.BodyLine(l)];
    AroundTwo(["", R.Opening(e), ""], "  " + SHUT, "  " + l, ["", R.CLOSING, ""]);
  }

  lemma AroundTwo(a: seq<string>, x: string, y: string, b: seq<string>)
    ensures a + [x, y] + b == a + ([x] + ([y] + b))
  {
  }

  lemma BodyIsLines(e: R.Entry, l: string)
    requires OneLine(l)
    ensures AllOneLine(["", R.Opening(e), ""] + (["  " + SHUT] + (["  " + l] + ["", R.CLOSING, ""])))
  {
    R.ClosingQuiet();
    R.OpeningQuiet(e);
    R.OneLineConcat("  ", SHUT);
    R.OneLineConcat("  ", l);
    AllFour(R.Opening(e), "  " + SHUT, "  " + l, R.CLOSING);
  }

  lemma AllFour(o: string, x: string, y: string, c: string)
    requires OneLine(o) && OneLine(x) && OneLine(y) && OneLine(c)
    ensures AllOneLine(["", o, ""] + ([x] + ([y] + ["", c, ""])))
  {
  }

  lemma Indented(l: string)
    requires InkFirst(l) && InkLast(l)
    ensures Trim("  " + l) == l
  {
    TrimDropsHead("  ", l);
    TrimOfTrimmed(l);
  }

  lemma IndentedShut()
    ensures Closes("  " + SHUT)
  {
    assert SHUT[|SHUT| - 1] == '>';
    Indented(SHUT);
  }

  /** Any body that closes the fold and goes on: what follows is left on the page. */
  lemma ABodyThatLeaks(e: R.Entry, l: string)
    requires e.invalidates == [] && e.body == SHUT + "\n" + l
    requires OneLine(l) && InkFirst(l) && InkLast(l) && l[0] != '<'
    ensures Leaks(e)
  {
    BodyOfTwo(e, l);
    BodyIsLines(e, l);
    FlatOfLines(FoldOf(e));
    IndentedShut();
    Indented(l);
    TrimStarts(l);
    InkIsNotBlank(l);
    TrimOfTrimmed(l);
    ClosedEarly(e, ["", R.Opening(e), ""], "  " + SHUT, "  " + l, ["", R.CLOSING, ""]);
  }

  /** With titles and tags of one line nothing is squeezed: each headline stands as it is, with its blank. */
  lemma {:induction false} OneLinesStandAsTheyAre(out: seq<string>, es: seq<R.Entry>)
    requires OneLineHeadlines(es)
    ensures KeepAll(out, Shown(es)) == out + Shown(es)
    decreases |es|
  {
    if es == [] {
      assert out + [] == out;
    } else {
      var front, e := es[..|es| - 1], es[|es| - 1];
      OneLinesStandAsTheyAre(out, front);
      OneStands(out + Shown(front), e);
      KeptOn(out, Shown(front), ShownOf(e), out + Shown(front), Shown(es));
      Regroup(out, Shown(front), ShownOf(e));
    }
  }

  lemma KeptOn(out: seq<string>, shown: seq<string>, more: seq<string>, mid: seq<string>, all: seq<string>)
    requires KeepAll(out, shown) == mid && KeepAll(mid, more) == mid + more && all == shown + more
    ensures KeepAll(out, all) == mid + more
  {
    KeepAllConcat(out, shown, more);
  }

  lemma Regroup(a: seq<string>, b: seq<string>, c: seq<string>)
    ensures a + b + c == a + (b + c)
  {
  }

  lemma KeepOne(out: seq<string>, l: string)
    ensures KeepAll(out, [l]) == Keep(out, l)
  {
    assert [l][1..] == [];
    assert KeepAll(Keep(out, l), []) == Keep(out, l);
  }

  lemma KeepTwo(out: seq<string>, h: string)
    requires !Blank(h) && h != ""
    ensures KeepAll(out, [h] + [""]) == out + ([h] + [""])
  {
    KeepAllConcat(out, [h], [""]);
    KeepOne(out, h);
    KeepOne(out + [h], "");
    assert out + [h] + [""] == out + ([h] + [""]);
  }

  lemma OneStands(out: seq<string>, e: R.Entry)
    requires OneLine(e.title) && AllOneLine(e.surface)
    ensures KeepAll(out, ShownOf(e)) == out + ShownOf(e)
  {
    var h := R.Headline(e);
    OneLineIsCalm(e);
    HeadlineEnds(e);
    InkIsNotBlank(h);
    if R.Folded(e) {
      KeepTwo(out, h);
    } else {
      KeepOne(out, h);
      assert [h] + [] == [h];
    }
  }
}
