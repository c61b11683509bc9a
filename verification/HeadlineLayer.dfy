/** The headline layer of a printed section: for any entries at all, exactly when it has every headline. */
module HeadlineLayer {
  import opened ReleaseNotes
  import opened Text
  import R = Rendering

  // ----- where no fold is open

  predicate FoldAfter(inFold: bool, ls: seq<string>)
    decreases |ls|
  {
    if ls == [] then inFold else FoldAfter(FoldNext(inFold, ls[0]), ls[1..])
  }

  lemma {:induction false} FoldAfterConcat(inFold: bool, a: seq<string>, b: seq<string>)
    ensures FoldAfter(inFold, a + b) == FoldAfter(FoldAfter(inFold, a), b)
    decreases |a|
  {
    if a == [] {
      assert a + b == b;
    } else {
      assert (a + b)[1..] == a[1..] + b;
      FoldAfterConcat(FoldNext(inFold, a[0]), a[1..], b);
    }
  }

  lemma {:induction false} StripConcat(out: seq<string>, inFold: bool, a: seq<string>, b: seq<string>)
    ensures StripFrom(out, inFold, a + b) == StripFrom(StripFrom(out, inFold, a), FoldAfter(inFold, a), b)
    decreases |a|
  {
    if a == [] {
      assert a + b == b;
    } else {
      assert (a + b)[1..] == a[1..] + b;
      StripConcat(StripNext(out, inFold, a[0]), FoldNext(inFold, a[0]), a[1..], b);
    }
  }

  lemma StripOne(out: seq<string>, inFold: bool, l: string)
    ensures StripFrom(out, inFold, [l]) == StripNext(out, inFold, l)
    ensures FoldAfter(inFold, [l]) == FoldNext(inFold, l)
  {
    assert [l][1..] == [];
    assert StripFrom(StripNext(out, inFold, l), FoldNext(inFold, l), []) == StripNext(out, inFold, l);
  }

  /** Whether a fold is open before line k. */
  predicate FoldAt(inFold: bool, ls: seq<string>, k: nat)
    requires k <= |ls|
  {
    if k == 0 then inFold else FoldNext(FoldAt(inFold, ls, k - 1), ls[k - 1])
  }

  lemma {:induction false} FoldAtIs(inFold: bool, ls: seq<string>, k: nat)
    requires k <= |ls|
    ensures FoldAt(inFold, ls, k) == FoldAfter(inFold, ls[..k])
  {
    if k > 0 {
      FoldAtIs(inFold, ls, k - 1);
      FoldAfterConcat(inFold, ls[..k - 1], [ls[k - 1]]);
      StripOne([], FoldAfter(inFold, ls[..k - 1]), ls[k - 1]);
      assert ls[..k] == ls[..k - 1] + [ls[k - 1]];
    }
  }

  /** Line k is l, and no fold is open there. */
  predicate Out(ls: seq<string>, k: nat, l: string) { k < |ls| && ls[k] == l && !FoldAt(false, ls, k) }

  predicate InOrder(ls: seq<string>, j: nat, k: nat, m: nat, a: string, h: string, b: string) {
    j <= k <= m && Out(ls, j, a) && Out(ls, k, h) && Out(ls, m, b)
  }

  /** Outside every fold stand a, then h, then b; they may be one and the same line. */
  ghost predicate Between(ls: seq<string>, a: string, h: string, b: string) {
    exists j: nat, k: nat, m: nat :: InOrder(ls, j, k, m, a, h, b)
  }

  lemma Places(ls: seq<string>, a: string, h: string, b: string) returns (j: nat, k: nat, m: nat)
    requires Between(ls, a, h, b)
    ensures InOrder(ls, j, k, m, a, h, b)
  {
    j, k, m :| InOrder(ls, j, k, m, a, h, b);
  }

  predicate InkFirst(l: string) { l != "" && !IsSpace(l[0]) }

  predicate InkLast(l: string) { l != "" && !IsSpace(l[|l| - 1]) }

  /** Lines with ink that open no fold, the first beginning with ink and the last ending with it: white space cut
      off a text that has them in this order does not reach them. */
  predicate Firm(a: string, h: string, b: string) {
    InkFirst(a) && InkLast(b) && !Blank(h) && !Opens(a) && !Opens(h) && !Opens(b)
  }

  lemma InkIsNotBlank(l: string)
    requires InkFirst(l) || InkLast(l)
    ensures !Blank(l)
  {
    TrimsAway(l);
  }

  // ----- one text before or behind another

  lemma OutBefore(front: seq<string>, back: seq<string>, k: nat, l: string, all: seq<string>)
    requires Out(front, k, l) && all == front + back
    ensures Out(all, k, l)
  {
    assert all[..k] == front[..k];
    FoldAtIs(false, front, k);
    FoldAtIs(false, all, k);
  }

  lemma {:induction false} FoldAtBehind(front: seq<string>, back: seq<string>, k: nat, all: seq<string>)
    requires k <= |back| && all == front + back
    ensures FoldAt(false, all, |front| + k) == FoldAt(FoldAfter(false, front), back, k)
  {
    if k == 0 {
      assert all[..|front|] == front;
      FoldAtIs(false, all, |front|);
    } else {
      FoldAtBehind(front, back, k - 1, all);
      assert all[|front| + (k - 1)] == back[k - 1];
    }
  }

  lemma OutBehind(front: seq<string>, back: seq<string>, k: nat, l: string, all: seq<string>)
    requires !FoldAfter(false, front) && Out(back, k, l) && all == front + back
    ensures Out(all, |front| + k, l)
  {
    FoldAtBehind(front, back, k, all);
  }

  lemma BetweenBefore(front: seq<string>, back: seq<string>, a: string, h: string, b: string, all: seq<string>)
    requires Between(front, a, h, b) && all == front + back
    ensures Between(all, a, h, b)
  {
    var j, k, m := Places(front, a, h, b);
    OutBefore(front, back, j, a, all);
    OutBefore(front, back, k, h, all);
    OutBefore(front, back, m, b, all);
    assert InOrder(all, j, k, m, a, h, b);
  }

  lemma BetweenBehind(front: seq<string>, back: seq<string>, a: string, h: string, b: string, all: seq<string>)
    requires !FoldAfter(false, front) && Between(back, a, h, b) && all == front + back
    ensures Between(all, a, h, b)
  {
    var j, k, m := Places(back, a, h, b);
    OutBehind(front, back, j, a, all);
    OutBehind(front, back, k, h, all);
    OutBehind(front, back, m, b, all);
    assert InOrder(all, |front| + j, |front| + k, |front| + m, a, h, b);
  }

  // ----- many texts, one behind another

  lemma {:induction false} PartsEndOutside(parts: seq<seq<string>>, n: nat)
    requires n <= |parts| && forall k :: 0 <= k < n ==> !FoldAfter(false, parts[k])
    ensures !FoldAfter(false, R.Concat(parts, n))
  {
    if n > 0 {
      PartsEndOutside(parts, n - 1);
      FoldAfterConcat(false, R.Concat(parts, n - 1), parts[n - 1]);
    }
  }

  /** What a text keeps when others are put behind it, or before it with no fold left open. */
  ghost predicate Carries(p: seq<string> -> bool) {
    && (forall x, y :: p(x) ==> p(x + y))
    && (forall x, y :: !FoldAfter(false, x) && p(y) ==> p(x + y))
  }

  lemma {:induction false} PartCarries(parts: seq<seq<string>>, n: nat, k: nat, p: seq<string> -> bool)
    requires k < n <= |parts| && forall j :: 0 <= j < n ==> !FoldAfter(false, parts[j])
    requires Carries(p) && p(parts[k])
    ensures p(R.Concat(parts, n))
  {
    if k < n - 1 {
      PartCarries(parts, n - 1, k, p);
    } else {
      PartsEndOutside(parts, n - 1);
    }
  }

  ghost function Standing(a: string, h: string, b: string): seq<string> -> bool { ls => Between(ls, a, h, b) }

  lemma StandingCarries(a: string, h: string, b: string)
    ensures Carries(Standing(a, h, b))
  {
    forall x, y | Standing(a, h, b)(x) ensures Standing(a, h, b)(x + y) {
      BetweenBefore(x, y, a, h, b, x + y);
    }
    forall x, y | !FoldAfter(false, x) && Standing(a, h, b)(y) ensures Standing(a, h, b)(x + y) {
      BetweenBehind(x, y, a, h, b, x + y);
    }
  }

  function Flats(parts: seq<seq<string>>): seq<seq<string>> {
    seq(|parts|, k requires 0 <= k < |parts| => Flat(parts[k]))
  }

  lemma {:induction false} FlatParts(parts: seq<seq<string>>, n: nat)
    requires n <= |parts|
    ensures Flat(R.Concat(parts, n)) == R.Concat(Flats(parts), n)
  {
    if n > 0 {
      FlatParts(parts, n - 1);
      FlatConcat(R.Concat(parts, n - 1), parts[n - 1]);
    }
  }

  // ----- trimming the text

  lemma BlankEmpty()
    ensures Blank("") && !Opens("") && !Closes("") && !FoldNext(false, "")
  {
    TrimOfTrimmed("");
  }

  /** Another first line that looks the same to the reader. */
  lemma OutOtherFirst(x: string, y: string, rest: seq<string>, k: nat, l: string)
    requires Out([x] + rest, k, l) && k > 0 && FoldNext(false, x) == FoldNext(false, y)
    ensures Out([y] + rest, k, l)
  {
    FoldAtBehind([x], rest, k - 1, [x] + rest);
    FoldAtBehind([y], rest, k - 1, [y] + rest);
    StripOne([], false, x);
    StripOne([], false, y);
  }

  lemma OutWithoutFirst(rest: seq<string>, k: nat, l: string)
    requires Out([""] + rest, k, l) && k > 0
    ensures Out(rest, k - 1, l)
  {
    BlankEmpty();
    FoldAtBehind([""], rest, k - 1, [""] + rest);
    StripOne([], false, "");
  }

  lemma BetweenWithoutFirst(rest: seq<string>, a: string, h: string, b: string)
    requires Between([""] + rest, a, h, b) && a != ""
    ensures Between(rest, a, h, b)
  {
    var j, k, m := Places([""] + rest, a, h, b);
    OutWithoutFirst(rest, j, a);
    OutWithoutFirst(rest, k, h);
    OutWithoutFirst(rest, m, b);
    assert InOrder(rest, j - 1, k - 1, m - 1, a, h, b);
  }

  lemma BetweenOtherFirst(x: string, y: string, rest: seq<string>, a: string, h: string, b: string)
    requires Between([x] + rest, a, h, b) && a != x && FoldNext(false, x) == FoldNext(false, y)
    ensures Between([y] + rest, a, h, b)
  {
    var j, k, m := Places([x] + rest, a, h, b);
    OutOtherFirst(x, y, rest, j, a);
    OutOtherFirst(x, y, rest, k, h);
    OutOtherFirst(x, y, rest, m, b);
    assert InOrder([y] + rest, j, k, m, a, h, b);
  }

  lemma {:induction false} FrontKeeps(s: string, a: string, h: string, b: string)
    requires Between(Lines(s), a, h, b) && InkFirst(a)
    ensures Between(Lines(TrimLeft(s)), a, h, b)
  {
    if s != "" && IsSpace(s[0]) {
      FrontStepKeeps(s[0], s[1..], a, h, b);
      FrontKeeps(s[1..], a, h, b);
    }
  }

  lemma FrontStepKeeps(c: char, t: string, a: string, h: string, b: string)
    requires IsSpace(c) && Between(Push(c, Lines(t)), a, h, b) && InkFirst(a)
    ensures Between(Lines(t), a, h, b)
  {
    var ls := Lines(t);
    if c == '\n' {
      BetweenWithoutFirst(ls, a, h, b);
    } else {
      TrimConsSpace(c, ls[0]);
      BetweenOtherFirst([c] + ls[0], ls[0], ls[1..], a, h, b);
      assert [ls[0]] + ls[1..] == ls;
    }
  }

  lemma BetweenInFront(front: seq<string>, x: string, a: string, h: string, b: string)
    requires Between(front + [x], a, h, b) && b != x
    ensures Between(front, a, h, b)
  {
    var j, k, m := Places(front + [x], a, h, b);
    OutInFront(front, [x], j, a);
    OutInFront(front, [x], k, h);
    OutInFront(front, [x], m, b);
    assert InOrder(front, j, k, m, a, h, b);
  }

  lemma OutInFront(front: seq<string>, back: seq<string>, k: nat, l: string)
    requires Out(front + back, k, l) && k < |front|
    ensures Out(front, k, l)
  {
    assert (front + back)[..k] == front[..k];
    FoldAtIs(false, front, k);
    FoldAtIs(false, front + back, k);
  }

  lemma BackStepKeeps(ls: seq<string>, c: char, a: string, h: string, b: string)
    requires |ls| > 0 && IsSpace(c) && Between(Snoc(ls, c), a, h, b) && InkLast(b)
    ensures Between(ls, a, h, b)
  {
    if c == '\n' {
      BetweenInFront(ls, "", a, h, b);
    } else {
      LastWithoutSpace(ls[..|ls| - 1], ls[|ls| - 1], c, a, h, b, ls);
    }
  }

  lemma LastWithoutSpace(front: seq<string>, l: string, c: char, a: string, h: string, b: string, ls: seq<string>)
    requires IsSpace(c) && Between(front + [l + [c]], a, h, b) && InkLast(b) && ls == front + [l]
    ensures Between(ls, a, h, b)
  {
    BetweenInFront(front, l + [c], a, h, b);
    BetweenBefore(front, [l], a, h, b, ls);
  }

  lemma {:induction false} BackKeeps(s: string, a: string, h: string, b: string)
    requires Between(Lines(s), a, h, b) && InkLast(b)
    ensures Between(Lines(TrimRight(s)), a, h, b)
  {
    if s != "" && IsSpace(s[|s| - 1]) {
      assert s == s[..|s| - 1] + [s[|s| - 1]];
      LinesSnoc(s[..|s| - 1], s[|s| - 1]);
      BackStepKeeps(Lines(s[..|s| - 1]), s[|s| - 1], a, h, b);
      BackKeeps(s[..|s| - 1], a, h, b);
    }
  }

  lemma TrimKeeps(s: string, a: string, h: string, b: string)
    requires Between(Lines(s), a, h, b) && InkFirst(a) && InkLast(b)
    ensures Between(Lines(Trim(s)), a, h, b)
  {
    FrontKeeps(s, a, h, b);
    BackKeeps(TrimLeft(s), a, h, b);
  }

  // ----- taking the folds out

  lemma {:induction false} OutStays(out: seq<string>, inFold: bool, ls: seq<string>)
    ensures out <= StripFrom(out, inFold, ls)
    decreases |ls|
  {
    if ls != [] {
      OutStays(StripNext(out, inFold, ls[0]), FoldNext(inFold, ls[0]), ls[1..]);
    }
  }

  /** A line with ink outside every fold is kept, right behind what is left of the lines before it. */
  lemma OutIsKept(ls: seq<string>, k: nat, l: string)
    requires Out(ls, k, l) && !Blank(l) && !Opens(l)
    ensures StripLines(ls[..k]) + [l] <= StripLines(ls)
  {
    var front, out := ls[..k], StripLines(ls[..k]);
    var rest := [l] + ls[k + 1..];
    assert ls == front + rest;
    FoldAtIs(false, ls, k);
    StripConcat([], false, front, rest);
    StripConcat(out, false, [l], ls[k + 1..]);
    StripOne(out, false, l);
    OutStays(out + [l], FoldNext(false, l), ls[k + 1..]);
  }

  lemma KeptInOrder(ls: seq<string>, j: nat, k: nat, l: string)
    requires Out(ls, j, l) && !Blank(l) && !Opens(l) && j < k <= |ls|
    ensures Place(ls, j) < Place(ls, k)
  {
    assert ls == ls[..k] + ls[k..] && ls[..k][..j] == ls[..j];
    OutInFront(ls[..k], ls[k..], j, l);
    OutIsKept(ls[..k], j, l);
  }

  lemma {:induction false} CleanNeverFolds(ls: seq<string>)
    requires Clean(ls)
    ensures !FoldAfter(false, ls)
    decreases |ls|
  {
    if ls != [] {
      assert !Opens(ls[0]);
      assert [ls[0]] + ls[1..] == ls;
      CleanNeverFolds(ls[1..]);
    }
  }

  lemma KeptIsOut(ls: seq<string>, k: nat, l: string)
    requires AllOneLine(ls) && Out(ls, k, l) && !Blank(l) && !Opens(l)
    ensures Out(StripLines(ls), Place(ls, k), l)
  {
    OutIsKept(ls, k, l);
    StripKeepsClean([], false, ls);
    var at, out := |StripLines(ls[..k])|, StripLines(ls);
    CleanNeverFolds(out[..at]);
    FoldAtIs(false, out, at);
  }

  function Place(ls: seq<string>, k: nat): nat
    requires k <= |ls|
  {
    |StripLines(ls[..k])|
  }

  lemma StripKeeps(ls: seq<string>, a: string, h: string, b: string)
    requires AllOneLine(ls) && Between(ls, a, h, b) && Firm(a, h, b)
    ensures Between(StripLines(ls), a, h, b)
  {
    var j, k, m := Places(ls, a, h, b);
    InkIsNotBlank(a);
    InkIsNotBlank(b);
    KeptIsOut(ls, j, a);
    KeptIsOut(ls, k, h);
    KeptIsOut(ls, m, b);
    PlacesRise(ls, j, k, a);
    PlacesRise(ls, k, m, h);
    InThisOrder(StripLines(ls), Place(ls, j), Place(ls, k), Place(ls, m), a, h, b);
  }

  lemma PlacesRise(ls: seq<string>, j: nat, k: nat, l: string)
    requires Out(ls, j, l) && !Blank(l) && !Opens(l) && j <= k <= |ls|
    ensures Place(ls, j) <= Place(ls, k)
  {
    if j < k {
      KeptInOrder(ls, j, k, l);
    }
  }

  lemma InThisOrder(ls: seq<string>, j: nat, k: nat, m: nat, a: string, h: string, b: string)
    requires InOrder(ls, j, k, m, a, h, b)
    ensures Between(ls, a, h, b)
  {
  }

  /** Such lines of a text are lines of it with the folds out. */
  lemma FirmStays(section: string, a: string, h: string, b: string)
    requires Between(Lines(section), a, h, b) && Firm(a, h, b)
    ensures h in Lines(FoldsStripped(section))
  {
    var out := StripLines(Lines(section));
    LinesAreOneLine(section);
    StripKeeps(Lines(section), a, h, b);
    StripKeepsClean([], false, Lines(section));
    LinesJoin(out);
    TrimKeeps(Join(out), a, h, b);
  }

  // ----- printed headlines

  /** No line of the printed headline opens a fold. */
  predicate Calm(e: R.Entry) { NoneOpens(Lines(R.Headline(e))) }

  predicate NoneOpens(ls: seq<string>) { forall k :: 0 <= k < |ls| ==> !Opens(ls[k]) }

  lemma {:induction false} NoneOpensNoFold(ls: seq<string>)
    requires NoneOpens(ls)
    ensures !FoldAfter(false, ls)
  {
    if ls != [] {
      NoneOpensNoFold(ls[1..]);
    }
  }

  lemma {:induction false} TagsEnd(surface: seq<string>)
    requires surface != []
    ensures R.Tags(surface) != "" && R.Tags(surface)[|R.Tags(surface)| - 1] == '`'
  {
  }

  lemma HeadlineEnds(e: R.Entry)
    ensures var h := R.Headline(e); InkFirst(h) && h[0] == '-' && h[|h| - 1] in {')', '`'}
  {
    var h := R.Headline(e);
    if e.surface == [] {
      assert h[|h| - 1] == ')';
    } else {
      TagsEnd(e.surface);
      assert h[|h| - 1] == '`';
    }
  }

  lemma HeadlineLineEnds(e: R.Entry)
    ensures var hs := Lines(R.Headline(e)); InkFirst(hs[0]) && hs[0][0] == '-' && InkLast(hs[|hs| - 1])
  {
    HeadlineEnds(e);
    FirstStart(R.Headline(e));
    FirstLine(R.Headline(e));
    LastLine(R.Headline(e));
  }

  /** Title and tags of one line each make a headline of one line, and a calm one. */
  lemma OneLineIsCalm(e: R.Entry)
    requires OneLine(e.title) && AllOneLine(e.surface)
    ensures Calm(e) && Lines(R.Headline(e)) == [R.Headline(e)]
  {
    R.HeadlineIsOneLine(e);
    LinesOfOneLine(R.Headline(e));
    HeadlineEnds(e);
    TrimStarts(R.Headline(e));
  }

  lemma TrimStarts(l: string)
    requires InkFirst(l) && l[0] != '<'
    ensures !Opens(l) && !Closes(l)
  {
    TrimRightKeepsFront(l);
    assert "<details>"[0] == '<' && "</details>"[0] == '<';
  }

  function First(e: R.Entry): string { Lines(R.Headline(e))[0] }

  function Last(e: R.Entry): string { Lines(R.Headline(e))[|Lines(R.Headline(e))| - 1] }

  lemma CalmOut(e: R.Entry, k: nat)
    requires Calm(e) && k < |Lines(R.Headline(e))|
    ensures Out(Lines(R.Headline(e)), k, Lines(R.Headline(e))[k])
  {
    NoneOpensNoFold(Lines(R.Headline(e))[..k]);
    FoldAtIs(false, Lines(R.Headline(e)), k);
  }

  /** Every line with ink of a calm headline stands firmly between its first and its last. */
  lemma HeadlineIsFirm(e: R.Entry, k: nat)
    requires Calm(e) && k < |Lines(R.Headline(e))| && !Blank(Lines(R.Headline(e))[k])
    ensures Firm(First(e), Lines(R.Headline(e))[k], Last(e))
    ensures Between(Lines(R.Headline(e)), First(e), Lines(R.Headline(e))[k], Last(e))
  {
    var hs := Lines(R.Headline(e));
    HeadlineLineEnds(e);
    CalmOut(e, 0);
    CalmOut(e, k);
    CalmOut(e, |hs| - 1);
    assert InOrder(hs, 0, k, |hs| - 1, First(e), hs[k], Last(e));
  }

  // ----- printed entries

  function FoldOf(e: R.Entry): seq<string> {
    if R.Folded(e) then ["", R.Opening(e), ""] + R.Inside(e) + ["", R.CLOSING, ""] else []
  }

  lemma FlatEntry(e: R.Entry)
    ensures Flat(R.EntryLines(e)) == Lines(R.Headline(e)) + Flat(FoldOf(e))
  {
    assert R.EntryLines(e) == [R.Headline(e)] + FoldOf(e);
    FlatConcat([R.Headline(e)], FoldOf(e));
    FlatOne(R.Headline(e));
  }

  function Closing(): seq<string> { ["", R.CLOSING, ""] }

  /** What a fold holds before its closing line. */
  function Inner(e: R.Entry): seq<string> { Flat(["", R.Opening(e), ""] + R.Inside(e)) }

  lemma FlatFold(e: R.Entry)
    requires R.Folded(e)
    ensures Flat(FoldOf(e)) == Inner(e) + Closing()
  {
    FlatClosing(["", R.Opening(e), ""] + R.Inside(e));
  }

  lemma FlatClosing(front: seq<string>)
    ensures Flat(front + Closing()) == Flat(front) + Closing()
  {
    ClosingIsLines(Closing());
    FlatConcat(front, Closing());
    FlatOfLines(Closing());
  }

  lemma ClosingIsLines(ls: seq<string>)
    requires ls == Closing()
    ensures AllOneLine(ls)
  {
    R.ClosingQuiet();
  }

  lemma ClosingCloses()
    ensures Closes(R.CLOSING) && !FoldNext(true, R.CLOSING) && !FoldNext(false, R.CLOSING)
  {
    TrimDropsHead("  ", "</details>");
    TrimOfTrimmed("</details>");
  }

  lemma FoldAfterThree(f: bool, a: string, b: string, c: string)
    ensures FoldAfter(f, [a, b, c]) == FoldNext(FoldNext(FoldNext(f, a), b), c)
  {
    assert [a, b, c][1..] == [b, c] && [b, c][1..] == [c] && [c][1..] == [];
    assert FoldAfter(FoldNext(FoldNext(f, a), b), [c]) == FoldAfter(FoldNext(FoldNext(FoldNext(f, a), b), c), []);
  }

  /** Whatever stands inside, the printer's own closing line ends it. */
  lemma FoldEnds(e: R.Entry, inFold: bool)
    requires R.Folded(e)
    ensures !FoldAfter(inFold, Flat(FoldOf(e)))
  {
    FlatFold(e);
    BlankEmpty();
    ClosingCloses();
    FoldAfterConcat(inFold, Inner(e), Closing());
    FoldAfterThree(FoldAfter(inFold, Inner(e)), "", R.CLOSING, "");
  }

  lemma EmptyKeepsFold(inFold: bool, ls: seq<string>)
    ensures FoldAfter(inFold, ls + [""]) == FoldAfter(inFold, ls)
  {
    BlankEmpty();
    FoldAfterConcat(inFold, ls, [""]);
    StripOne([], FoldAfter(inFold, ls), "");
  }

  /** For any entry: its printed lines leave a fold open exactly when it has no fold of its own and its headline
      opens one. Claims and body may say what they like. */
  lemma EntryEndsOutside(e: R.Entry)
    ensures FoldAfter(false, Lines(Unlines(R.EntryLines(e)))) <==> !R.Folded(e) && FoldAfter(false, Lines(R.Headline(e)))
  {
    LinesOfUnlines(R.EntryLines(e));
    EmptyKeepsFold(false, Flat(R.EntryLines(e)));
    FlatEntryEnds(e);
  }

  lemma FlatEntryEnds(e: R.Entry)
    ensures FoldAfter(false, Flat(R.EntryLines(e))) <==> !R.Folded(e) && FoldAfter(false, Lines(R.Headline(e)))
  {
    FlatEntry(e);
    var hs := Lines(R.Headline(e));
    FoldAfterConcat(false, hs, Flat(FoldOf(e)));
    if R.Folded(e) {
      FoldEnds(e, FoldAfter(false, hs));
    } else {
      assert Flat(FoldOf(e)) == [] && hs + [] == hs;
    }
  }

  predicate AllCalm(es: seq<R.Entry>) { forall i :: 0 <= i < |es| ==> Calm(es[i]) }

  function EntryTexts(es: seq<R.Entry>): seq<seq<string>> {
    seq(|es|, i requires 0 <= i < |es| => Flat(R.EntryLines(es[i])))
  }

  lemma {:induction false} FlatEntries(es: seq<R.Entry>)
    ensures Flat(R.Entries(es)) == R.Concat(EntryTexts(es), |es|)
    decreases |es|
  {
    if es != [] {
      var front, e := es[..|es| - 1], es[|es| - 1];
      FlatEntries(front);
      FlatConcat(R.Entries(front), R.EntryLines(e));
      R.SameParts(EntryTexts(es), EntryTexts(front) + [Flat(R.EntryLines(e))], |front|);
      ConcatFront(EntryTexts(front), [Flat(R.EntryLines(e))], |front|);
    }
  }

  lemma {:induction false} ConcatFront(parts: seq<seq<string>>, more: seq<seq<string>>, n: nat)
    requires n <= |parts|
    ensures R.Concat(parts + more, n) == R.Concat(parts, n)
  {
    if n > 0 {
      ConcatFront(parts, more, n - 1);
    }
  }

  lemma EntryOutside(e: R.Entry)
    requires Calm(e)
    ensures !FoldAfter(false, Flat(R.EntryLines(e)))
  {
    NoneOpensNoFold(Lines(R.Headline(e)));
    FlatEntryEnds(e);
  }

  lemma TextsEndOutside(es: seq<R.Entry>)
    requires AllCalm(es)
    ensures forall i :: 0 <= i < |es| ==> !FoldAfter(false, EntryTexts(es)[i])
  {
    forall i | 0 <= i < |es| ensures !FoldAfter(false, EntryTexts(es)[i]) {
      EntryOutside(es[i]);
    }
  }

  lemma EntriesEndOutside(es: seq<R.Entry>)
    requires AllCalm(es)
    ensures !FoldAfter(false, Flat(R.Entries(es)))
  {
    TextsEndOutside(es);
    FlatEntries(es);
    PartsEndOutside(EntryTexts(es), |es|);
  }

  lemma EntryCarries(e: R.Entry, p: seq<string> -> bool)
    requires Carries(p) && p(Lines(R.Headline(e)))
    ensures p(Flat(R.EntryLines(e)))
  {
    FlatEntry(e);
  }

  lemma TextCarries(es: seq<R.Entry>, texts: seq<seq<string>>, i: nat, p: seq<string> -> bool)
    requires AllCalm(es) && i < |es| && Carries(p) && texts == EntryTexts(es) && p(texts[i])
    ensures p(R.Concat(texts, |es|))
  {
    TextsEndOutside(es);
    PartCarries(texts, |es|, i, p);
  }

  lemma HeadlineCarries(es: seq<R.Entry>, i: nat, p: seq<string> -> bool)
    requires AllCalm(es) && i < |es| && Carries(p) && p(Lines(R.Headline(es[i])))
    ensures p(Flat(R.Entries(es)))
  {
    EntryCarries(es[i], p);
    TextCarries(es, EntryTexts(es), i, p);
    FlatEntries(es);
  }

  // ----- printed groups

  lemma KindLineEnds(k: nat)
    requires k < R.KIND_COUNT
    ensures OneLine(R.KindLine(k)) && InkFirst(R.KindLine(k)) && InkLast(R.KindLine(k)) && R.KindLine(k)[0] == '#'
  {
    R.KindLineQuiet(k);
    var t, h := R.Title(k), R.KindLine(k);
    assert t != "" && !IsSpace(t[|t| - 1]);
    assert h[0] == '#' && h[|h| - 1] == t[|t| - 1];
  }

  function Head(k: nat): seq<string>
    requires k < R.KIND_COUNT
  {
    ["", R.KindLine(k), ""]
  }

  lemma GroupHead(k: nat)
    requires k < R.KIND_COUNT
    ensures !FoldAfter(false, Head(k)) && Between(Head(k), R.KindLine(k), R.KindLine(k), R.KindLine(k))
    ensures Firm(R.KindLine(k), R.KindLine(k), R.KindLine(k))
  {
    var h := R.KindLine(k);
    BlankEmpty();
    KindLineEnds(k);
    TrimStarts(h);
    InkIsNotBlank(h);
    FoldAfterThree(false, "", h, "");
    assert !FoldAt(false, Head(k), 0);
    assert InOrder(Head(k), 1, 1, 1, h, h, h);
  }

  lemma FlatGroup(k: nat, g: seq<R.Entry>)
    requires k < R.KIND_COUNT && g != []
    ensures Flat(R.Group(k, g)) == Head(k) + Flat(R.Entries(g))
  {
    FlatConcat(Head(k), R.Entries(g));
    KindLineEnds(k);
    FlatOfLines(Head(k));
  }

  lemma GroupEndsOutside(k: nat, g: seq<R.Entry>)
    requires k < R.KIND_COUNT && AllCalm(g)
    ensures !FoldAfter(false, Flat(R.Group(k, g)))
  {
    if g != [] {
      FlatGroup(k, g);
      GroupHead(k);
      EntriesEndOutside(g);
      FoldAfterConcat(false, Head(k), Flat(R.Entries(g)));
    }
  }

  // ----- the headline layer

  /** The lines that are left of a printed section, below its heading, with the folds out. */
  function Layer(groups: seq<seq<R.Entry>>): seq<string>
    requires |groups| == R.KIND_COUNT
  {
    Lines(FoldsStripped(Trim(Unlines(R.Below(groups)))))
  }

  ghost predicate CalmGroups(groups: seq<seq<R.Entry>>) { forall k :: 0 <= k < |groups| ==> AllCalm(groups[k]) }

  lemma GroupCarries(groups: seq<seq<R.Entry>>, k: nat, p: seq<string> -> bool)
    requires k < |groups| == R.KIND_COUNT && CalmGroups(groups) && Carries(p) && p(Flat(R.Group(k, groups[k])))
    ensures p(Lines(Unlines(R.Below(groups))))
  {
    var parts := R.Parts(groups);
    forall j | 0 <= j < |parts| ensures !FoldAfter(false, Flats(parts)[j]) {
      assert AllCalm(groups[j]);
      GroupEndsOutside(j, groups[j]);
    }
    FlatParts(parts, |parts|);
    PartCarries(Flats(parts), |parts|, k, p);
    LinesOfUnlines(R.Below(groups));
  }

  lemma InLayer(groups: seq<seq<R.Entry>>, a: string, h: string, b: string)
    requires |groups| == R.KIND_COUNT && Firm(a, h, b) && Standing(a, h, b)(Lines(Unlines(R.Below(groups))))
    ensures h in Layer(groups)
  {
    TrimKeeps(Unlines(R.Below(groups)), a, h, b);
    FirmStays(Trim(Unlines(R.Below(groups))), a, h, b);
  }

  /** Every line with ink of a headline is there. */
  predicate Shows(layer: seq<string>, e: R.Entry) {
    var hs := Lines(R.Headline(e));
    forall i :: 0 <= i < |hs| && !Blank(hs[i]) ==> hs[i] in layer
  }

  /** Every kind heading of the section and every headline is there. */
  ghost predicate Complete(groups: seq<seq<R.Entry>>)
    requires |groups| == R.KIND_COUNT
  {
    forall k, i :: 0 <= k < |groups| && 0 <= i < |groups[k]| ==> ShowsBoth(Layer(groups), k, groups[k][i])
  }

  predicate ShowsBoth(layer: seq<string>, k: nat, e: R.Entry)
    requires k < R.KIND_COUNT
  {
    R.KindLine(k) in layer && Shows(layer, e)
  }

  lemma KindLineStays(groups: seq<seq<R.Entry>>, k: nat)
    requires k < |groups| == R.KIND_COUNT && CalmGroups(groups) && groups[k] != []
    ensures R.KindLine(k) in Layer(groups)
  {
    var h := R.KindLine(k);
    var p := Standing(h, h, h);
    GroupHead(k);
    FlatGroup(k, groups[k]);
    StandingCarries(h, h, h);
    assert p(Head(k));
    GroupCarries(groups, k, p);
    InLayer(groups, h, h, h);
  }

  lemma HeadlineReaches(groups: seq<seq<R.Entry>>, k: nat, i: nat, p: seq<string> -> bool)
    requires k < |groups| == R.KIND_COUNT && CalmGroups(groups) && i < |groups[k]|
    requires Carries(p) && p(Lines(R.Headline(groups[k][i])))
    ensures p(Lines(Unlines(R.Below(groups))))
  {
    assert AllCalm(groups[k]);
    HeadlineCarries(groups[k], i, p);
    GroupHead(k);
    FlatGroup(k, groups[k]);
    GroupCarries(groups, k, p);
  }

  lemma HeadlineStays(groups: seq<seq<R.Entry>>, k: nat, i: nat)
    requires k < |groups| == R.KIND_COUNT && CalmGroups(groups) && i < |groups[k]|
    ensures Shows(Layer(groups), groups[k][i])
  {
    var e := groups[k][i];
    var hs := Lines(R.Headline(e));
    assert AllCalm(groups[k]);
    forall j | 0 <= j < |hs| && !Blank(hs[j]) ensures hs[j] in Layer(groups) {
      HeadlineIsFirm(e, j);
      StandingCarries(First(e), hs[j], Last(e));
      HeadlineReaches(groups, k, i, Standing(First(e), hs[j], Last(e)));
      InLayer(groups, First(e), hs[j], Last(e));
    }
  }

  lemma OpeningLineGoes(groups: seq<seq<R.Entry>>, e: R.Entry)
    requires |groups| == R.KIND_COUNT && !Calm(e)
    ensures !Shows(Layer(groups), e)
  {
    var hs := Lines(R.Headline(e));
    var i :| 0 <= i < |hs| && Opens(hs[i]);
    StrippingTwiceIsStrippingOnce(Trim(Unlines(R.Below(groups))));
    assert !Blank(hs[i]) && hs[i] !in Layer(groups);
  }

  lemma CalmIsComplete(groups: seq<seq<R.Entry>>)
    requires |groups| == R.KIND_COUNT && CalmGroups(groups)
    ensures Complete(groups)
  {
    forall k, i | 0 <= k < |groups| && 0 <= i < |groups[k]|
      ensures ShowsBoth(Layer(groups), k, groups[k][i])
    {
      KindLineStays(groups, k);
      HeadlineStays(groups, k, i);
    }
  }

  /** For any entries, with any claims and bodies: the headline layer of the printed section has every kind
      heading, and every line with ink of every headline, exactly when no headline has a line that opens a fold. */
  lemma HeadlineLayerIsComplete(groups: seq<seq<R.Entry>>)
    requires |groups| == R.KIND_COUNT
    ensures Complete(groups) <==> CalmGroups(groups)
  {
    if CalmGroups(groups) {
      CalmIsComplete(groups);
    } else {
      var k :| 0 <= k < |groups| && !AllCalm(groups[k]);
      var i :| 0 <= i < |groups[k]| && !Calm(groups[k][i]);
      OpeningLineGoes(groups, groups[k][i]);
      assert !ShowsBoth(Layer(groups), k, groups[k][i]);
    }
  }

  lemma HeadlineOfTwo(e: R.Entry, a: string, b: string)
    requires e.title == a + "\n" + b && e.surface == []
    ensures R.Headline(e) == ("- **" + a) + "\n" + (b + ("**" + R.Link(e.pr)))
  {
    Apart("- **", a, b, "**", R.Link(e.pr));
  }

  lemma Apart(s: string, a: string, b: string, t: string, l: string)
    ensures s + (a + "\n" + b) + t + l + "" == (s + a) + "\n" + (b + (t + l))
  {
  }

  lemma OpensAFold(rest: string)
    requires OneLine(rest) && InkLast(rest)
    ensures OneLine("<details>" + rest) && Opens("<details>" + rest)
  {
    var l := "<details>" + rest;
    assert l[0] == '<' && l[|l| - 1] == rest[|rest| - 1];
    TrimOfTrimmed(l);
  }

  lemma SecondLine(a: string, b: string)
    requires OneLine(a) && OneLine(b)
    ensures Lines(a + "\n" + b) == [a, b]
  {
    LinesAcrossNewline(a, b);
    LinesOfOneLine(a);
    LinesOfOneLine(b);
  }

  lemma LinkEnds(pr: nat)
    ensures OneLine("**" + R.Link(pr)) && InkLast("**" + R.Link(pr))
  {
    LinkLast(R.Link(pr), pr);
    R.OneLineConcat("**", R.Link(pr));
  }

  lemma LinkLast(l: string, pr: nat)
    requires l == R.Link(pr)
    ensures OneLine(l) && InkLast(l)
  {
    assert l[|l| - 1] == ')';
  }

  lemma NotCalm(e: R.Entry, a: string, b: string)
    requires Lines(R.Headline(e)) == [a, b] && Opens(b)
    ensures !Calm(e)
  {
    assert Lines(R.Headline(e))[1] == b;
  }

  /** Any entry whose title has a second line that opens a fold: that headline is not all there, whatever stands
      beside it. */
  lemma ATitleThatOpensAFold(groups: seq<seq<R.Entry>>, k: nat, i: nat, a: string)
    requires k < |groups| == R.KIND_COUNT && i < |groups[k]| && OneLine(a)
    requires groups[k][i].title == a + "\n" + "<details>" && groups[k][i].surface == []
    ensures !Complete(groups)
  {
    var e := groups[k][i];
    LinkEnds(e.pr);
    OpensAFold("**" + R.Link(e.pr));
    HeadlineOfTwo(e, a, "<details>");
    R.OneLineConcat("- **", a);
    SecondLine("- **" + a, "<details>" + ("**" + R.Link(e.pr)));
    NotCalm(e, "- **" + a, "<details>" + ("**" + R.Link(e.pr)));
    HeadlineLayerIsComplete(groups);
    assert !AllCalm(groups[k]);
  }

  predicate OneLineHeadlines(es: seq<R.Entry>) { forall i :: 0 <= i < |es| ==> OneLine(es[i].title) && AllOneLine(es[i].surface) }

  /** With titles and tags of one line, every headline is a line of the layer as it stands. */
  lemma HeadlinesAreLines(groups: seq<seq<R.Entry>>, k: nat, i: nat)
    requires k < |groups| == R.KIND_COUNT && (forall j :: 0 <= j < |groups| ==> OneLineHeadlines(groups[j])) && i < |groups[k]|
    ensures R.Headline(groups[k][i]) in Layer(groups) && R.KindLine(k) in Layer(groups)
  {
    forall j | 0 <= j < |groups| ensures AllCalm(groups[j]) {
      OneLinesAreCalm(groups[j]);
    }
    HeadlineLayerIsComplete(groups);
    var e := groups[k][i];
    assert OneLineHeadlines(groups[k]) && ShowsBoth(Layer(groups), k, e);
    OneLineIsCalm(e);
    HeadlineEnds(e);
    InkIsNotBlank(R.Headline(e));
    assert Lines(R.Headline(e))[0] == R.Headline(e);
  }

  lemma OneLinesAreCalm(es: seq<R.Entry>)
    requires OneLineHeadlines(es)
    ensures AllCalm(es)
  {
    forall i | 0 <= i < |es| ensures Calm(es[i]) {
      OneLineIsCalm(es[i]);
    }
  }
}
