/** Printing a section, putting it into the changelog and reading it back: exactly when all of it returns. */
module RoundTrip {
  import opened ChangelogFile
  import opened Text
  import opened Wrappers
  import R = Rendering
  import Sorting

  // ----- headings among the lines of a text

  predicate HasHeading(ls: seq<string>) { exists j :: 0 <= j < |ls| && IsHeading(ls[j]) }

  /** Some line of the text is a heading; some line but the first is. */
  predicate Any(t: string) { HasHeading(Lines(t)) }

  predicate Inner(t: string) { HasHeading(Lines(t)[1..]) }

  /** A line break followed by what starts a heading. */
  ghost predicate Breaks(t: string) { exists k: nat :: Here(t, "\n## ", k) }

  lemma HasHeadingConcat(a: seq<string>, b: seq<string>)
    ensures HasHeading(a + b) <==> HasHeading(a) || HasHeading(b)
  {
    if j :| 0 <= j < |b| && IsHeading(b[j]) {
      assert (a + b)[|a| + j] == b[j];
    }
    if j :| 0 <= j < |a| && IsHeading(a[j]) {
      assert (a + b)[j] == a[j];
    }
  }

  lemma AnyIsFirstOrInner(t: string)
    ensures Any(t) <==> IsHeading(Lines(t)[0]) || Inner(t)
  {
    var ls := Lines(t);
    HasHeadingConcat([ls[0]], ls[1..]);
    assert [ls[0]] + ls[1..] == ls;
    assert HasHeading([ls[0]]) <==> IsHeading(ls[0]) by { assert [ls[0]][0] == ls[0]; }
  }

  lemma FirstIsHeading(t: string)
    ensures IsHeading(Lines(t)[0]) <==> IsHeading(t)
  {
    FirstLine(t);
    assert forall k :: 0 <= k < |Lines(t)[0]| ==> Lines(t)[0][k] == t[k];
    assert IsHeading(t) ==> t[0] != '\n' && t[1] != '\n' && t[2] != '\n';
  }

  lemma {:induction false} InnerIsBreaks(t: string)
    ensures Inner(t) <==> Breaks(t)
  {
    if t == "" {
      assert Lines(t)[1..] == [];
    } else {
      InnerIsBreaks(t[1..]);
      HereShifts(t, "\n## ");
      BreaksLater(t);
      if t[0] == '\n' {
        assert Lines(t)[1..] == Lines(t[1..]);
        AnyIsFirstOrInner(t[1..]);
        FirstIsHeading(t[1..]);
        HeadingAfterNewline(t);
      } else {
        assert Lines(t)[1..] == Lines(t[1..])[1..];
        assert !Here(t, "\n## ", 0) by { NoNewlineHere(t); }
      }
    }
  }

  lemma NoNewlineHere(t: string)
    requires t != "" && t[0] != '\n'
    ensures !Here(t, "\n## ", 0)
  {
    if Here(t, "\n## ", 0) {
      StartsAs(t);
    }
  }

  lemma StartsAs(t: string)
    requires Here(t, "\n## ", 0)
    ensures t != "" && t[0] == '\n'
  {
    assert t[0] == t[0..4][0];
  }

  lemma BreaksLater(t: string)
    requires t != "" && forall k: nat :: k > 0 ==> Here(t, "\n## ", k) == Here(t[1..], "\n## ", k - 1)
    ensures Breaks(t) <==> Here(t, "\n## ", 0) || Breaks(t[1..])
  {
    if k: nat :| Here(t[1..], "\n## ", k) {
      assert Here(t, "\n## ", k + 1);
    }
    if k: nat :| Here(t, "\n## ", k) {
      assert k > 0 ==> Here(t[1..], "\n## ", k - 1);
    }
  }

  lemma HeadingAfterNewline(t: string)
    requires t != "" && t[0] == '\n'
    ensures Here(t, "\n## ", 0) <==> IsHeading(t[1..])
  {
    var p := "\n## ";
    assert p == "\n" + "## ";
    if IsHeading(t[1..]) {
      assert t[0..4] == [t[0]] + t[1..][..3];
    }
    if Here(t, p, 0) {
      assert t[1..][..3] == t[0..4][1..] == p[1..] == "## ";
    }
  }

  // ----- two texts end to end

  /** The lines of two texts put end to end: the last of one and the first of the other become one. */
  function Seam(la: seq<string>, lb: seq<string>): seq<string>
    requires |la| > 0 && |lb| > 0
  {
    la[..|la| - 1] + [la[|la| - 1] + lb[0]] + lb[1..]
  }

  lemma {:induction false} SeamLines(a: string, b: string)
    ensures Lines(a + b) == Seam(Lines(a), Lines(b))
    decreases |a|
  {
    if a == "" {
      assert a + b == b && Lines("") == [""] && "" + Lines(b)[0] == Lines(b)[0];
    } else {
      SeamLines(a[1..], b);
      assert (a + b)[1..] == a[1..] + b;
      PushSeam(a[0], Lines(a[1..]), Lines(b));
    }
  }

  lemma SeamCons(l: string, la: seq<string>, lb: seq<string>)
    requires |la| > 0 && |lb| > 0
    ensures Seam([l] + la, lb) == [l] + Seam(la, lb)
  {
  }

  lemma PushSeam(c: char, la: seq<string>, lb: seq<string>)
    requires |la| > 0 && |lb| > 0
    ensures Push(c, Seam(la, lb)) == Seam(Push(c, la), lb)
  {
    if c == '\n' {
      SeamCons("", la, lb);
    } else if |la| == 1 {
      assert [c] + (la[0] + lb[0]) == ([c] + la[0]) + lb[0];
    } else {
      SeamCons(la[0], la[1..], lb);
      SeamCons([c] + la[0], la[1..], lb);
      assert la == [la[0]] + la[1..];
    }
  }

  /** No heading can come about where the two meet. */
  predicate Firm(a: string, b: string) {
    (b == "" || (b[0] != '#' && b[0] != ' ')) || (a != "" && a[|a| - 1] != '#' && a[|a| - 1] != '\n')
  }

  lemma FirmLast(l: string, f: string)
    requires (f == "" || (f[0] != '#' && f[0] != ' ')) || (l != "" && l[|l| - 1] != '#')
    ensures IsHeading(l + f) <==> IsHeading(l)
  {
    var h := "## ";
    assert forall k :: 0 <= k < |l| ==> (l + f)[k] == l[k];
    if f != "" {
      assert (l + f)[|l|] == f[0];
    }
    assert IsHeading(l) <==> |l| >= 3 && l[0] == '#' && l[1] == '#' && l[2] == ' ';
    assert IsHeading(l + f) <==> |l + f| >= 3 && (l + f)[0] == '#' && (l + f)[1] == '#' && (l + f)[2] == ' ';
  }

  /** The line where the two meet is a heading exactly when the one it grows from is. */
  lemma FirmSeam(a: string, b: string)
    requires Firm(a, b)
    ensures IsHeading(Lines(a)[|Lines(a)| - 1] + Lines(b)[0]) <==> IsHeading(Lines(a)[|Lines(a)| - 1])
  {
    FirstStart(b);
    if a != "" && a[|a| - 1] != '\n' {
      LastLine(a);
    }
    FirmLast(Lines(a)[|Lines(a)| - 1], Lines(b)[0]);
  }

  lemma SeamHeading(a: string, b: string)
    requires Firm(a, b)
    ensures Any(a + b) <==> Any(a) || Inner(b)
  {
    SeamLines(a, b);
    FirmSeam(a, b);
    SeamHasHeading(Lines(a), Lines(b));
  }

  lemma SeamHasHeading(la: seq<string>, lb: seq<string>)
    requires |la| > 0 && |lb| > 0 && (IsHeading(la[|la| - 1] + lb[0]) <==> IsHeading(la[|la| - 1]))
    ensures HasHeading(Seam(la, lb)) <==> HasHeading(la) || HasHeading(lb[1..])
  {
    var front, l := la[..|la| - 1], la[|la| - 1];
    OneOfThree(front, l + lb[0], lb[1..]);
    OneOfThree(front, l, []);
    assert front + [l] + [] == la;
  }

  lemma OneOfThree(a: seq<string>, l: string, b: seq<string>)
    ensures HasHeading(a + [l] + b) <==> HasHeading(a) || IsHeading(l) || HasHeading(b)
  {
    HasHeadingConcat(a + [l], b);
    HasHeadingConcat(a, [l]);
    assert HasHeading([l]) <==> IsHeading(l) by { assert [l][0] == l; }
  }

  lemma OneLineHasNoInner(b: string)
    requires OneLine(b)
    ensures !Inner(b)
  {
    LinesOfOneLine(b);
  }

  lemma QuietHasNone(l: string)
    requires R.Quiet(l)
    ensures !Any(l)
  {
    LinesOfOneLine(l);
  }

  // ----- which printed entries hold a heading

  ghost predicate AnyBreaks(ts: seq<string>) { exists i :: 0 <= i < |ts| && Breaks(ts[i]) }

  ghost predicate ClaimsBreak(invalidates: seq<string>) { exists i :: 0 <= i < |invalidates| && Breaks(Trim(invalidates[i])) }

  /** A title, a tag or a trimmed claim with a line break that a heading follows. */
  ghost predicate Broken(e: R.Entry) { Breaks(e.title) || AnyBreaks(e.surface) || ClaimsBreak(e.invalidates) }

  predicate EndsFirm(a: string) { a != "" && a[|a| - 1] != '#' && a[|a| - 1] != '\n' }

  lemma {:induction false} TagsHold(a: string, surface: seq<string>)
    requires EndsFirm(a)
    ensures EndsFirm(a + R.Tags(surface))
    ensures Any(a + R.Tags(surface)) <==> Any(a) || AnyBreaks(surface)
    decreases |surface|
  {
    if surface == [] {
      assert a + "" == a;
    } else {
      var n := |surface| - 1;
      var front, tag := a + R.Tags(surface[..n]), surface[n];
      TagsHold(a, surface[..n]);
      OneTag(front, tag);
      TagsLast(a, surface);
      MoreBreaks(surface);
    }
  }

  lemma TagsLast(a: string, surface: seq<string>)
    requires surface != []
    ensures var n := |surface| - 1;
      a + R.Tags(surface) == a + R.Tags(surface[..n]) + " `" + surface[n] + "`"
  {
    var n := |surface| - 1;
    Regroup(a, R.Tags(surface[..n]), " `", surface[n], "`");
  }

  lemma Regroup(a: string, b: string, c: string, d: string, e: string)
    ensures a + (b + c + d + e) == a + b + c + d + e
  {
  }

  lemma OneTag(front: string, tag: string)
    requires EndsFirm(front)
    ensures EndsFirm(front + " `" + tag + "`")
    ensures Any(front + " `" + tag + "`") <==> Any(front) || Breaks(tag)
  {
    assert OneLine(" `") && OneLine("`");
    OneLineHasNoInner(" `");
    OneLineHasNoInner("`");
    InnerIsBreaks(tag);
    SeamHeading(front, " `");
    SeamHeading(front + " `", tag);
    SeamHeading(front + " `" + tag, "`");
  }

  lemma MoreBreaks(surface: seq<string>)
    requires surface != []
    ensures AnyBreaks(surface) <==> AnyBreaks(surface[..|surface| - 1]) || Breaks(surface[|surface| - 1])
  {
    var front := surface[..|surface| - 1];
    if i :| 0 <= i < |front| && Breaks(front[i]) {
      assert Breaks(surface[i]);
    }
    if i :| 0 <= i < |surface| && Breaks(surface[i]) {
      assert i < |front| ==> Breaks(front[i]);
    }
  }

  lemma TitleHolds(title: string, pr: nat)
    ensures var a := "- **" + title + ("**" + R.Link(pr));
      EndsFirm(a) && (Any(a) <==> Breaks(title))
  {
    var start, b := "- **", "**" + R.Link(pr);
    LinkIsOneLine(pr);
    assert OneLine(start) && R.Quiet(start) by { R.QuietStart(start); }
    QuietHasNone(start);
    OneLineHasNoInner(b);
    InnerIsBreaks(title);
    SeamHeading(start, title);
    SeamHeading(start + title, b);
  }

  lemma LinkIsOneLine(pr: nat)
    ensures OneLine("**" + R.Link(pr)) && EndsFirm(R.Link(pr))
  {
    assert OneLine(R.Link(pr)) && R.Link(pr)[|R.Link(pr)| - 1] == ')';
  }

  /** A printed headline holds a heading exactly when its title or one of its tags breaks. */
  lemma HeadlineHolds(e: R.Entry)
    ensures Any(R.Headline(e)) <==> Breaks(e.title) || AnyBreaks(e.surface)
  {
    var a := "- **" + e.title + ("**" + R.Link(e.pr));
    TitleHolds(e.title, e.pr);
    SurfaceHolds(a, e.surface);
    HeadlineParts(e, a);
  }

  lemma HeadlineParts(e: R.Entry, a: string)
    requires a == "- **" + e.title + ("**" + R.Link(e.pr))
    ensures R.Headline(e) == a + (if e.surface == [] then "" else " " + R.DOT + R.Tags(e.surface))
  {
  }

  lemma SurfaceHolds(a: string, surface: seq<string>)
    requires EndsFirm(a)
    ensures Any(a + (if surface == [] then "" else " " + R.DOT + R.Tags(surface))) <==> Any(a) || AnyBreaks(surface)
  {
    if surface == [] {
      assert a + "" == a;
    } else {
      DotHolds(a);
      TagsHold(a + (" " + R.DOT), surface);
      ThreeParts(a, " " + R.DOT, R.Tags(surface));
    }
  }

  lemma ThreeParts(a: string, b: string, c: string)
    ensures a + b + c == a + (b + c)
  {
  }

  lemma DotHolds(a: string)
    requires EndsFirm(a)
    ensures EndsFirm(a + (" " + R.DOT)) && (Any(a + (" " + R.DOT)) <==> Any(a))
  {
    assert OneLine(" " + R.DOT);
    OneLineHasNoInner(" " + R.DOT);
    SeamHeading(a, " " + R.DOT);
  }

  lemma ClaimHolds(s: string)
    ensures Any(R.Claim(s)) <==> Breaks(Trim(s))
  {
    var start := "  - ";
    assert R.Quiet(start) by { R.QuietStart(start); }
    QuietHasNone(start);
    InnerIsBreaks(Trim(s));
    SeamHeading(start, Trim(s));
  }

  // ----- lines of any sort among the printed lines

  ghost predicate HasLine(q: string -> bool, ls: seq<string>) { exists j :: 0 <= j < |ls| && q(ls[j]) }

  lemma HasLineConcat(q: string -> bool, a: seq<string>, b: seq<string>)
    ensures HasLine(q, a + b) <==> HasLine(q, a) || HasLine(q, b)
  {
    if j :| 0 <= j < |b| && q(b[j]) {
      assert (a + b)[|a| + j] == b[j];
    }
    if j :| 0 <= j < |a| && q(a[j]) {
      assert (a + b)[j] == a[j];
    }
  }

  /** A sort of line that no quiet line is of. */
  ghost predicate Loud(q: string -> bool) { forall l :: R.Quiet(l) ==> !q(l) }

  lemma QuietHaveNone(q: string -> bool, ls: seq<string>)
    requires Loud(q) && R.AllQuiet(ls)
    ensures Flat(ls) == ls && !HasLine(q, ls)
  {
    FlatOfLines(ls);
  }

  ghost predicate ClaimsHave(q: string -> bool, invalidates: seq<string>) {
    exists i :: 0 <= i < |invalidates| && HasLine(q, Lines(R.Claim(invalidates[i])))
  }

  /** The printed headline or one of the printed claims has such a line. */
  ghost predicate Has(q: string -> bool, e: R.Entry) { HasLine(q, Lines(R.Headline(e))) || ClaimsHave(q, e.invalidates) }

  lemma {:induction false} ClaimsFlat(q: string -> bool, invalidates: seq<string>)
    ensures HasLine(q, Flat(R.Claims(invalidates))) <==> ClaimsHave(q, invalidates)
  {
    if invalidates != [] {
      var c, rest := R.Claim(invalidates[0]), invalidates[1..];
      ClaimsFlat(q, rest);
      ClaimsCons(q, invalidates);
      assert R.Claims(invalidates)[0] == c && R.Claims(invalidates)[1..] == R.Claims(rest);
      HasLineConcat(q, Lines(c), Flat(R.Claims(rest)));
    }
  }

  lemma ClaimsCons(q: string -> bool, invalidates: seq<string>)
    requires invalidates != []
    ensures ClaimsHave(q, invalidates) <==> HasLine(q, Lines(R.Claim(invalidates[0]))) || ClaimsHave(q, invalidates[1..])
  {
    var rest := invalidates[1..];
    if i :| 0 <= i < |rest| && HasLine(q, Lines(R.Claim(rest[i]))) {
      assert invalidates[i + 1] == rest[i];
    }
    if i :| 0 <= i < |invalidates| && HasLine(q, Lines(R.Claim(invalidates[i]))) {
      assert i > 0 ==> rest[i - 1] == invalidates[i];
    }
  }

  function BodyPart(e: R.Entry): seq<string> {
    if e.body == "" then [] else (if e.invalidates == [] then [] else [""]) + R.BodyLines(Lines(e.body))
  }

  lemma BodyIsQuiet(e: R.Entry)
    ensures R.AllQuiet(BodyPart(e))
  {
    LinesAreOneLine(e.body);
    R.BodyLinesQuiet(Lines(e.body));
    R.ClosingQuiet();
  }

  /** A body has no line but indented ones. */
  lemma InsideHas(q: string -> bool, e: R.Entry)
    requires Loud(q)
    ensures HasLine(q, Flat(R.Inside(e))) <==> ClaimsHave(q, e.invalidates)
  {
    ClaimsFlat(q, e.invalidates);
    BodyIsQuiet(e);
    QuietHaveNone(q, BodyPart(e));
    assert R.Inside(e) == R.Claims(e.invalidates) + BodyPart(e);
    FlatConcat(R.Claims(e.invalidates), BodyPart(e));
    HasLineConcat(q, Flat(R.Claims(e.invalidates)), BodyPart(e));
  }

  lemma QuietAround(q: string -> bool, a: seq<string>, b: seq<string>, c: seq<string>)
    requires Loud(q) && R.AllQuiet(a) && R.AllQuiet(c)
    ensures HasLine(q, Flat(a + b + c)) <==> HasLine(q, Flat(b))
  {
    FlatConcat(a + b, c);
    FlatConcat(a, b);
    QuietHaveNone(q, a);
    QuietHaveNone(q, c);
    HasLineConcat(q, Flat(a) + Flat(b), c);
    HasLineConcat(q, a, Flat(b));
  }

  lemma FoldHas(q: string -> bool, e: R.Entry)
    requires Loud(q)
    ensures HasLine(q, Flat(["", R.Opening(e), ""] + R.Inside(e) + ["", R.CLOSING, ""])) <==> ClaimsHave(q, e.invalidates)
  {
    FoldEndsQuiet(e);
    QuietAround(q, ["", R.Opening(e), ""], R.Inside(e), ["", R.CLOSING, ""]);
    InsideHas(q, e);
  }

  lemma FoldEndsQuiet(e: R.Entry)
    ensures R.AllQuiet(["", R.Opening(e), ""]) && R.AllQuiet(["", R.CLOSING, ""])
  {
    R.OpeningQuiet(e);
    R.ClosingQuiet();
  }

  lemma EntryHas(q: string -> bool, e: R.Entry)
    requires Loud(q)
    ensures HasLine(q, Flat(R.EntryLines(e))) <==> Has(q, e)
  {
    var fold := if R.Folded(e) then ["", R.Opening(e), ""] + R.Inside(e) + ["", R.CLOSING, ""] else [];
    assert R.EntryLines(e) == [R.Headline(e)] + fold;
    FlatConcat([R.Headline(e)], fold);
    FlatOne(R.Headline(e));
    HasLineConcat(q, Lines(R.Headline(e)), Flat(fold));
    FoldHas(q, e);
  }

  ghost predicate SomeHas(q: string -> bool, es: seq<R.Entry>) { exists i :: 0 <= i < |es| && Has(q, es[i]) }

  lemma {:induction false} EntriesHave(q: string -> bool, es: seq<R.Entry>)
    requires Loud(q)
    ensures HasLine(q, Flat(R.Entries(es))) <==> SomeHas(q, es)
    decreases |es|
  {
    if es != [] {
      var n := |es| - 1;
      EntriesHave(q, es[..n]);
      EntryHas(q, es[n]);
      FlatConcat(R.Entries(es[..n]), R.EntryLines(es[n]));
      HasLineConcat(q, Flat(R.Entries(es[..n])), Flat(R.EntryLines(es[n])));
      OneMoreHas(q, es);
    }
  }

  lemma OneMoreHas(q: string -> bool, es: seq<R.Entry>)
    requires es != []
    ensures SomeHas(q, es) <==> SomeHas(q, es[..|es| - 1]) || Has(q, es[|es| - 1])
  {
    var front := es[..|es| - 1];
    if i :| 0 <= i < |front| && Has(q, front[i]) {
      assert Has(q, es[i]);
    }
    if i :| 0 <= i < |es| && Has(q, es[i]) {
      assert i < |front| ==> Has(q, front[i]);
    }
  }

  lemma GroupHas(q: string -> bool, k: nat, g: seq<R.Entry>)
    requires Loud(q) && k < R.KIND_COUNT
    ensures HasLine(q, Flat(R.Group(k, g))) <==> SomeHas(q, g)
  {
    if g != [] {
      R.KindLineQuiet(k);
      R.ClosingQuiet();
      QuietAround(q, ["", R.KindLine(k), ""], R.Entries(g), []);
      assert ["", R.KindLine(k), ""] + R.Entries(g) + [] == R.Group(k, g);
      EntriesHave(q, g);
    }
  }

  /** Some entry of the first n groups has such a line. */
  ghost predicate HasIn(q: string -> bool, groups: seq<seq<R.Entry>>, n: nat)
    requires n <= |groups|
  {
    exists k :: 0 <= k < n && SomeHas(q, groups[k])
  }

  lemma {:induction false} PartsHave(q: string -> bool, parts: seq<seq<string>>, n: nat)
    requires n <= |parts|
    ensures HasLine(q, Flat(R.Concat(parts, n))) <==> exists k :: 0 <= k < n && HasLine(q, Flat(parts[k]))
  {
    if n > 0 {
      PartsHave(q, parts, n - 1);
      FlatConcat(R.Concat(parts, n - 1), parts[n - 1]);
      HasLineConcat(q, Flat(R.Concat(parts, n - 1)), Flat(parts[n - 1]));
    }
  }

  lemma GroupsHave(q: string -> bool, groups: seq<seq<R.Entry>>)
    requires Loud(q) && |groups| == R.KIND_COUNT
    ensures HasLine(q, Lines(Unlines(R.Below(groups)))) <==> HasIn(q, groups, |groups|)
  {
    var parts := R.Parts(groups);
    forall k | 0 <= k < |groups| ensures HasLine(q, Flat(parts[k])) <==> SomeHas(q, groups[k]) {
      GroupHas(q, k, groups[k]);
    }
    PartsHave(q, parts, |groups|);
    LinesOfUnlines(R.Below(groups));
    R.ClosingQuiet();
    HasLineConcat(q, Flat(R.Below(groups)), [""]);
    QuietHaveNone(q, [""]);
  }

  // ----- headings among them

  function AHeading(): string -> bool { l => IsHeading(l) }

  lemma HeadingsAreLoud()
    ensures Loud(AHeading())
  {
  }

  /** The printed lines of an entry have a heading exactly when its title, a tag or a claim breaks into one. */
  lemma EntryHolds(e: R.Entry)
    ensures HasHeading(Flat(R.EntryLines(e))) <==> Broken(e)
  {
    HeadingsAreLoud();
    EntryHas(AHeading(), e);
    BrokenHas(e);
    assert HasHeading(Flat(R.EntryLines(e))) <==> HasLine(AHeading(), Flat(R.EntryLines(e)));
  }

  lemma BrokenHas(e: R.Entry)
    ensures Has(AHeading(), e) <==> Broken(e)
  {
    HeadlineHolds(e);
    forall i | 0 <= i < |e.invalidates|
      ensures HasLine(AHeading(), Lines(R.Claim(e.invalidates[i]))) <==> Breaks(Trim(e.invalidates[i]))
    {
      ClaimHolds(e.invalidates[i]);
    }
  }

  /** Some entry of the groups breaks. */
  ghost predicate BrokenIn(groups: seq<seq<R.Entry>>) {
    exists k, i :: 0 <= k < |groups| && 0 <= i < |groups[k]| && Broken(groups[k][i])
  }

  lemma BrokenHasIn(groups: seq<seq<R.Entry>>)
    ensures HasIn(AHeading(), groups, |groups|) <==> BrokenIn(groups)
  {
    if k, i :| 0 <= k < |groups| && 0 <= i < |groups[k]| && Broken(groups[k][i]) {
      BrokenHas(groups[k][i]);
      assert SomeHas(AHeading(), groups[k]);
    }
    if k :| 0 <= k < |groups| && SomeHas(AHeading(), groups[k]) {
      var i :| 0 <= i < |groups[k]| && Has(AHeading(), groups[k][i]);
      BrokenHas(groups[k][i]);
    }
  }

  // ----- the section in the file

  predicate AllEmpty(ls: seq<string>) { forall i :: 0 <= i < |ls| ==> ls[i] == "" }

  /** Cutting the newlines off a text drops empty lines from its end and no other. */
  lemma {:induction false} TrimmedLines(t: string) returns (blanks: seq<string>)
    ensures AllEmpty(blanks) && Lines(t) == Lines(TrimNewlines(t)) + blanks
    decreases |t|
  {
    if t != "" && t[|t| - 1] == '\n' {
      var n := |t| - 1;
      var more := TrimmedLines(t[..n]);
      assert t == t[..n] + ['\n'];
      LinesSnoc(t[..n], '\n');
      blanks := more + [""];
    } else {
      blanks := [];
    }
  }

  /** The lines of a printed section in the file. */
  function Mine(version: string, date: string, groups: seq<seq<R.Entry>>): seq<string>
    requires |groups| == R.KIND_COUNT
  {
    Lines(TrimNewlines(R.Section(version, date, groups)))
  }

  /** Below its heading they are those of the printed text, but for empty ones at the end. */
  lemma MineIs(version: string, date: string, groups: seq<seq<R.Entry>>) returns (blanks: seq<string>)
    requires OneLine(version) && OneLine(date) && |groups| == R.KIND_COUNT
    ensures AllEmpty(blanks)
    ensures var mine := Mine(version, date, groups);
      |mine| > 0 && mine[0] == R.Heading(version, date) && Lines(Unlines(R.Below(groups))) == mine[1..] + blanks
  {
    var h, u := R.Heading(version, date), Unlines(R.Below(groups));
    HeadingIsOneLine(version, date);
    assert ([h] + R.Below(groups))[1..] == R.Below(groups);
    assert R.Section(version, date, groups) == h + "\n" + u;
    LinesAcrossNewline(h, u);
    LinesOfOneLine(h);
    blanks := TrimmedLines(h + "\n" + u);
    var mine := Mine(version, date, groups);
    WithoutFirst(h, Lines(u), mine, blanks);
  }

  lemma WithoutFirst(h: string, rest: seq<string>, mine: seq<string>, blanks: seq<string>)
    requires |mine| > 0 && [h] + rest == mine + blanks
    ensures mine[0] == h && rest == mine[1..] + blanks
  {
    assert (mine + blanks)[0] == mine[0] && ([h] + rest)[0] == h;
    assert ([h] + rest)[1..] == rest && (mine + blanks)[1..] == mine[1..] + blanks;
  }

  lemma HeadingIsOneLine(version: string, date: string)
    requires OneLine(version) && OneLine(date)
    ensures OneLine(R.Heading(version, date)) && Prefix(version) <= R.Heading(version, date)
  {
    assert OneLine("## ") && OneLine(" " + R.DASH + " ");
    assert R.Heading(version, date) == Prefix(version) + (R.DASH + " " + date);
  }

  lemma MineHolds(version: string, date: string, groups: seq<seq<R.Entry>>)
    requires OneLine(version) && OneLine(date) && |groups| == R.KIND_COUNT
    ensures HasHeading(Mine(version, date, groups)[1..]) <==> BrokenIn(groups)
  {
    HeadingsAreLoud();
    MineHas(AHeading(), version, date, groups);
    BrokenHasIn(groups);
    var mine := Mine(version, date, groups)[1..];
    assert HasHeading(mine) <==> HasLine(AHeading(), mine);
  }

  /** The lines of the section in the file, below its heading, have a line of a sort exactly when an entry has. */
  lemma MineHas(q: string -> bool, version: string, date: string, groups: seq<seq<R.Entry>>)
    requires Loud(q) && OneLine(version) && OneLine(date) && |groups| == R.KIND_COUNT
    ensures |Mine(version, date, groups)| > 0
    ensures HasLine(q, Mine(version, date, groups)[1..]) <==> HasIn(q, groups, |groups|)
  {
    var blanks := MineIs(version, date, groups);
    GroupsHave(q, groups);
    R.ClosingQuiet();
    assert R.AllQuiet(blanks);
    QuietHaveNone(q, blanks);
    HasLineConcat(q, Mine(version, date, groups)[1..], blanks);
  }

  // ----- how much ink a text holds

  function Ink(s: string): nat { if s == "" then 0 else (if IsSpace(s[0]) then 0 else 1) + Ink(s[1..]) }

  lemma {:induction false} InkConcat(a: string, b: string)
    ensures Ink(a + b) == Ink(a) + Ink(b)
  {
    if a == "" {
      assert a + b == b;
    } else {
      InkConcat(a[1..], b);
      assert (a + b)[1..] == a[1..] + b;
    }
  }

  lemma {:induction false} InkLeft(s: string)
    ensures Ink(TrimLeft(s)) == Ink(s)
  {
    if s != "" && IsSpace(s[0]) {
      InkLeft(s[1..]);
    }
  }

  lemma {:induction false} InkRight(s: string)
    ensures Ink(TrimRight(s)) == Ink(s)
  {
    if s != "" && IsSpace(s[|s| - 1]) {
      var n := |s| - 1;
      InkRight(s[..n]);
      assert s == s[..n] + [s[n]];
      InkConcat(s[..n], [s[n]]);
      assert [s[n]][1..] == "" && Ink([s[n]][1..]) == 0;
    }
  }

  /** Trimming loses no ink. */
  lemma InkTrim(s: string)
    ensures Ink(Trim(s)) == Ink(s)
  {
    InkLeft(s);
    InkRight(TrimLeft(s));
  }

  lemma HeadingHasInk(l: string)
    requires IsHeading(l)
    ensures Ink(l) > 0
  {
    assert l[0] == "## "[0];
  }

  lemma InkOfPart(ls: seq<string>, k: nat)
    requires k < |ls| && IsHeading(ls[k])
    ensures Ink(Unlines(ls[..k])) < Ink(Unlines(ls))
  {
    var rest := ls[k..];
    assert ls == ls[..k] + rest;
    UnlinesConcat(ls[..k], rest);
    InkConcat(Unlines(ls[..k]), Unlines(rest));
    InkOfFirst(rest);
  }

  lemma InkOfFirst(ls: seq<string>)
    requires ls != [] && IsHeading(ls[0])
    ensures Ink(Unlines(ls)) > 0
  {
    HeadingHasInk(ls[0]);
    var rest := "\n" + Unlines(ls[1..]);
    assert Unlines(ls) == ls[0] + rest;
    InkConcat(ls[0], rest);
  }

  // ----- reading it back

  /** Everything: the section's lines below its heading, and the text before the next heading. */
  function Whole(mine: seq<string>, beneath: seq<string>): string
    requires |mine| > 0
  {
    Trim(Unlines(mine[1..] + [""] + UpTo(beneath)))
  }

  lemma FirstHeading(ls: seq<string>) returns (k: nat)
    requires HasHeading(ls)
    ensures k < |ls| && IsHeading(ls[k]) && forall j :: 0 <= j < k ==> !IsHeading(ls[j])
  {
    k := 0;
    while !IsHeading(ls[k])
      invariant k < |ls| && forall j :: 0 <= j < k ==> !IsHeading(ls[j])
      decreases |ls| - k
    {
      k := k + 1;
    }
  }

  lemma NoHeadingReadsOn(ls: seq<string>, beneath: seq<string>)
    requires !HasHeading(ls)
    ensures UpTo(ls + ([""] + beneath)) == ls + [""] + UpTo(beneath)
  {
    UpToRuns(ls, [""] + beneath);
    UpToRuns([""], beneath);
    assert ls + ([""] + UpTo(beneath)) == ls + [""] + UpTo(beneath);
  }

  lemma HeadingLosesInk(ls: seq<string>, beneath: seq<string>)
    requires HasHeading(ls)
    ensures Trim(Unlines(UpTo(ls + ([""] + beneath)))) != Trim(Unlines(ls + [""] + UpTo(beneath)))
  {
    var k := FirstHeading(ls);
    var all := ls + [""] + UpTo(beneath);
    UpToStops(ls, [""] + beneath, k);
    assert all[..k] == ls[..k] && all[k] == ls[k];
    InkOfPart(all, k);
    InkTrim(Unlines(ls[..k]));
    InkTrim(Unlines(all));
  }

  /** Any section that opens with the tag's heading reads back whole exactly when no other line of it is
      a heading. */
  lemma WholeExactlyWithoutHeadings(c: string, at: nat, section: string, tag: string)
    requires EndsLine(c, at) && NoneStart(Above(c, at), Prefix(tag))
    requires Prefix(tag) <= Lines(TrimNewlines(section))[0]
    ensures var mine := Lines(TrimNewlines(section));
      SectionOf(PutAt(c, at, section), tag) == Some(Whole(mine, Beneath(c, at))) <==> !HasHeading(mine[1..])
  {
    var rest := Lines(TrimNewlines(section))[1..];
    ReadAfterInsert(c, at, section, tag);
    if HasHeading(rest) {
      HeadingLosesInk(rest, Beneath(c, at));
    } else {
      NoHeadingReadsOn(rest, Beneath(c, at));
    }
  }

  /** With nothing but white space before the next heading, everything is the printed text itself. */
  lemma WholeIsThePrint(version: string, date: string, groups: seq<seq<R.Entry>>, beneath: seq<string>)
    requires OneLine(version) && OneLine(date) && |groups| == R.KIND_COUNT && AllSpace(Unlines(UpTo(beneath)))
    ensures |Mine(version, date, groups)| > 0
    ensures Whole(Mine(version, date, groups), beneath) == Trim(Unlines(R.Below(groups)))
  {
    var blanks := MineIs(version, date, groups);
    var rest, u := Mine(version, date, groups)[1..], Unlines(R.Below(groups));
    JoinLines(u);
    UnlinesIsJoin(rest + blanks);
    UnlinesConcat(rest, blanks);
    EmptyIsSpace(blanks);
    TrimDropsTail(Unlines(rest), Unlines(blanks));
    TrimDropsTail(u, "\n");
    UnlinesConcat(rest + [""], UpTo(beneath));
    R.UnlinesSnoc(rest, "");
    TrimGap(Unlines(rest), Unlines(UpTo(beneath)));
  }

  lemma {:induction false} EmptyIsSpace(ls: seq<string>)
    requires AllEmpty(ls)
    ensures AllSpace(Unlines(ls))
  {
    if ls != [] {
      EmptyIsSpace(ls[1..]);
    }
  }

  lemma TrimGap(s: string, w: string)
    requires AllSpace(w)
    ensures Trim(s + "" + "\n" + w) == Trim(s)
  {
    var tail := "\n" + w;
    assert s + "" + "\n" + w == s + tail;
    TrimDropsTail(s, tail);
  }

  /** The version reads back as the whole printed section and the text before the next heading. */
  predicate ReadsWhole(c: string, at: nat, version: string, date: string, groups: seq<seq<R.Entry>>)
    requires EndsLine(c, at) && |groups| == R.KIND_COUNT && |Mine(version, date, groups)| > 0
  {
    SectionOf(PutAt(c, at, R.Section(version, date, groups)), version)
    == Some(Whole(Mine(version, date, groups), Beneath(c, at)))
  }

  /** Printed groups, under a version and a date of one line: the version reads back whole exactly when no
      entry has a title, a tag or a claim with a line break that a heading follows. */
  lemma ReadsBackExactlyWhenUnbroken(c: string, at: nat, version: string, date: string, groups: seq<seq<R.Entry>>)
    requires EndsLine(c, at) && NoneStart(Above(c, at), Prefix(version))
    requires OneLine(version) && OneLine(date) && |groups| == R.KIND_COUNT
    ensures |Mine(version, date, groups)| > 0
    ensures ReadsWhole(c, at, version, date, groups) <==> !BrokenIn(groups)
  {
    HeadingIsOneLine(version, date);
    var blanks := MineIs(version, date, groups);
    MineHolds(version, date, groups);
    WholeExactlyWithoutHeadings(c, at, R.Section(version, date, groups), version);
  }

  /** A line that opens the section of a tag. */
  function Opener(tag: string): string -> bool { l => Prefix(tag) <= l }

  lemma OpenersAreLoud(tag: string)
    ensures Loud(Opener(tag))
  {
    forall l | R.Quiet(l) ensures !Opener(tag)(l) {
      PrefixIsHeading(tag, l);
    }
  }

  lemma {:induction false} FromFinds(ls: seq<string>, tag: string)
    ensures From(ls, Prefix(tag)).Some? <==> HasLine(Opener(tag), ls)
  {
    if ls != [] {
      FromFinds(ls[1..], tag);
      HasLineConcat(Opener(tag), [ls[0]], ls[1..]);
      assert [ls[0]] + ls[1..] == ls;
      assert HasLine(Opener(tag), [ls[0]]) <==> Opener(tag)(ls[0]) by { assert [ls[0]][0] == ls[0]; }
    }
  }

  /** A section with such a line among its own is one the version is found in. */
  lemma OpenerIsFound(c: string, at: nat, section: string, tag: string)
    requires EndsLine(c, at) && HasLine(Opener(tag), Lines(TrimNewlines(section)))
    ensures SectionOf(PutAt(c, at, section), tag).Some?
  {
    var q, mine, rest := Opener(tag), Lines(TrimNewlines(section)), [""] + Beneath(c, at);
    LinesAfterInsert(c, at, section);
    HasLineConcat(q, mine, rest);
    HasLineConcat(q, [""], mine + rest);
    HasLineConcat(q, Above(c, at), [""] + (mine + rest));
    FromFinds(Lines(PutAt(c, at, section)), tag);
  }

  /** Every other version's section reads as before, unless the headline or a claim of an entry has a line that
      opens just that version's section; then the version is found in the file whether it was there or not. */
  lemma OtherVersionsReadAsBefore(c: string, at: nat, version: string, date: string, groups: seq<seq<R.Entry>>, tag: string)
    requires EndsLine(c, at) && NoneStart(Above(c, at), Prefix(tag))
    requires OneLine(version) && OneLine(date) && |groups| == R.KIND_COUNT
    requires version != tag && ' ' !in version && ' ' !in tag
    ensures !HasIn(Opener(tag), groups, |groups|) ==>
      SectionOf(PutAt(c, at, R.Section(version, date, groups)), tag) == SectionOf(c, tag)
    ensures HasIn(Opener(tag), groups, |groups|) ==> SectionOf(PutAt(c, at, R.Section(version, date, groups)), tag).Some?
    ensures !BrokenIn(groups) ==> !HasIn(Opener(tag), groups, |groups|)
  {
    OpenersAreLoud(tag);
    MineHas(Opener(tag), version, date, groups);
    MineHolds(version, date, groups);
    TagsApart(version, date, tag);
    var blanks := MineIs(version, date, groups);
    var mine := Mine(version, date, groups);
    if !HasIn(Opener(tag), groups, |groups|) {
      forall k | 0 <= k < |mine| ensures !(Prefix(tag) <= mine[k]) {
        assert k > 0 ==> mine[k] == mine[1..][k - 1] && !Opener(tag)(mine[1..][k - 1]);
      }
      OtherSectionsReadAsBefore(c, at, R.Section(version, date, groups), tag);
    } else {
      OpenerIsHeading(tag, mine[1..]);
      HasLineConcat(Opener(tag), [mine[0]], mine[1..]);
      assert [mine[0]] + mine[1..] == mine;
      OpenerIsFound(c, at, R.Section(version, date, groups), tag);
    }
  }

  lemma OpenerIsHeading(tag: string, ls: seq<string>)
    requires HasLine(Opener(tag), ls)
    ensures HasHeading(ls)
  {
    var j :| 0 <= j < |ls| && Opener(tag)(ls[j]);
    PrefixIsHeading(tag, ls[j]);
  }

  // ----- the roll-up, from the entries to the file

  /** A kind the printer knows. */
  predicate Listed(kind: string) { exists k :: 0 <= k < R.KIND_COUNT && R.Key(k) == kind }

  ghost predicate ListedBroken(es: seq<R.Entry>) { exists i :: 0 <= i < |es| && Listed(es[i].kind) && Broken(es[i]) }

  lemma SameMembers(es: seq<R.Entry>, key: string, g: seq<R.Entry>, e: R.Entry)
    requires multiset(g) == multiset(Sorting.Filter(es, R.HasKind(key)))
    ensures e in g <==> e in es && e.kind == key
  {
    Sorting.FilterMembers(es, R.HasKind(key));
    assert e in g <==> e in multiset(g);
    assert e in Sorting.Filter(es, R.HasKind(key)) <==> e in multiset(Sorting.Filter(es, R.HasKind(key)));
  }

  /** The groups hold the entries of the listed kinds and no others. */
  lemma GroupedBreaks(es: seq<R.Entry>, groups: seq<seq<R.Entry>>)
    requires |groups| == R.KIND_COUNT && R.Grouped(es, groups, |groups|)
    ensures BrokenIn(groups) <==> ListedBroken(es)
  {
    if k, i :| 0 <= k < |groups| && 0 <= i < |groups[k]| && Broken(groups[k][i]) {
      SameMembers(es, R.Key(k), groups[k], groups[k][i]);
      var j :| 0 <= j < |es| && es[j] == groups[k][i];
      assert Listed(es[j].kind) && Broken(es[j]);
    }
    if i :| 0 <= i < |es| && Listed(es[i].kind) && Broken(es[i]) {
      var k :| 0 <= k < R.KIND_COUNT && R.Key(k) == es[i].kind;
      SameMembers(es, R.Key(k), groups[k], es[i]);
      var j :| 0 <= j < |groups[k]| && groups[k][j] == es[i];
      assert Broken(groups[k][j]);
    }
  }

  /** What a roll-up leaves in the file: the entries printed in some order of the ties, at the marker; and
      what its version then reads as. */
  ghost predicate RolledUp(c: string, at: nat, version: string, date: string, es: seq<R.Entry>, groups: seq<seq<R.Entry>>, next: string) {
    && at <= |c| && |groups| == R.KIND_COUNT && R.Grouped(es, groups, |groups|)
    && next == PutAt(c, at, R.Section(version, date, groups))
    && (Ready(c, at, version, date) ==> ReadsAsPrinted(c, at, version, date, es, groups, next))
  }

  ghost predicate InTheFile(c: string, at: nat, version: string, date: string, es: seq<R.Entry>, next: string) {
    exists groups :: RolledUp(c, at, version, date, es, groups, next)
  }

  /** The marker ends its line, no section of the version stands above it, and version and date are lines. */
  predicate Ready(c: string, at: nat, version: string, date: string) {
    EndsLine(c, at) && NoneStart(Above(c, at), Prefix(version)) && OneLine(version) && OneLine(date)
  }

  ghost predicate ReadsAsPrinted(c: string, at: nat, version: string, date: string, es: seq<R.Entry>, groups: seq<seq<R.Entry>>, next: string)
    requires EndsLine(c, at) && |groups| == R.KIND_COUNT
  {
    && |Mine(version, date, groups)| > 0
    && (SectionOf(next, version) == Some(Whole(Mine(version, date, groups), Beneath(c, at))) <==> !ListedBroken(es))
    && (AllSpace(Unlines(UpTo(Beneath(c, at)))) ==> (
      SectionOf(next, version) == Some(Trim(Unlines(R.Below(groups)))) <==> !ListedBroken(es)))
  }

  lemma RollsUp(c: string, at: nat, version: string, date: string, es: seq<R.Entry>, groups: seq<seq<R.Entry>>)
    requires at <= |c| && |groups| == R.KIND_COUNT && R.Grouped(es, groups, |groups|)
    ensures RolledUp(c, at, version, date, es, groups, PutAt(c, at, R.Section(version, date, groups)))
  {
    if Ready(c, at, version, date) {
      GroupedBreaks(es, groups);
      ReadsBackExactlyWhenUnbroken(c, at, version, date, groups);
      if AllSpace(Unlines(UpTo(Beneath(c, at)))) {
        WholeIsThePrint(version, date, groups, Beneath(c, at));
      }
    }
  }

  /** Print, and insert at the marker: refused exactly without entries or without a marker. The version then
      reads back as exactly what was printed if and only if no entry has a title, a tag or a claim with a
      line break that a heading follows. */
  method RollUp(c: string, version: string, date: string, es: seq<R.Entry>) returns (next: Option<string>)
    ensures next.None? <==> es == [] || forall k: nat :: !Here(c, MARKER, k)
    ensures next.Some? ==> IndexOf(c, MARKER).Some? && InTheFile(c, IndexOf(c, MARKER).value + |MARKER|, version, date, es, next.value)
  {
    if es == [] {
      return None;
    }
    var text, groups := R.Render(version, date, es);
    next := Insert(c, text);
    if next.Some? {
      RollsUp(c, IndexOf(c, MARKER).value + |MARKER|, version, date, es, groups);
    }
  }

  // ----- an entry that does not come back

  const CUT := R.Entry("added", "a\n## b", 1, [], [], "")

  function CutLines(version: string, date: string): seq<string> {
    [R.Heading(version, date), "", R.KindLine(0), "", "- **a", "## b**" + R.Link(1)]
  }

  lemma CutPrints(version: string, date: string)
    requires OneLine(version) && OneLine(date)
    ensures Mine(version, date, [[CUT], [], [], [], [], []]) == CutLines(version, date)
  {
    var groups := [[CUT], [], [], [], [], []];
    var ls := CutLines(version, date);
    CutText(version, date);
    HeadingIsOneLine(version, date);
    LinkIsOneLine(1);
    R.KindLineQuiet(0);
    assert OneLine("## b**" + R.Link(1)) && OneLine("- **a");
    TrimUnlines(ls);
    assert Bare(ls) == ls;
  }

  lemma {:induction false} OnlyFirstPart(parts: seq<seq<string>>, n: nat)
    requires 0 < n <= |parts| && forall k :: 0 < k < |parts| ==> parts[k] == []
    ensures R.Concat(parts, n) == parts[0]
  {
    if n > 1 {
      OnlyFirstPart(parts, n - 1);
    } else {
      assert R.Concat(parts, n - 1) == [];
    }
  }

  lemma CutHeadline()
    ensures R.EntryLines(CUT) == [R.Headline(CUT)]
    ensures R.Headline(CUT) == "- **a" + "\n" + ("## b**" + R.Link(1))
  {
  }

  lemma CutText(version: string, date: string)
    ensures R.Section(version, date, [[CUT], [], [], [], [], []]) == Unlines(CutLines(version, date))
  {
    var groups := [[CUT], [], [], [], [], []];
    OnlyFirstPart(R.Parts(groups), |groups|);
    CutHeadline();
    var h := R.Headline(CUT);
    assert [CUT][..0] == [] && R.Entries([CUT]) == R.Entries([CUT][..0]) + R.EntryLines(CUT);
    assert R.Below(groups) == ["", R.KindLine(0), ""] + [h];
    SplitLast([R.Heading(version, date), "", R.KindLine(0), ""], "- **a", "## b**" + R.Link(1));
    assert [R.Heading(version, date)] + R.Below(groups) == [R.Heading(version, date), "", R.KindLine(0), ""] + [h];
    assert CutLines(version, date) == [R.Heading(version, date), "", R.KindLine(0), ""] + ["- **a", "## b**" + R.Link(1)];
  }

  /** A piece with a line break prints as two lines. */
  lemma SplitLast(front: seq<string>, a: string, b: string)
    ensures Unlines(front + [a + "\n" + b]) == Unlines(front + [a, b])
  {
    R.UnlinesSnoc(front, a + "\n" + b);
    R.UnlinesSnoc(front, a);
    R.UnlinesSnoc(front + [a], b);
    assert front + [a] + [b] == front + [a, b];
    assert Unlines(front) + (a + "\n" + b) + "\n" == Unlines(front) + a + "\n" + b + "\n";
  }

  /** A title that breaks: its section goes into the file, and only what stands before the break is read. */
  lemma ABrokenTitleCutsTheRead(c: string, at: nat, version: string, date: string)
    requires Ready(c, at, version, date)
    ensures SectionOf(PutAt(c, at, R.Section(version, date, [[CUT], [], [], [], [], []])), version)
        == Some("### Added\n\n- **a")
  {
    var groups := [[CUT], [], [], [], [], []];
    var ls := CutLines(version, date);
    CutPrints(version, date);
    HeadingIsOneLine(version, date);
    CutStopsAtFive(version, date);
    InnerHeadingCutsTheRead(c, at, R.Section(version, date, groups), version, 5);
    CutReads(ls);
  }

  lemma CutStopsAtFive(version: string, date: string)
    ensures var ls := CutLines(version, date);
      IsHeading(ls[5]) && forall j :: 1 <= j < 5 ==> !IsHeading(ls[j])
  {
    R.KindLineQuiet(0);
    R.QuietStart("");
    R.QuietStart("- **a");
  }

  lemma CutReads(ls: seq<string>)
    requires |ls| == 6 && ls[1..5] == ["", R.KindLine(0), "", "- **a"]
    ensures Trim(Unlines(ls[1..5])) == "### Added\n\n- **a"
  {
    R.UnlinesThree("", R.KindLine(0), "");
    R.UnlinesSnoc(["", R.KindLine(0), ""], "- **a");
    assert ["", R.KindLine(0), ""] + ["- **a"] == ls[1..5];
    CutTrims("### Added\n\n- **a");
  }

  lemma CutTrims(text: string)
    requires text == R.KindLine(0) + "\n\n- **a"
    ensures Trim("" + "\n" + R.KindLine(0) + "\n" + "" + "\n" + "- **a" + "\n") == text
  {
    assert "" + "\n" + R.KindLine(0) + "\n" + "" + "\n" + "- **a" + "\n" == "\n" + (text + "\n");
    TrimDropsHead("\n", text + "\n");
    TrimDropsTail(text, "\n");
    assert text[0] == '#' && text[|text| - 1] == 'a';
    TrimOfTrimmed(text);
  }
}
