/** A release page from a changelog section: whole, or folds removed, or cut at a line. */
module ReleaseNotes {
  import opened Text
  import R = Rendering
  import C = ChangelogFile
  import opened Wrappers

  // ----- taking the folds out

  predicate Opens(l: string) { "<details>" <= Trim(l) }

  predicate Closes(l: string) { "</details>" <= Trim(l) }

  predicate Blank(l: string) { Trim(l) == "" }

  /** Inside a fold after line l. */
  predicate FoldNext(inFold: bool, l: string) { (inFold || Opens(l)) && !Closes(l) }

  function Keep(out: seq<string>, l: string): seq<string> {
    if Blank(l) && out != [] && out[|out| - 1] == "" then out else out + [l]
  }

  function StripNext(out: seq<string>, inFold: bool, l: string): seq<string> {
    if inFold || Opens(l) then out else Keep(out, l)
  }

  function StripFrom(out: seq<string>, inFold: bool, ls: seq<string>): seq<string>
    decreases |ls|
  {
    if ls == [] then out else StripFrom(StripNext(out, inFold, ls[0]), FoldNext(inFold, ls[0]), ls[1..])
  }

  function StripLines(ls: seq<string>): seq<string> { StripFrom([], false, ls) }

  function FoldsStripped(section: string): string { Trim(Join(StripLines(Lines(section)))) }

  method StripFolds(section: string) returns (r: string)
    ensures r == FoldsStripped(section)
  {
    var out: seq<string>, inFold := [], false;
    var lines := Lines(section);
    assert lines[0..] == lines;
    for i := 0 to |lines|
      invariant StripFrom(out, inFold, lines[i..]) == StripLines(lines)
    {
      assert lines[i..][1..] == lines[i + 1..];
      var trimmed := Trim(lines[i]);
      if "<details>" <= trimmed {
        inFold := true;
      }
      if inFold {
        if "</details>" <= trimmed {
          inFold := false;
        }
        continue;
      }
      if trimmed == "" && |out| > 0 && out[|out| - 1] == "" {
        continue;
      }
      out := out + [lines[i]];
    }
    assert lines[|lines|..] == [];
    return Trim(Join(out));
  }

  // ----- doing it twice is doing it once

  /** No fold opens, and no blank line directly follows an empty one, from line n on. */
  predicate CleanFrom(ls: seq<string>, n: nat) {
    && AllOneLine(ls)
    && (forall k :: 0 <= k < |ls| ==> !Opens(ls[k]))
    && (forall k :: n < k < |ls| && Blank(ls[k]) ==> ls[k - 1] != "")
  }

  predicate Clean(ls: seq<string>) { CleanFrom(ls, 0) }

  lemma {:induction false} StripKeepsClean(out: seq<string>, inFold: bool, ls: seq<string>)
    requires Clean(out) && AllOneLine(ls)
    ensures Clean(StripFrom(out, inFold, ls))
    decreases |ls|
  {
    if ls != [] {
      assert Clean(StripNext(out, inFold, ls[0]));
      StripKeepsClean(StripNext(out, inFold, ls[0]), FoldNext(inFold, ls[0]), ls[1..]);
    }
  }

  lemma {:induction false} StripOfClean(out: seq<string>, ls: seq<string>)
    requires Clean(out + ls)
    ensures StripFrom(out, false, ls) == out + ls
    decreases |ls|
  {
    if ls == [] {
      assert out + ls == out;
    } else {
      var all := out + ls;
      assert all[|out|] == ls[0];
      assert |out| > 0 ==> all[|out| - 1] == out[|out| - 1];
      assert out + [ls[0]] + ls[1..] == all;
      StripOfClean(out + [ls[0]], ls[1..]);
    }
  }

  lemma CleanWithoutFirst(l: string, rest: seq<string>)
    requires CleanFrom([l] + rest, 1)
    ensures CleanFrom(rest, 1)
  {
    var ls := [l] + rest;
    assert forall k :: 0 <= k < |rest| ==> ls[k + 1] == rest[k];
  }

  lemma CleanFirst(a: string, b: string, rest: seq<string>)
    requires CleanFrom([a] + rest, 1) && Trim(a) == Trim(b) && OneLine(b)
    ensures CleanFrom([b] + rest, 1)
  {
    var ls, m := [a] + rest, [b] + rest;
    assert forall k :: 1 <= k < |m| ==> m[k] == ls[k];
    assert !Opens(ls[0]);
  }

  /** Taking a white character off the front of a text: all lines but the first two stay as clean. */
  lemma FrontStep(s: string)
    requires s != "" && IsSpace(s[0]) && CleanFrom(Lines(s), 1)
    ensures CleanFrom(Lines(s[1..]), 1)
  {
    var rest := Lines(s[1..]);
    LinesAreOneLine(s[1..]);
    if s[0] == '\n' {
      CleanWithoutFirst("", rest);
    } else {
      TrimConsSpace(s[0], rest[0]);
      CleanFirst([s[0]] + rest[0], rest[0], rest[1..]);
      assert [rest[0]] + rest[1..] == rest;
    }
  }

  lemma {:induction false} FrontKeepsClean(s: string)
    requires CleanFrom(Lines(s), 1)
    ensures CleanFrom(Lines(TrimLeft(s)), 1)
  {
    if s != "" && IsSpace(s[0]) {
      FrontStep(s);
      FrontKeepsClean(s[1..]);
    }
  }

  lemma CleanWithoutLast(ls: seq<string>, l: string)
    requires Clean(ls + [l])
    ensures Clean(ls)
  {
    var more := ls + [l];
    assert forall k :: 0 <= k < |ls| ==> more[k] == ls[k];
  }

  lemma CleanLast(front: seq<string>, a: string, b: string)
    requires Clean(front + [a]) && Trim(a) == Trim(b) && OneLine(b)
    ensures Clean(front + [b])
  {
    var n := |front|;
    var ls, m := front + [a], front + [b];
    assert forall k :: 0 <= k < n ==> m[k] == ls[k];
    assert !Opens(ls[n]) && (n > 0 && Blank(ls[n]) ==> ls[n - 1] != "");
  }

  lemma BackStep(s: string, c: char)
    requires IsSpace(c) && Clean(Lines(s + [c]))
    ensures Clean(Lines(s))
  {
    LinesSnoc(s, c);
    LinesAreOneLine(s);
    var ls := Lines(s);
    var n := |ls| - 1;
    if c == '\n' {
      CleanWithoutLast(ls, "");
    } else {
      TrimSnocSpace(ls[n], c);
      CleanLast(ls[..n], ls[n] + [c], ls[n]);
      assert ls[..n] + [ls[n]] == ls;
    }
  }

  lemma {:induction false} BackKeepsClean(s: string)
    requires Clean(Lines(s))
    ensures Clean(Lines(TrimRight(s)))
  {
    if s != "" && IsSpace(s[|s| - 1]) {
      var n := |s| - 1;
      assert s == s[..n] + [s[n]];
      BackStep(s[..n], s[n]);
      BackKeepsClean(s[..n]);
    }
  }

  lemma TrimKeepsClean(s: string)
    requires Clean(Lines(s))
    ensures Clean(Lines(Trim(s)))
  {
    FrontKeepsClean(s);
    var t := TrimLeft(s);
    TrimLeftStarts(s);
    assert Lines("") == [""];
    BackKeepsClean(t);
  }

  /** Once the folds are out there are none to take out. */
  lemma StrippingTwiceIsStrippingOnce(section: string)
    ensures FoldsStripped(FoldsStripped(section)) == FoldsStripped(section)
    ensures forall k :: 0 <= k < |Lines(FoldsStripped(section))| ==> !Opens(Lines(FoldsStripped(section))[k])
  {
    var out := StripLines(Lines(section));
    LinesAreOneLine(section);
    StripKeepsClean([], false, Lines(section));
    var s := FoldsStripped(section);
    TrimIsTrimmed(Join(out));
    if out == [] {
      assert Clean(Lines(""));
    } else {
      LinesJoin(out);
    }
    TrimKeepsClean(Join(out));
    StripOfClean([], Lines(s));
    assert [] + Lines(s) == Lines(s);
    JoinLines(s);
    TrimOfTrimmed(s);
  }

  // ----- the page

  function Tail(tag: string): string {
    "The whole section, with every fold, is in [CHANGELOG.md](" + R.REPO + "/blob/" + tag + "/CHANGELOG.md)."
  }

  function Ending(tag: string): string { "\n\n" + Tail(tag) + "\n" }

  /** The first n lines fit, and one more would not. */
  predicate CutAt(ls: seq<string>, n: nat, room: int) {
    && n <= |ls|
    && (n > 0 ==> ByteLen(Unlines(ls[..n])) <= room)
    && (n < |ls| ==> ByteLen(Unlines(ls[..n + 1])) > room)
  }

  /** The page for a section: whole, or the headline layer, or the layer cut at a line. */
  ghost predicate PageOf(section: string, tag: string, cap: int, page: string) {
    var layer := FoldsStripped(section);
    if ByteLen(section) <= cap then page == section + "\n"
    else if ByteLen(layer) + 1 + ByteLen(Tail(tag)) <= cap then page == layer + Ending(tag)
    else exists n: nat :: CutAt(Lines(layer), n, cap - ByteLen(Tail(tag)) - 2) && page == CutPage(Lines(layer), n, tag)
  }

  function CutPage(ls: seq<string>, n: nat, tag: string): string
    requires n <= |ls|
  {
    TrimNewlines(Unlines(ls[..n])) + Ending(tag)
  }

  method CutLines(lines: seq<string>, room: int) returns (b: string, n: nat)
    ensures CutAt(lines, n, room) && b == Unlines(lines[..n])
  {
    b, n := "", 0;
    while n < |lines|
      invariant n <= |lines| && b == Unlines(lines[..n])
      invariant n > 0 ==> ByteLen(b) <= room
    {
      OneMoreLine(lines, n);
      if ByteLen(b) + ByteLen(lines[n]) + 1 > room {
        return;
      }
      b := b + lines[n] + "\n";
      n := n + 1;
    }
  }

  lemma OneMoreLine(lines: seq<string>, n: nat)
    requires n < |lines|
    ensures Unlines(lines[..n + 1]) == Unlines(lines[..n]) + lines[n] + "\n"
    ensures ByteLen(Unlines(lines[..n + 1])) == ByteLen(Unlines(lines[..n])) + ByteLen(lines[n]) + 1
  {
    assert lines[..n + 1] == lines[..n] + [lines[n]];
    R.UnlinesSnoc(lines[..n], lines[n]);
    var b := Unlines(lines[..n]);
    ByteLenConcat(b, lines[n]);
    ByteLenConcat(b + lines[n], "\n");
    NewlineIsOneByte();
  }

  lemma NewlineIsOneByte()
    ensures ByteLen("\n") == 1 && ByteLen("\n\n") == 2
  {
    assert "\n"[1..] == "" && "\n\n"[1..] == "\n";
  }

  /** None is the error for a tag without a section. */
  method Notes(changelog: string, tag: string, cap: int) returns (r: Option<string>)
    ensures r.None? <==> C.SectionOf(changelog, tag).None?
    ensures r.Some? ==> PageOf(C.SectionOf(changelog, tag).value, tag, cap, r.value)
  {
    var found := C.Section(changelog, tag);
    if found.None? {
      return None;
    }
    var section := found.value;
    if ByteLen(section) <= cap {
      return Some(section + "\n");
    }
    var headlines := StripFolds(section);
    if ByteLen(headlines) + 1 + ByteLen(Tail(tag)) <= cap {
      return Some(headlines + Ending(tag));
    }
    var b, n := CutLines(Lines(headlines), cap - ByteLen(Tail(tag)) - 2);
    var page := TrimNewlines(b) + Ending(tag);
    assert page == CutPage(Lines(headlines), n, tag);
    return Some(page);
  }

  lemma EndingSize(tag: string)
    ensures ByteLen(Ending(tag)) == ByteLen(Tail(tag)) + 3
  {
    NewlineIsOneByte();
    ByteLenConcat("\n\n", Tail(tag));
    ByteLenConcat("\n\n" + Tail(tag), "\n");
  }

  lemma {:induction false} TrimNewlinesSize(s: string)
    ensures ByteLen(TrimNewlines(s)) <= ByteLen(s)
  {
    if s != "" && s[|s| - 1] == '\n' {
      TrimNewlinesSize(s[..|s| - 1]);
      assert s == s[..|s| - 1] + "\n";
      ByteLenConcat(s[..|s| - 1], "\n");
    }
  }

  /** A cut page is the ending alone when no line fits, and otherwise within the ceiling. */
  lemma CutPageSize(ls: seq<string>, n: nat, tag: string, cap: int)
    requires CutAt(ls, n, cap - ByteLen(Tail(tag)) - 2)
    ensures n == 0 ==> ByteLen(CutPage(ls, n, tag)) == ByteLen(Tail(tag)) + 3
    ensures n > 0 ==> ByteLen(CutPage(ls, n, tag)) <= cap && ByteLen(Tail(tag)) + 3 <= cap
  {
    EndingSize(tag);
    var b := Unlines(ls[..n]);
    ByteLenConcat(TrimNewlines(b), Ending(tag));
    if n > 0 {
      UnlinesIsJoin(ls[..n]);
      C.TrimOneNewline(Join(ls[..n]));
      TrimNewlinesSize(Join(ls[..n]));
      ByteLenConcat(Join(ls[..n]), "\n");
      NewlineIsOneByte();
    } else {
      assert ls[..n] == [];
    }
  }

  /** How far a page may pass the ceiling, and when. It never passes by more than two bytes exactly when
      the section fits or the ceiling leaves the last line room; and it passes at all exactly when the
      section is as long as the ceiling, or the headline layer and the last line come within two of it,
      or the last line alone is too long. */
  lemma PageSize(section: string, tag: string, cap: int, page: string)
    requires PageOf(section, tag, cap, page)
    ensures ByteLen(page) <= cap + 2 <==> ByteLen(section) <= cap || ByteLen(Tail(tag)) + 1 <= cap
    ensures ByteLen(page) > cap <==> PassesTheCeiling(section, tag, cap)
  {
    var layer, tail := FoldsStripped(section), Tail(tag);
    NewlineIsOneByte();
    EndingSize(tag);
    ByteLenConcat(section, "\n");
    ByteLenConcat(layer, Ending(tag));
    if ByteLen(section) > cap && ByteLen(layer) + 1 + ByteLen(tail) > cap {
      var n: nat :| CutAt(Lines(layer), n, cap - ByteLen(tail) - 2) && page == CutPage(Lines(layer), n, tag);
      CutPageSize(Lines(layer), n, tag, cap);
      ByteLenConcat(TrimNewlines(Unlines(Lines(layer)[..n])), Ending(tag));
    }
  }

  predicate PassesTheCeiling(section: string, tag: string, cap: int) {
    var layer, tail := ByteLen(FoldsStripped(section)), ByteLen(Tail(tag));
    if ByteLen(section) <= cap then ByteLen(section) == cap
    else if layer + 1 + tail <= cap then layer + 3 + tail > cap
    else tail + 3 > cap
  }

  lemma OneLineSection(tag: string, date: string, body: string)
    requires OneLine(C.Prefix(tag) + date) && OneLine(body) && Trimmed(body) && !C.IsHeading(body)
    ensures C.SectionOf(C.Prefix(tag) + date + "\n" + body, tag) == Some(body)
  {
    var h := C.Prefix(tag) + date;
    LinesAcrossNewline(h, body);
    LinesOfOneLine(h);
    LinesOfOneLine(body);
    assert ([h] + [body])[1..] == [body] && [body][1..] == [];
    assert C.UpTo([body]) == [body] + C.UpTo([]) == [body];
    R.UnlinesSnoc([], body);
    assert [] + [body] == [body] && Unlines([body]) == body + "\n";
    TrimDropsTail(body, "\n");
    TrimOfTrimmed(body);
  }

  lemma AsLongAsTheCeiling(tag: string, body: string)
    ensures PageOf(body, tag, ByteLen(body), body + "\n") && ByteLen(body + "\n") == ByteLen(body) + 1
  {
    NewlineIsOneByte();
    ByteLenConcat(body, "\n");
  }

  function Long(n: nat): string { seq(n, _ => 'a') }

  lemma {:induction false} LongIsLong(n: nat)
    ensures ByteLen(Long(n)) == n
  {
    if n > 0 {
      assert Long(n)[1..] == Long(n - 1);
      LongIsLong(n - 1);
    }
  }

  /** At every ceiling there is a file whose section is as long as the ceiling, and its page one byte longer. */
  lemma APageOverItsCeiling(tag: string, date: string, cap: nat)
    requires OneLine(tag) && OneLine(date) && 0 < cap
    ensures C.SectionOf(C.Prefix(tag) + date + "\n" + Long(cap), tag) == Some(Long(cap))
    ensures PageOf(Long(cap), tag, cap, Long(cap) + "\n") && ByteLen(Long(cap) + "\n") == cap + 1
  {
    assert OneLine(C.Prefix(tag) + date);
    R.QuietStart(Long(cap));
    OneLineSection(tag, date, Long(cap));
    LongIsLong(cap);
    AsLongAsTheCeiling(tag, Long(cap));
  }

  /** The kept part of a cut page is whole lines from the top of the headline layer. */
  lemma CutKeepsWholeLines(section: string, n: nat)
    requires 0 < n <= |Lines(FoldsStripped(section))| && FoldsStripped(section) != ""
    ensures var ls := Lines(FoldsStripped(section));
      Lines(TrimNewlines(Unlines(ls[..n]))) == C.Bare(ls[..n]) && C.Bare(ls[..n]) <= ls
  {
    var s := FoldsStripped(section);
    var ls := Lines(s);
    TrimIsTrimmed(Join(StripLines(Lines(section))));
    LinesAreOneLine(s);
    C.TrimUnlines(ls[..n]);
    C.BareIsPrefix(ls[..n]);
  }
}
