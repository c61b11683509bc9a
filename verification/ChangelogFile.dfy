/** The changelog as a file: putting a new section in at the marker, and reading one version back. */
module ChangelogFile {
  import opened Text
  import R = Rendering
  import opened Wrappers

  const MARKER := "<!-- codeaf-changes inserts new versions directly below this line -->"

  // ----- reading one version

  /** The trailing space keeps v0.2.0 from matching v0.2.0-rc.1. */
  function Prefix(tag: string): string { "## " + tag + " " }

  predicate IsHeading(l: string) { "## " <= l }

  /** The lines up to the next heading. */
  function UpTo(ls: seq<string>): seq<string> {
    if ls == [] || IsHeading(ls[0]) then [] else [ls[0]] + UpTo(ls[1..])
  }

  function From(ls: seq<string>, prefix: string): Option<seq<string>> {
    if ls == [] then None
    else if prefix <= ls[0] then Some(UpTo(ls[1..]))
    else From(ls[1..], prefix)
  }

  function SectionText(ls: Option<seq<string>>): Option<string> {
    match ls
    case None => None
    case Some(x) => Some(Trim(Unlines(x)))
  }

  /** None where the program's second result is false. */
  function SectionOf(changelog: string, tag: string): Option<string> {
    SectionText(From(Lines(changelog), Prefix(tag)))
  }

  /** What the loop knows before line i. */
  ghost predicate ReadTo(lines: seq<string>, prefix: string, i: nat, found: bool, b: string) {
    && i <= |lines|
    && var all := From(lines, prefix);
      if found then all.Some? && Unlines(all.value) == b + Unlines(UpTo(lines[i..]))
      else all == From(lines[i..], prefix) && b == ""
  }

  method Section(changelog: string, tag: string) returns (r: Option<string>)
    ensures r == SectionOf(changelog, tag)
  {
    var prefix := Prefix(tag);
    var b, found := "", false;
    var lines := Lines(changelog);
    assert lines[0..] == lines;
    var i := 0;
    while i < |lines|
      invariant ReadTo(lines, prefix, i, found, b)
    {
      if found && IsHeading(lines[i]) {
        break;
      }
      ReadOn(lines, prefix, i, found, b);
      if found {
        b := b + lines[i] + "\n";
      } else if prefix <= lines[i] {
        found := true;
      }
      i := i + 1;
    }
    ReadOut(lines, prefix, i, found, b);
    return if found then Some(Trim(b)) else None;
  }

  lemma ReadOn(lines: seq<string>, prefix: string, i: nat, found: bool, b: string)
    requires i < |lines| && ReadTo(lines, prefix, i, found, b) && !(found && IsHeading(lines[i]))
    ensures found ==> ReadTo(lines, prefix, i + 1, found, b + lines[i] + "\n")
    ensures !found ==> ReadTo(lines, prefix, i + 1, prefix <= lines[i], b)
  {
    assert lines[i..][1..] == lines[i + 1..];
    if found {
      UnlinesStep(lines[i], UpTo(lines[i + 1..]), b);
    }
  }

  lemma ReadOut(lines: seq<string>, prefix: string, i: nat, found: bool, b: string)
    requires ReadTo(lines, prefix, i, found, b) && (i == |lines| || (found && IsHeading(lines[i])))
    ensures SectionText(From(lines, prefix)) == if found then Some(Trim(b)) else None
  {
    if found {
      assert UpTo(lines[i..]) == [];
      assert b + "" == b;
    } else {
      assert lines[i..] == [];
    }
  }

  lemma UnlinesStep(l: string, rest: seq<string>, b: string)
    ensures b + Unlines([l] + rest) == (b + l + "\n") + Unlines(rest)
  {
    assert ([l] + rest)[1..] == rest;
  }

  lemma {:induction false} FromSkips(a: seq<string>, b: seq<string>, prefix: string)
    requires forall k :: 0 <= k < |a| ==> !(prefix <= a[k])
    ensures From(a + b, prefix) == From(b, prefix)
  {
    if a == [] {
      assert a + b == b;
    } else {
      assert (a + b)[1..] == a[1..] + b;
      FromSkips(a[1..], b, prefix);
    }
  }

  lemma {:induction false} UpToRuns(a: seq<string>, b: seq<string>)
    requires forall k :: 0 <= k < |a| ==> !IsHeading(a[k])
    ensures UpTo(a + b) == a + UpTo(b)
  {
    if a == [] {
      assert a + b == b;
    } else {
      assert (a + b)[1..] == a[1..] + b;
      UpToRuns(a[1..], b);
    }
  }

  // ----- inserting at the marker

  predicate Here(s: string, m: string, k: nat) { k + |m| <= |s| && s[k..k + |m|] == m }

  /** The first place m occurs in s. */
  function IndexOf(s: string, m: string): (r: Option<nat>)
    ensures r.Some? ==> Here(s, m, r.value) && forall k: nat :: k < r.value ==> !Here(s, m, k)
    ensures r.None? ==> forall k: nat :: !Here(s, m, k)
  {
    if |s| < |m| then None
    else if Here(s, m, 0) then Some(0)
    else
      var r := IndexOf(s[1..], m);
      assert forall k: nat :: k > 0 ==> Here(s, m, k) == Here(s[1..], m, k - 1) by { HereShifts(s, m); }
      if r.None? then None else Some(r.value + 1)
  }

  lemma SliceShifts(s: string, a: nat, b: nat)
    requires 1 <= a <= b <= |s|
    ensures s[a..b] == s[1..][a - 1..b - 1]
  {
    var x, y := s[a..b], s[1..][a - 1..b - 1];
    assert |x| == |y| && forall i :: 0 <= i < |x| ==> x[i] == y[i];
  }

  lemma HereShifts(s: string, m: string)
    requires 0 < |s|
    ensures forall k: nat :: k > 0 ==> Here(s, m, k) == Here(s[1..], m, k - 1)
  {
    forall k: nat | k > 0 ensures Here(s, m, k) == Here(s[1..], m, k - 1) {
      if k + |m| <= |s| {
        SliceShifts(s, k, k + |m|);
      }
    }
  }

  /** None is the error for a changelog without the marker. */
  function Insert(changelog: string, section: string): Option<string> {
    var i := IndexOf(changelog, MARKER);
    if i.None? then None else Some(PutAt(changelog, i.value + |MARKER|, section))
  }

  function PutAt(c: string, at: nat, section: string): string
    requires at <= |c|
  {
    c[..at] + "\n\n" + TrimNewlines(section) + "\n" + c[at..]
  }

  /** The marker's line ends where the marker does. */
  predicate EndsLine(c: string, at: nat) { at <= |c| && (at == |c| || c[at] == '\n') }

  /** The lines down to the marker, and those below it. */
  function Above(c: string, at: nat): seq<string>
    requires EndsLine(c, at)
  {
    Lines(c[..at])
  }

  function Beneath(c: string, at: nat): seq<string>
    requires EndsLine(c, at)
  {
    if at == |c| then [] else Lines(c[at + 1..])
  }

  lemma LinesAround(c: string, at: nat)
    requires EndsLine(c, at)
    ensures Lines(c) == Above(c, at) + Beneath(c, at)
  {
    if at == |c| {
      assert c[..at] == c;
    } else {
      assert c == c[..at] + "\n" + c[at + 1..];
      LinesAcrossNewline(c[..at], c[at + 1..]);
    }
  }

  /** The new file, line by line: a blank, the section without its trailing newlines, a blank. */
  lemma LinesAfterInsert(c: string, at: nat, section: string)
    requires EndsLine(c, at)
    ensures Lines(PutAt(c, at, section)) ==
      Above(c, at) + ([""] + (Lines(TrimNewlines(section)) + ([""] + Beneath(c, at))))
  {
    ThreeNewlines(c[..at], TrimNewlines(section), c[at..]);
  }

  lemma ThreeNewlines(a: string, b: string, d: string)
    ensures Lines(a + "\n\n" + b + "\n" + d) == Lines(a) + ([""] + (Lines(b) + Lines(d)))
  {
    LinesAcrossNewline(b, d);
    LinesAcrossNewline("", b + "\n" + d);
    LinesOfOneLine("");
    LinesAcrossNewline(a, "" + "\n" + (b + "\n" + d));
    assert a + "\n\n" + b + "\n" + d == a + "\n" + ("" + "\n" + (b + "\n" + d));
  }

  // ----- reading back what was put in

  function Bare(ls: seq<string>): seq<string> {
    if ls != [] && ls[|ls| - 1] == "" then Bare(ls[..|ls| - 1]) else ls
  }

  lemma {:induction false} JoinEnds(ls: seq<string>)
    requires |ls| > 0 && ls[|ls| - 1] != ""
    ensures var l := ls[|ls| - 1];
      Join(ls) != "" && Join(ls)[|Join(ls)| - 1] == l[|l| - 1]
  {
    if |ls| > 1 {
      JoinEnds(ls[1..]);
    }
  }

  lemma TrimOneNewline(s: string)
    ensures TrimNewlines(s + "\n") == TrimNewlines(s)
  {
    assert (s + "\n")[..|s|] == s;
  }

  /** Cutting the newlines off the end of a text drops its blank last lines. */
  lemma {:induction false} TrimUnlines(ls: seq<string>)
    requires AllOneLine(ls) && |ls| > 0 && ls[0] != ""
    ensures Lines(TrimNewlines(Unlines(ls))) == Bare(ls)
  {
    var n := |ls| - 1;
    if ls[n] == "" {
      assert ls == ls[..n] + [""];
      R.UnlinesSnoc(ls[..n], "");
      assert Unlines(ls[..n]) + "" + "\n" == Unlines(ls[..n]) + "\n";
      TrimOneNewline(Unlines(ls[..n]));
      TrimUnlines(ls[..n]);
    } else {
      UnlinesIsJoin(ls);
      JoinEnds(ls);
      TrimOneNewline(Join(ls));
      LinesJoin(ls);
    }
  }

  predicate NoneStart(ls: seq<string>, prefix: string) { forall k :: 0 <= k < |ls| ==> !(prefix <= ls[k]) }

  /** For any section at all that opens with the tag's heading: reading the tag back from the new file
      gives the section's lines, and the lines after it, up to the first heading there is. */
  lemma ReadAfterInsert(c: string, at: nat, section: string, tag: string)
    requires EndsLine(c, at) && NoneStart(Above(c, at), Prefix(tag))
    requires Prefix(tag) <= Lines(TrimNewlines(section))[0]
    ensures SectionOf(PutAt(c, at, section), tag) ==
      Some(Trim(Unlines(UpTo(Lines(TrimNewlines(section))[1..] + ([""] + Beneath(c, at))))))
  {
    LinesAfterInsert(c, at, section);
    var mine := Lines(TrimNewlines(section));
    var rest := mine + ([""] + Beneath(c, at));
    FromSkips(Above(c, at), [""] + rest, Prefix(tag));
    FromSkips([""], rest, Prefix(tag));
    assert rest[1..] == mine[1..] + ([""] + Beneath(c, at));
  }

  lemma {:induction false} BareIsPrefix(ls: seq<string>)
    ensures |Bare(ls)| <= |ls| && Bare(ls) == ls[..|Bare(ls)|]
  {
    if ls != [] && ls[|ls| - 1] == "" {
      BareIsPrefix(ls[..|ls| - 1]);
    }
  }

  lemma UpToStops(ls: seq<string>, rest: seq<string>, k: nat)
    requires k < |ls| && IsHeading(ls[k]) && forall j :: 0 <= j < k ==> !IsHeading(ls[j])
    ensures UpTo(ls + rest) == ls[..k]
  {
    var after := ls[k..] + rest;
    assert ls + rest == ls[..k] + after;
    assert after[0] == ls[k] && UpTo(after) == [];
    UpToRuns(ls[..k], after);
    assert ls[..k] + [] == ls[..k];
  }

  /** At the first line of a section that looks like a heading, reading stops. */
  lemma InnerHeadingCutsTheRead(c: string, at: nat, section: string, tag: string, k: nat)
    requires EndsLine(c, at) && NoneStart(Above(c, at), Prefix(tag))
    requires var mine := Lines(TrimNewlines(section));
      && Prefix(tag) <= mine[0] && 1 <= k < |mine| && IsHeading(mine[k])
      && forall j :: 1 <= j < k ==> !IsHeading(mine[j])
    ensures SectionOf(PutAt(c, at, section), tag) == Some(Trim(Unlines(Lines(TrimNewlines(section))[1..k])))
  {
    ReadAfterInsert(c, at, section, tag);
    var mine := Lines(TrimNewlines(section));
    UpToStops(mine[1..], [""] + Beneath(c, at), k - 1);
    assert mine[1..][..k - 1] == mine[1..k];
  }

  lemma TagsApart(version: string, date: string, tag: string)
    requires version != tag && ' ' !in version && ' ' !in tag
    ensures !(Prefix(tag) <= R.Heading(version, date))
  {
    var h := R.Heading(version, date);
    if Prefix(tag) <= h {
      TagsMeet(version, date, tag);
    }
  }

  lemma TagsMeet(version: string, date: string, tag: string)
    requires ' ' !in version && ' ' !in tag && Prefix(tag) <= R.Heading(version, date)
    ensures version == tag
  {
    var h, p := R.Heading(version, date), Prefix(tag);
    assert h[3..] == version + " " + (R.DASH + " " + date);
    assert p[3..] == tag + " ";
    assert h[3..] == tag + " " + h[|p|..];
    SameUntilSpace(version, tag, R.DASH + " " + date, h[|p|..]);
  }

  lemma SameUntilSpace(a: string, b: string, x: string, y: string)
    requires ' ' !in a && ' ' !in b && a + " " + x == b + " " + y
    ensures a == b
  {
    var s, t := a + " " + x, b + " " + y;
    assert forall k :: 0 <= k < |a| ==> s[k] == a[k];
    assert forall k :: 0 <= k < |b| ==> t[k] == b[k];
    assert s[|a|] == ' ' && t[|b|] == ' ';
    assert |a| == |b|;
    assert a == s[..|a|] && b == t[..|b|];
  }

  /** Whatever section goes in: a tag that heads none of its lines, nor any above the marker, reads as
      before, whether it has a section below the marker or is nowhere. */
  lemma OtherSectionsReadAsBefore(c: string, at: nat, section: string, tag: string)
    requires EndsLine(c, at) && NoneStart(Above(c, at), Prefix(tag))
    requires NoneStart(Lines(TrimNewlines(section)), Prefix(tag))
    ensures SectionOf(PutAt(c, at, section), tag) == SectionOf(c, tag)
  {
    LinesAround(c, at);
    LinesAfterInsert(c, at, section);
    var mine := Lines(TrimNewlines(section));
    FromSkips(Above(c, at), Beneath(c, at), Prefix(tag));
    FromSkips([""], Beneath(c, at), Prefix(tag));
    FromSkips(mine, [""] + Beneath(c, at), Prefix(tag));
    FromSkips([""], mine + ([""] + Beneath(c, at)), Prefix(tag));
    FromSkips(Above(c, at), [""] + (mine + ([""] + Beneath(c, at))), Prefix(tag));
  }

  lemma PrefixIsHeading(tag: string, l: string)
    ensures Prefix(tag) <= l ==> IsHeading(l)
  {
    assert "## " <= Prefix(tag);
  }
}
