/**
 The changelog's texts told character by character: what a printed entry, a section, the new file, a section read back
 and a release page hold, without the functions that make them.
 */
module ChangelogTold {
  import opened Text
  import opened Wrappers
  import R = Rendering
  import C = ChangelogFile
  import N = ReleaseNotes
  import Sorting

  // ----- an entry

  /** The number a row of digits stands for. */
  function ValueOf(s: string): int
    decreases |s|
  {
    if s == "" then 0 else 10 * ValueOf(s[..|s| - 1]) + (s[|s| - 1] as int - '0' as int)
  }

  /** A printed number is its number: digits only, and no nought before another digit. */
  lemma {:induction false} NumberReadsBack(n: nat)
    ensures ValueOf(R.Decimal(n)) == n
    ensures forall i :: 0 <= i < |R.Decimal(n)| ==> '0' <= R.Decimal(n)[i] <= '9'
    ensures n > 0 ==> R.Decimal(n)[0] != '0'
  {
    var digit := [('0' as int + n % 10) as char];
    if n < 10 {
      assert digit[..0] == "";
    } else {
      NumberReadsBack(n / 10);
      assert (R.Decimal(n / 10) + digit)[..|R.Decimal(n / 10)|] == R.Decimal(n / 10);
    }
  }

  /** Each tag stands between backticks, in its place among the others. */
  lemma {:induction false} TagStands(surface: seq<string>, i: nat)
    requires i < |surface|
    ensures R.Tags(surface) == R.Tags(surface[..i]) + " `" + surface[i] + "`" + R.Tags(surface[i + 1..])
    decreases |surface|
  {
    var n := |surface| - 1;
    if i == n {
      assert surface[i + 1..] == [];
    } else {
      var front := surface[..n];
      TagStands(front, i);
      assert front[..i] == surface[..i] && surface[i + 1..][..n - 1 - i] == front[i + 1..];
      assert surface[i + 1..][|surface[i + 1..]| - 1] == surface[n];
    }
  }

  /** The line of a change: its title in bold, a dash, its number as a link, and after a dot its tags, if any. */
  lemma HeadlineTold(e: R.Entry)
    ensures var number := R.Decimal(e.pr);
      R.Headline(e) == "- **" + e.title + "**"
        + (" " + "\U{2014}" + " [#" + number + "](" + "https://github.com/Agent-Field/codeaf" + "/pull/" + number + ")")
        + (if e.surface == [] then "" else " " + "\U{B7}" + R.Tags(e.surface))
  {
  }

  /** What the fold calls itself: it counts the claims in words. */
  lemma SummaryTold(e: R.Entry)
    ensures R.Opening(e) == "  <details><summary>" + R.Summary(e) + "</summary>"
    ensures |e.invalidates| == 0 ==> R.Summary(e) == "why"
    ensures |e.invalidates| == 1 ==> R.Summary(e) == "1" + " " + "thing that is no longer true"
    ensures |e.invalidates| > 1 ==> R.Summary(e) == R.Decimal(|e.invalidates|) + " " + "things that are no longer true"
  {
    assert R.Decimal(1) == "1";
  }

  /** The line of a change stands alone when there is nothing to tell. Else it is followed by a fold: between blanks its
      summary, then each claim as an item, a blank between claims and body when there are both, each line of the body
      indented, a blank one left blank, and between blanks the end of the fold. */
  lemma EntryTold(e: R.Entry)
    ensures var ls := R.EntryLines(e);
      var claims, body := |e.invalidates|, if e.body == "" then [] else Lines(e.body);
      var at := 4 + claims + (if claims > 0 && e.body != "" then 1 else 0);
      && ls[0] == R.Headline(e)
      && (claims == 0 && e.body == "" ==> |ls| == 1)
      && (claims > 0 || e.body != "" ==>
          && |ls| == at + |body| + 3
          && ls[2] == R.Opening(e)
          && ls[1] == "" && ls[3] == "" && ls[at + |body|] == "" && ls[at + |body| + 1] == "  </details>" && ls[at + |body| + 2] == ""
          && (claims > 0 && e.body != "" ==> ls[4 + claims] == "")
          && (forall i :: 0 <= i < claims ==> ls[4 + i] == "  - " + Trim(e.invalidates[i]))
          && (forall i :: 0 <= i < |body| ==> ls[at + i] == if body[i] == "" then "" else "  " + body[i]))
  {
    var claims, body := |e.invalidates|, if e.body == "" then [] else Lines(e.body);
    if claims > 0 || e.body != "" {
      InsideTold(e);
      FoldTold(R.Headline(e), R.Opening(e), R.Inside(e), R.CLOSING);
    }
  }

  lemma InsideTold(e: R.Entry)
    ensures var ls := R.Inside(e);
      var claims, body := |e.invalidates|, if e.body == "" then [] else Lines(e.body);
      var at := claims + (if claims > 0 && e.body != "" then 1 else 0);
      && |ls| == at + |body|
      && (claims > 0 && e.body != "" ==> ls[claims] == "")
      && (forall i :: 0 <= i < claims ==> ls[i] == "  - " + Trim(e.invalidates[i]))
      && (forall i :: 0 <= i < |body| ==> ls[at + i] == if body[i] == "" then "" else "  " + body[i])
  {
  }

  lemma FoldTold(headline: string, opening: string, inside: seq<string>, closing: string)
    ensures var ls := [headline] + (["", opening, ""] + inside + ["", closing, ""]);
      && |ls| == |inside| + 7 && ls[0] == headline && ls[1] == "" && ls[2] == opening && ls[3] == ""
      && (forall i :: 0 <= i < |inside| ==> ls[4 + i] == inside[i])
      && ls[4 + |inside|] == "" && ls[5 + |inside|] == closing && ls[6 + |inside|] == ""
  {
  }

  /** The kinds in their order, by the key an entry carries and the word that is printed. */
  lemma KindsTold(k: nat)
    requires k < 6
    ensures R.KIND_COUNT == 6
    ensures R.Key(k) == ["added", "changed", "renamed", "fixed", "removed", "internal"][k]
    ensures R.KindLine(k) == "### " + ["Added", "Changed", "Renamed", "Fixed", "Removed", "Internal"][k]
  {
  }

  /** What is printed under a kind: the entries of that kind, each as often as given and no other, by rising number. */
  lemma GroupsTold(es: seq<R.Entry>, groups: seq<seq<R.Entry>>, k: nat, e: R.Entry)
    requires |groups| == 6 && R.Grouped(es, groups, |groups|) && k < 6
    ensures multiset(groups[k])[e] ==
      if e.kind == ["added", "changed", "renamed", "fixed", "removed", "internal"][k] then multiset(es)[e] else 0
    ensures forall i, j :: 0 <= i < j < |groups[k]| ==> groups[k][i].pr <= groups[k][j].pr
  {
    KindsTold(k);
    assert R.GroupOf(es, R.Key(k), groups[k]);
    KindCounted(es, R.Key(k), e);
    forall i, j | 0 <= i < j < |groups[k]| ensures groups[k][i].pr <= groups[k][j].pr {
      assert R.ByPR()(groups[k][i]) <= R.ByPR()(groups[k][j]);
    }
  }

  lemma {:induction false} KindCounted(es: seq<R.Entry>, key: string, e: R.Entry)
    ensures multiset(Sorting.Filter(es, R.HasKind(key)))[e] == if e.kind == key then multiset(es)[e] else 0
  {
    if es != [] {
      KindCounted(es[1..], key, e);
      assert es == [es[0]] + es[1..];
    }
  }

  /** A section opens with its version and date, and each kind that has entries with its own line between blanks. */
  lemma SectionTold(version: string, date: string, groups: seq<seq<R.Entry>>)
    requires |groups| == R.KIND_COUNT
    ensures R.Section(version, date, groups) == "## " + version + " " + "\U{2014}" + " " + date + "\n" + Unlines(R.Below(groups))
    ensures forall k :: 0 <= k < |groups| && groups[k] != [] ==> ["", R.KindLine(k), ""] <= R.Group(k, groups[k])
    ensures forall k :: 0 <= k < |groups| && groups[k] == [] ==> R.Group(k, groups[k]) == []
  {
    assert ([R.Heading(version, date)] + R.Below(groups))[1..] == R.Below(groups);
  }

  // ----- the file

  /** The new file: the old one up to the end of the first marker, a blank line, the section without the newlines at its
      end, and the rest of the old one. There is none exactly when there is no marker. */
  lemma InsertTold(changelog: string, section: string)
    ensures var marker := "<!-- codeaf-changes inserts new versions directly below this line -->";
      var next := C.Insert(changelog, section);
      && (next.None? <==> forall k: nat :: !C.Here(changelog, marker, k))
      && (next.Some? ==>
          exists k: nat ::
            && C.Here(changelog, marker, k) && (forall j: nat :: j < k ==> !C.Here(changelog, marker, j))
            && next.value == changelog[..k + |marker|] + "\n\n" + TrimNewlines(section) + "\n" + changelog[k + |marker|..])
  {
    assert C.MARKER == "<!-- codeaf-changes inserts new versions directly below this line -->";
    var i := C.IndexOf(changelog, C.MARKER);
    if i.Some? {
      assert C.Here(changelog, C.MARKER, i.value);
    }
  }

  /** What reading a version gives: the lines between its heading, the first line that starts with it and a space, and
      the next line that starts like a heading, trimmed as a whole. */
  lemma ReadingTold(changelog: string, tag: string, i: nat, j: nat)
    requires StandsAt(Lines(changelog), "## " + tag + " ", i, j)
    ensures C.SectionOf(changelog, tag) ==
      if i == |Lines(changelog)| then None else Some(Trim(Unlines(Lines(changelog)[i + 1..j])))
  {
    FromTold(Lines(changelog), C.Prefix(tag), i, j);
  }

  /** The first line that starts this way is line i, and the next heading after it is line j; or there is no such line. */
  predicate StandsAt(ls: seq<string>, start: string, i: nat, j: nat) {
    && i <= |ls| && (forall k :: 0 <= k < i ==> !(start <= ls[k]))
    && (i < |ls| ==>
        && start <= ls[i] && i < j <= |ls|
        && (forall k :: i < k < j ==> !("## " <= ls[k])) && (j < |ls| ==> "## " <= ls[j]))
  }

  lemma FromTold(ls: seq<string>, start: string, i: nat, j: nat)
    requires StandsAt(ls, start, i, j)
    ensures C.From(ls, start) == if i == |ls| then None else Some(ls[i + 1..j])
  {
    C.FromSkips(ls[..i], ls[i..], start);
    assert ls == ls[..i] + ls[i..];
    if i < |ls| {
      UpToTold(ls, i, j);
      assert ls[i..][1..] == ls[i + 1..];
    }
  }

  lemma UpToTold(ls: seq<string>, i: nat, j: nat)
    requires i < j <= |ls| && (forall k :: i < k < j ==> !("## " <= ls[k])) && (j < |ls| ==> "## " <= ls[j])
    ensures C.UpTo(ls[i + 1..]) == ls[i + 1..j]
  {
    assert ls[i + 1..] == ls[i + 1..j] + ls[j..];
    C.UpToRuns(ls[i + 1..j], ls[j..]);
    assert C.UpTo(ls[j..]) == [] && ls[i + 1..j] + [] == ls[i + 1..j];
  }

  // ----- a release page

  /** What is left out of the headline layer: a fold with all it holds, from the line that opens it through the first
      that closes it. */
  lemma FoldIsLeftOut(out: seq<string>, open: string, inside: seq<string>, close: string, rest: seq<string>)
    requires "<details>" <= Trim(open) && !("</details>" <= Trim(open)) && "</details>" <= Trim(close)
    requires forall k :: 0 <= k < |inside| ==> !("</details>" <= Trim(inside[k]))
    ensures N.StripFrom(out, false, [open] + (inside + ([close] + rest))) == N.StripFrom(out, false, rest)
  {
    var back := inside + ([close] + rest);
    assert ([open] + back)[0] == open && ([open] + back)[1..] == back;
    InsideIsLeftOut(out, inside, close, rest);
  }

  lemma {:induction false} InsideIsLeftOut(out: seq<string>, inside: seq<string>, close: string, rest: seq<string>)
    requires "</details>" <= Trim(close) && forall k :: 0 <= k < |inside| ==> !("</details>" <= Trim(inside[k]))
    ensures N.StripFrom(out, true, inside + ([close] + rest)) == N.StripFrom(out, false, rest)
  {
    if inside == [] {
      assert inside + ([close] + rest) == [close] + rest && ([close] + rest)[1..] == rest;
    } else {
      assert (inside + ([close] + rest))[1..] == inside[1..] + ([close] + rest);
      InsideIsLeftOut(out, inside[1..], close, rest);
    }
  }

  /** A line outside a fold that opens none is kept, but for a blank one right behind an empty one. */
  lemma LineOutsideStays(out: seq<string>, l: string, rest: seq<string>)
    requires !("<details>" <= Trim(l))
    ensures N.StripFrom(out, false, [l] + rest) ==
      N.StripFrom(if Trim(l) == "" && out != [] && out[|out| - 1] == "" then out else out + [l], false, rest)
  {
    assert ([l] + rest)[0] == l && ([l] + rest)[1..] == rest;
  }

  /** The page: the section where it fits; else what stays of it, all of its lines or as many as fit, and the line that
      says where the rest is. */
  lemma PageTold(section: string, tag: string, cap: int, page: string)
    requires N.PageOf(section, tag, cap, page)
    ensures var layer := N.FoldsStripped(section);
      var tail := "The whole section, with every fold, is in [CHANGELOG.md](" + "https://github.com/Agent-Field/codeaf" + "/blob/" + tag
        + "/CHANGELOG.md).";
      && (ByteLen(section) <= cap ==> page == section + "\n")
      && (ByteLen(section) > cap && ByteLen(layer) + ByteLen(tail) < cap ==> page == layer + ("\n\n" + tail + "\n"))
      && (ByteLen(section) > cap && ByteLen(layer) + ByteLen(tail) >= cap ==>
          exists n: nat :: n <= |Lines(layer)| && page == TrimNewlines(Unlines(Lines(layer)[..n])) + ("\n\n" + tail + "\n"))
  {
    var layer := N.FoldsStripped(section);
    if ByteLen(section) > cap && ByteLen(layer) + 1 + ByteLen(N.Tail(tag)) > cap {
      var n: nat :| N.CutAt(Lines(layer), n, cap - ByteLen(N.Tail(tag)) - 2) && page == N.CutPage(Lines(layer), n, tag);
      assert n <= |Lines(layer)| && page == TrimNewlines(Unlines(Lines(layer)[..n])) + N.Ending(tag);
    }
  }
}
