/**
 Printing one version's section of the changelog: a line for each change, its claims one fold away.

   ## version - date                          Heading
   (blank)
   ### Kind                                   KindLine, for each kind that has entries
   (blank)
   - **title** - [#number](link) · `tag`      Headline, for each entry of the kind
   (blank)
     <details><summary>...</summary>          Opening, when there is anything to fold
   ...                                        Inside: the claims, and the body indented
     </details>                               CLOSING
 */
module Rendering {
  import opened Text
  import Sorting

  datatype Entry = Entry(kind: string, title: string, pr: nat, surface: seq<string>, invalidates: seq<string>, body: string)

  const KINDS := [
    ("added", "Added"), ("changed", "Changed"), ("renamed", "Renamed"),
    ("fixed", "Fixed"), ("removed", "Removed"), ("internal", "Internal")]

  const KIND_COUNT: nat := 6

  function Key(k: nat): string
    requires k < KIND_COUNT
  {
    KINDS[k].0
  }

  function Title(k: nat): string
    requires k < KIND_COUNT
  {
    KINDS[k].1
  }

  const REPO := "https://github.com/Agent-Field/codeaf"

  const DASH := "\U{2014}"

  const DOT := "\U{B7}"

  function Decimal(n: nat): (s: string)
    ensures s != "" && OneLine(s)
  {
    var digit := [('0' as int + n % 10) as char];
    if n < 10 then digit else Decimal(n / 10) + digit
  }

  function Tags(surface: seq<string>): string {
    if surface == [] then ""
    else Tags(surface[..|surface| - 1]) + " `" + surface[|surface| - 1] + "`"
  }

  function Link(pr: nat): string { " " + DASH + " [#" + Decimal(pr) + "](" + REPO + "/pull/" + Decimal(pr) + ")" }

  function Headline(e: Entry): string {
    "- **" + e.title + "**" + Link(e.pr) + (if e.surface == [] then "" else " " + DOT + Tags(e.surface))
  }

  predicate Folded(e: Entry) { e.invalidates != [] || e.body != "" }

  function Summary(e: Entry): string {
    if e.invalidates == [] then "why"
    else
      Decimal(|e.invalidates|) + " "
      + (if |e.invalidates| == 1 then "thing that is no longer true" else "things that are no longer true")
  }

  function Opening(e: Entry): string { "  <details><summary>" + Summary(e) + "</summary>" }

  const CLOSING := "  </details>"

  function Claim(s: string): string { "  - " + Trim(s) }

  function Claims(invalidates: seq<string>): seq<string> {
    seq(|invalidates|, i requires 0 <= i < |invalidates| => Claim(invalidates[i]))
  }

  function BodyLine(l: string): string { if l == "" then "" else "  " + l }

  function BodyLines(ls: seq<string>): seq<string> {
    seq(|ls|, i requires 0 <= i < |ls| => BodyLine(ls[i]))
  }

  /** What stands inside the fold. */
  function Inside(e: Entry): seq<string> {
    Claims(e.invalidates)
    + (if e.body == "" then [] else (if e.invalidates == [] then [] else [""]) + BodyLines(Lines(e.body)))
  }

  function EntryLines(e: Entry): seq<string> {
    [Headline(e)] + (if Folded(e) then ["", Opening(e), ""] + Inside(e) + ["", CLOSING, ""] else [])
  }

  function Entries(es: seq<Entry>): seq<string> {
    if es == [] then [] else Entries(es[..|es| - 1]) + EntryLines(es[|es| - 1])
  }

  function KindLine(k: nat): string
    requires k < KIND_COUNT
  {
    "### " + Title(k)
  }

  function Group(k: nat, g: seq<Entry>): seq<string>
    requires k < KIND_COUNT
  {
    if g == [] then [] else ["", KindLine(k), ""] + Entries(g)
  }

  function Parts(groups: seq<seq<Entry>>): seq<seq<string>>
    requires |groups| <= KIND_COUNT
  {
    seq(|groups|, k requires 0 <= k < |groups| => Group(k, groups[k]))
  }

  /** The first n parts, one after another. */
  function Concat(parts: seq<seq<string>>, n: nat): seq<string>
    requires n <= |parts|
  {
    if n == 0 then [] else Concat(parts, n - 1) + parts[n - 1]
  }

  /** The groups of the first n kinds. */
  function Groups(groups: seq<seq<Entry>>, n: nat): seq<string>
    requires n <= |groups| <= KIND_COUNT
  {
    Concat(Parts(groups), n)
  }

  function Heading(version: string, date: string): string { "## " + version + " " + DASH + " " + date }

  /** The lines of a section below its heading. */
  function Below(groups: seq<seq<Entry>>): seq<string>
    requires |groups| == KIND_COUNT
  {
    Groups(groups, |groups|)
  }

  function Section(version: string, date: string, groups: seq<seq<Entry>>): string
    requires |groups| == KIND_COUNT
  {
    Unlines([Heading(version, date)] + Below(groups))
  }

  // ----- the printer

  lemma UnlinesSnoc(ls: seq<string>, l: string)
    ensures Unlines(ls + [l]) == Unlines(ls) + l + "\n"
  {
    UnlinesConcat(ls, [l]);
    assert Unlines([l]) == l + "\n" + Unlines([]);
  }

  method PrintHeadline(e: Entry) returns (b: string)
    ensures b == Headline(e) + "\n"
  {
    b := "- **" + e.title + "**" + Link(e.pr);
    if |e.surface| > 0 {
      var tags := "";
      for i := 0 to |e.surface|
        invariant tags == Tags(e.surface[..i])
      {
        assert e.surface[..i + 1][..i] == e.surface[..i];
        tags := tags + " `" + e.surface[i] + "`";
      }
      assert e.surface[..|e.surface|] == e.surface;
      b := b + (" " + DOT + tags);
    }
    b := b + "\n";
  }

  method PrintClaims(invalidates: seq<string>) returns (b: string)
    ensures b == Unlines(Claims(invalidates))
  {
    b := "";
    for i := 0 to |invalidates|
      invariant b == Unlines(Claims(invalidates[..i]))
    {
      assert Claims(invalidates[..i + 1]) == Claims(invalidates[..i]) + [Claim(invalidates[i])];
      UnlinesSnoc(Claims(invalidates[..i]), Claim(invalidates[i]));
      b := b + Claim(invalidates[i]) + "\n";
    }
    assert invalidates[..|invalidates|] == invalidates;
  }

  method PrintBody(body: string) returns (b: string)
    ensures b == Unlines(BodyLines(Lines(body)))
  {
    b := "";
    var lines := Lines(body);
    for i := 0 to |lines|
      invariant b == Unlines(BodyLines(lines[..i]))
    {
      assert BodyLines(lines[..i + 1]) == BodyLines(lines[..i]) + [BodyLine(lines[i])];
      UnlinesSnoc(BodyLines(lines[..i]), BodyLine(lines[i]));
      if lines[i] == "" {
        b := b + "" + "\n";
        continue;
      }
      b := b + ("  " + lines[i]) + "\n";
    }
    assert lines[..|lines|] == lines;
  }

  /** The inside of a fold, claims first. */
  method PrintInside(e: Entry) returns (b: string)
    ensures b == Unlines(Inside(e))
  {
    b := PrintClaims(e.invalidates);
    if e.body != "" {
      var body := PrintBody(e.body);
      var gap := if |e.invalidates| > 0 then [""] else [];
      UnlinesConcat(gap, BodyLines(Lines(e.body)));
      UnlinesConcat(Claims(e.invalidates), gap + BodyLines(Lines(e.body)));
      if |e.invalidates| > 0 {
        b := b + "\n";
      }
      b := b + body;
    } else {
      assert Inside(e) == Claims(e.invalidates);
    }
  }

  lemma UnlinesThree(a: string, b: string, c: string)
    ensures Unlines([a, b, c]) == a + "\n" + b + "\n" + c + "\n"
  {
    assert [a, b, c][1..] == [b, c] && [b, c][1..] == [c];
    UnlinesSnoc([], c);
    assert [] + [c] == [c];
  }

  lemma FoldText(h: string, o: string, inside: seq<string>, c: string)
    ensures var fold := ["", o, ""] + inside + ["", c, ""];
      Unlines([h] + fold) == h + "\n" + ("\n" + o + "\n" + "\n" + Unlines(inside) + "\n" + c + "\n" + "\n")
  {
    var fold := ["", o, ""] + inside + ["", c, ""];
    UnlinesThree("", o, "");
    UnlinesThree("", c, "");
    UnlinesConcat(["", o, ""] + inside, ["", c, ""]);
    UnlinesConcat(["", o, ""], inside);
    assert ([h] + fold)[1..] == fold;
  }

  method PrintEntry(e: Entry) returns (b: string)
    ensures b == Unlines(EntryLines(e))
  {
    b := PrintHeadline(e);
    if |e.invalidates| == 0 && e.body == "" {
      assert EntryLines(e) == [] + [Headline(e)];
      UnlinesSnoc([], Headline(e));
      return;
    }
    var inside := PrintInside(e);
    b := PrintFold(Headline(e), Opening(e), inside, Inside(e));
  }

  method PrintFold(headline: string, opening: string, inside: string, ghost lines: seq<string>) returns (b: string)
    requires inside == Unlines(lines)
    ensures b == Unlines([headline] + (["", opening, ""] + lines + ["", CLOSING, ""]))
  {
    b := headline + "\n" + ("\n" + opening + "\n" + "\n" + inside + "\n" + CLOSING + "\n" + "\n");
    FoldText(headline, opening, lines, CLOSING);
  }

  // ----- the whole section

  function HasKind(key: string): Entry -> bool { (e: Entry) => e.kind == key }

  function ByPR(): Entry -> real { (e: Entry) => e.pr as real }

  /** Group k holds the entries of kind k, each as often as given, by number; ties in any order. Entries
      of a kind that is not listed are printed nowhere. */
  ghost predicate Grouped(es: seq<Entry>, groups: seq<seq<Entry>>, n: nat) {
    && n <= |groups| <= KIND_COUNT
    && forall k :: 0 <= k < n ==> GroupOf(es, Key(k), groups[k])
  }

  ghost predicate GroupOf(es: seq<Entry>, key: string, g: seq<Entry>) {
    multiset(g) == multiset(Sorting.Filter(es, HasKind(key))) && Sorting.Sorted(g, ByPR())
  }

  function Of(byKind: map<string, seq<Entry>>, key: string): seq<Entry> {
    if key in byKind then byKind[key] else []
  }

  ghost predicate Listed(byKind: map<string, seq<Entry>>, es: seq<Entry>) {
    forall key :: Of(byKind, key) == Sorting.Filter(es, HasKind(key))
  }

  method GroupByKind(es: seq<Entry>) returns (byKind: map<string, seq<Entry>>)
    ensures Listed(byKind, es)
  {
    byKind := map[];
    for i := 0 to |es|
      invariant forall key :: Of(byKind, key) == Sorting.Filter(es[..i], HasKind(key))
    {
      var e := es[i];
      assert es[..i + 1] == es[..i] + [e];
      forall key ensures Of(byKind[e.kind := Of(byKind, e.kind) + [e]], key) == Sorting.Filter(es[..i + 1], HasKind(key)) {
        Sorting.FilterSnoc(es[..i], e, HasKind(key));
      }
      byKind := byKind[e.kind := Of(byKind, e.kind) + [e]];
    }
    assert es[..|es|] == es;
  }

  method PrintEntries(g: seq<Entry>) returns (b: string)
    ensures b == Unlines(Entries(g))
  {
    b := "";
    for i := 0 to |g|
      invariant b == Unlines(Entries(g[..i]))
    {
      assert g[..i + 1][..i] == g[..i];
      var entry := PrintEntry(g[i]);
      UnlinesConcat(Entries(g[..i]), EntryLines(g[i]));
      b := b + entry;
    }
    assert g[..|g|] == g;
  }

  method PrintGroup(k: nat, g: seq<Entry>) returns (b: string)
    requires k < KIND_COUNT
    ensures b == Unlines(Group(k, g))
  {
    if g == [] {
      return "";
    }
    b := PrintEntries(g);
    b := "\n" + KindLine(k) + "\n" + "\n" + b;
    UnlinesThree("", KindLine(k), "");
    UnlinesConcat(["", KindLine(k), ""], Entries(g));
  }

  method PrintKind(ghost es: seq<Entry>, byKind: map<string, seq<Entry>>, k: nat, groups: seq<seq<Entry>>, body: string)
    returns (text: string, r: seq<seq<Entry>>)
    requires Listed(byKind, es) && k < |groups| && Grouped(es, groups, k) && body == Unlines(Groups(groups, k))
    ensures |r| == |groups| && Grouped(es, r, k + 1) && text == Unlines(Groups(r, k + 1))
  {
    var g := Sorting.SortUnstably(Of(byKind, Key(k)), ByPR());
    text := PrintGroup(k, g);
    GroupedStep(es, groups, k, g);
    OneMoreGroup(groups, k, g);
    UnlinesConcat(Groups(groups, k), Group(k, g));
    r := groups[k := g];
    text := body + text;
  }

  lemma GroupedStep(es: seq<Entry>, groups: seq<seq<Entry>>, k: nat, g: seq<Entry>)
    requires k < |groups| && Grouped(es, groups, k) && GroupOf(es, Key(k), g)
    ensures Grouped(es, groups[k := g], k + 1)
  {
  }

  lemma OneMoreGroup(groups: seq<seq<Entry>>, k: nat, g: seq<Entry>)
    requires k < |groups| <= KIND_COUNT
    ensures Groups(groups[k := g], k + 1) == Groups(groups, k) + Group(k, g)
  {
    SameParts(Parts(groups), Parts(groups[k := g]), k);
  }

  method PrintGroups(ghost es: seq<Entry>, byKind: map<string, seq<Entry>>) returns (body: string, groups: seq<seq<Entry>>)
    requires Listed(byKind, es)
    ensures |groups| == KIND_COUNT && Grouped(es, groups, |groups|)
    ensures body == Unlines(Groups(groups, |groups|))
  {
    groups := seq(KIND_COUNT, _ => []);
    body := "";
    for k := 0 to |groups|
      invariant |groups| == KIND_COUNT
      invariant Grouped(es, groups, k)
      invariant body == Unlines(Groups(groups, k))
    {
      body, groups := PrintKind(es, byKind, k, groups, body);
    }
  }

  method Render(version: string, date: string, es: seq<Entry>) returns (b: string, groups: seq<seq<Entry>>)
    ensures |groups| == KIND_COUNT && Grouped(es, groups, |groups|)
    ensures b == Section(version, date, groups)
  {
    var byKind := GroupByKind(es);
    var body;
    body, groups := PrintGroups(es, byKind);
    b := Heading(version, date) + "\n" + body;
    assert ([Heading(version, date)] + Below(groups))[1..] == Below(groups);
  }

  lemma {:induction false} SameParts(a: seq<seq<string>>, b: seq<seq<string>>, n: nat)
    requires n <= |a| == |b| && forall k :: 0 <= k < n ==> a[k] == b[k]
    ensures Concat(a, n) == Concat(b, n)
  {
    if n > 0 {
      SameParts(a, b, n - 1);
    }
  }

  // ----- what the printed lines look like

  /** An entry whose title, tags and claims are single lines. */
  predicate Plain(e: Entry) {
    && OneLine(e.title) && AllOneLine(e.surface)
    && forall i :: 0 <= i < |e.invalidates| ==> OneLine(Trim(e.invalidates[i]))
  }

  predicate AllPlain(es: seq<Entry>) { forall i :: 0 <= i < |es| ==> Plain(es[i]) }

  /** One line, and not the heading of a section. */
  predicate Quiet(l: string) { OneLine(l) && !("## " <= l) }

  predicate AllQuiet(ls: seq<string>) { forall i :: 0 <= i < |ls| ==> Quiet(ls[i]) }

  lemma {:induction false} TagsOneLine(surface: seq<string>)
    requires AllOneLine(surface)
    ensures OneLine(Tags(surface))
  {
    if surface != [] {
      TagsOneLine(surface[..|surface| - 1]);
    }
  }

  lemma OneLineConcat(a: string, b: string)
    requires OneLine(a) && OneLine(b)
    ensures OneLine(a + b)
  {
  }

  lemma HeadingStart(l: string)
    requires "## " <= l
    ensures l != "" && l[0] == '#'
  {
    assert l[0] == "## "[0];
  }

  lemma QuietStart(l: string)
    requires OneLine(l) && (l == "" || l[0] != '#')
    ensures Quiet(l)
  {
    if "## " <= l {
      HeadingStart(l);
    }
  }

  lemma HeadlineIsOneLine(e: Entry)
    requires OneLine(e.title) && AllOneLine(e.surface)
    ensures OneLine(Headline(e))
  {
    TagsOneLine(e.surface);
    var tags := if e.surface == [] then "" else " " + DOT + Tags(e.surface);
    OneLineConcat("- **", e.title);
    OneLineConcat("- **" + e.title + "**", Link(e.pr));
    OneLineConcat("- **" + e.title + "**" + Link(e.pr), tags);
  }

  lemma HeadlineQuiet(e: Entry)
    requires Plain(e)
    ensures Quiet(Headline(e)) && Headline(e)[0] == '-'
  {
    HeadlineIsOneLine(e);
    QuietStart(Headline(e));
  }

  lemma ClaimQuiet(s: string)
    requires OneLine(Trim(s))
    ensures Quiet(Claim(s))
  {
    OneLineConcat("  - ", Trim(s));
    QuietStart(Claim(s));
  }

  lemma BodyLineQuiet(l: string)
    requires OneLine(l)
    ensures Quiet(BodyLine(l))
  {
    OneLineConcat("  ", l);
    QuietStart(BodyLine(l));
  }

  lemma ClaimsQuiet(invalidates: seq<string>)
    requires forall i :: 0 <= i < |invalidates| ==> OneLine(Trim(invalidates[i]))
    ensures AllQuiet(Claims(invalidates))
  {
    forall i | 0 <= i < |invalidates| ensures Quiet(Claims(invalidates)[i]) {
      ClaimQuiet(invalidates[i]);
    }
  }

  lemma BodyLinesQuiet(ls: seq<string>)
    requires AllOneLine(ls)
    ensures AllQuiet(BodyLines(ls))
  {
    forall i | 0 <= i < |ls| ensures Quiet(BodyLines(ls)[i]) {
      BodyLineQuiet(ls[i]);
    }
  }

  lemma InsideQuiet(e: Entry)
    requires Plain(e)
    ensures AllQuiet(Inside(e))
  {
    ClaimsQuiet(e.invalidates);
    QuietStart("");
    if e.body != "" {
      LinesAreOneLine(e.body);
      BodyLinesQuiet(Lines(e.body));
    }
  }

  lemma OpeningQuiet(e: Entry)
    ensures Quiet(Opening(e))
  {
    var start, end := "  <details><summary>", "</summary>";
    assert OneLine(start) && OneLine(end) && OneLine(Summary(e));
    OneLineConcat(start, Summary(e));
    OneLineConcat(start + Summary(e), end);
    assert Opening(e) == start + Summary(e) + end;
    QuietStart(Opening(e));
  }

  lemma ClosingQuiet()
    ensures Quiet(CLOSING) && Quiet("")
  {
    QuietStart(CLOSING);
    QuietStart("");
  }

  lemma FoldQuiet(opening: string, inside: seq<string>, closing: string)
    requires Quiet("") && Quiet(opening) && AllQuiet(inside) && Quiet(closing)
    ensures AllQuiet(["", opening, ""] + inside + ["", closing, ""])
  {
  }

  lemma EntryQuiet(e: Entry)
    requires Plain(e)
    ensures AllQuiet(EntryLines(e))
  {
    HeadlineQuiet(e);
    InsideQuiet(e);
    OpeningQuiet(e);
    ClosingQuiet();
    FoldQuiet(Opening(e), Inside(e), CLOSING);
  }

  lemma {:induction false} EntriesQuiet(es: seq<Entry>)
    requires AllPlain(es)
    ensures AllQuiet(Entries(es))
  {
    if es != [] {
      EntriesQuiet(es[..|es| - 1]);
      EntryQuiet(es[|es| - 1]);
    }
  }

  predicate PlainGroups(groups: seq<seq<Entry>>) { forall k :: 0 <= k < |groups| ==> AllPlain(groups[k]) }

  lemma AllQuietConcat(a: seq<string>, b: seq<string>)
    requires AllQuiet(a) && AllQuiet(b)
    ensures AllQuiet(a + b)
  {
  }

  lemma {:induction false} PartsQuiet(parts: seq<seq<string>>, n: nat)
    requires n <= |parts| && forall k :: 0 <= k < n ==> AllQuiet(parts[k])
    ensures AllQuiet(Concat(parts, n))
  {
    if n > 0 {
      PartsQuiet(parts, n - 1);
      AllQuietConcat(Concat(parts, n - 1), parts[n - 1]);
    }
  }

  lemma GroupsQuiet(groups: seq<seq<Entry>>, n: nat)
    requires n <= |groups| <= KIND_COUNT && PlainGroups(groups)
    ensures AllQuiet(Groups(groups, n))
  {
    forall k | 0 <= k < n ensures AllQuiet(Parts(groups)[k]) {
      assert AllPlain(groups[k]);
      GroupQuiet(k, groups[k]);
    }
    PartsQuiet(Parts(groups), n);
  }

  lemma GroupQuiet(k: nat, g: seq<Entry>)
    requires k < KIND_COUNT && AllPlain(g)
    ensures AllQuiet(Group(k, g))
  {
    if g != [] {
      EntriesQuiet(g);
      KindLineQuiet(k);
    }
  }

  lemma KindLineQuiet(k: nat)
    requires k < KIND_COUNT
    ensures Quiet(KindLine(k))
  {
    assert OneLine(Title(k));
    assert KindLine(k)[2] == '#';
  }
}
