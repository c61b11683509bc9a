/**
 Licence texts printed as fenced code blocks, and a reader that follows section 4.5 (fenced code
 blocks) and section 2.1 (lines and line endings) of CommonMark 0.31.2 for fences made of backticks.
 */
module Notices {

  const TICK := '`'

  // ----- the printer

  predicate AllTicks(s: string) { forall i :: 0 <= i < |s| ==> s[i] == TICK }

  /** n backticks in a row start at i. */
  predicate RunAt(s: string, i: nat, n: nat) { i + n <= |s| && AllTicks(s[i..i + n]) }

  ghost predicate HasRun(s: string, n: nat) { exists i: nat :: RunAt(s, i, n) }

  /** The run that a text ends with is exactly this long. */
  predicate EndsInRun(s: string, n: nat) {
    n <= |s| && AllTicks(s[|s| - n..]) && (n < |s| ==> s[|s| - n - 1] != TICK)
  }

  function Ticks(n: nat): string { seq(n, _ => TICK) }

  lemma RunWithin(s: string, c: char, i: nat, n: nat)
    requires RunAt(s + [c], i, n) && i + n <= |s|
    ensures HasRun(s, n)
  {
    assert (s + [c])[i..i + n] == s[i..i + n];
    assert RunAt(s, i, n);
  }

  lemma RunGrows(s: string, c: char, n: nat)
    requires HasRun(s + [c], n) && !HasRun(s, n)
    ensures c == TICK && 0 < n <= |s| + 1 && RunAt(s + [c], |s| + 1 - n, n)
  {
    assert RunAt(s, 0, 0);
    var i: nat :| RunAt(s + [c], i, n);
    if i + n <= |s| {
      RunWithin(s, c, i, n);
    } else {
      assert (s + [c])[i..i + n][n - 1] == c;
    }
  }

  lemma RunStays(s: string, c: char, n: nat)
    requires HasRun(s, n)
    ensures HasRun(s + [c], n)
  {
    var i: nat :| RunAt(s, i, n);
    assert (s + [c])[i..i + n] == s[i..i + n];
    assert RunAt(s + [c], i, n);
  }

  /** A run at the very end is no longer than the one the text ends in. */
  lemma LastRun(s: string, c: char, run: nat, n: nat)
    requires EndsInRun(s, run) && 0 < n <= |s| + 1 && RunAt(s + [c], |s| + 1 - n, n)
    ensures n <= run + 1
  {
    var t, i := s + [c], |s| + 1 - n;
    assert forall k :: i <= k < |t| ==> t[k] == t[i..i + n][k - i];
    assert run < |s| ==> t[|s| - run - 1] == s[|s| - run - 1];
  }

  predicate Counted(s: string, longest: nat, run: nat) { EndsInRun(s, run) && run <= longest }

  /** The longest run so far is the longest there is. */
  ghost predicate Longest(s: string, longest: nat) { HasRun(s, longest) && !HasRun(s, longest + 1) }

  lemma CountTick(s: string, longest: nat, run: nat)
    requires Counted(s, longest, run) && Longest(s, longest)
    ensures var l := if run + 1 > longest then run + 1 else longest;
      Counted(s + [TICK], l, run + 1) && Longest(s + [TICK], l)
  {
    var t := s + [TICK];
    assert t[|t| - (run + 1)..] == s[|s| - run..] + [TICK];
    assert RunAt(t, |s| - run, run + 1) by { assert t[|s| - run..|s| - run + (run + 1)] == s[|s| - run..] + [TICK]; }
    RunStays(s, TICK, longest);
    NoLongerRun(s, TICK, longest, run);
  }

  lemma NoLongerRun(s: string, c: char, longest: nat, run: nat)
    requires Counted(s, longest, run) && Longest(s, longest)
    ensures var l := if c == TICK && run + 1 > longest then run + 1 else longest;
      !HasRun(s + [c], l + 1)
  {
    var l := if c == TICK && run + 1 > longest then run + 1 else longest;
    ShorterRuns(s, longest + 1, l + 1);
    if HasRun(s + [c], l + 1) {
      RunGrows(s, c, l + 1);
      LastRun(s, c, run, l + 1);
    }
  }

  lemma ShorterRuns(s: string, m: nat, n: nat)
    requires !HasRun(s, m) && m <= n
    ensures !HasRun(s, n)
  {
    if i: nat :| RunAt(s, i, n) {
      assert s[i..i + m] == s[i..i + n][..m];
      assert RunAt(s, i, m);
    }
  }

  lemma CountOther(s: string, c: char, longest: nat, run: nat)
    requires Counted(s, longest, run) && Longest(s, longest) && c != TICK
    ensures Counted(s + [c], longest, 0) && Longest(s + [c], longest)
  {
    RunStays(s, c, longest);
    NoLongerRun(s, c, longest, run);
  }

  lemma CountUpTo(text: string, i: nat, longest: nat, run: nat)
    requires i < |text| && Counted(text[..i], longest, run) && Longest(text[..i], longest)
    ensures var r := if text[i] == TICK then run + 1 else 0;
      var l := if r > longest then r else longest;
      Counted(text[..i + 1], l, r) && Longest(text[..i + 1], l)
  {
    assert text[..i + 1] == text[..i] + [text[i]];
    if text[i] == TICK {
      CountTick(text[..i], longest, run);
    } else {
      CountOther(text[..i], text[i], longest, run);
    }
  }

  /** One backtick longer than any run in the text, and never shorter than three. */
  method CodeFence(text: string) returns (fence: string)
    ensures AllTicks(fence) && |fence| >= 3
    ensures !HasRun(text, |fence|)
    ensures |fence| == 3 || HasRun(text, |fence| - 1)
  {
    var longest: nat, run: nat := 0, 0;
    assert RunAt("", 0, 0) && !HasRun("", 1);
    for i := 0 to |text|
      invariant Counted(text[..i], longest, run) && Longest(text[..i], longest)
    {
      CountUpTo(text, i, longest, run);
      if text[i] == TICK {
        run := run + 1;
        if run > longest {
          longest := run;
        }
      } else {
        run := 0;
      }
    }
    assert text[..|text|] == text;
    ghost var most := longest;
    if longest < 2 {
      longest := 2;
    }
    ShorterRuns(text, most + 1, longest + 1);
    return Ticks(longest + 1);
  }

  predicate EndsInNewline(s: string) { s != "" && s[|s| - 1] == '\n' }

  /** The text with a final newline, added only when it is missing. */
  function Ended(text: string): string { if EndsInNewline(text) then text else text + "\n" }

  function Block(fence: string, text: string): string { fence + "text\n" + Ended(text) + fence + "\n" }

  datatype Licence = Licence(name: string, text: string)

  /** A fence that may stand around the text. */
  ghost predicate FenceFor(fence: string, text: string) {
    AllTicks(fence) && |fence| >= 3 && !HasRun(text, |fence|)
  }

  function Printed(l: Licence, fence: string): string { "\n### " + l.name + "\n\n" + Block(fence, l.text) }

  function Document(ls: seq<Licence>, fences: seq<string>): string
    requires |fences| == |ls|
  {
    if ls == [] then "" else Printed(ls[0], fences[0]) + Document(ls[1..], fences[1..])
  }

  ghost predicate FencesFor(ls: seq<Licence>, fences: seq<string>) {
    |fences| == |ls| && forall i :: 0 <= i < |ls| ==> FenceFor(fences[i], ls[i].text)
  }

  lemma {:induction false} DocumentSnoc(ls: seq<Licence>, fences: seq<string>, l: Licence, fence: string)
    requires |fences| == |ls|
    ensures Document(ls + [l], fences + [fence]) == Document(ls, fences) + Printed(l, fence)
  {
    if ls == [] {
      assert [l][1..] == [] && [fence][1..] == [];
      assert ls + [l] == [l] && fences + [fence] == [fence];
      assert Document([l][1..], [fence][1..]) == "";
    } else {
      assert (ls + [l])[1..] == ls[1..] + [l] && (fences + [fence])[1..] == fences[1..] + [fence];
      DocumentSnoc(ls[1..], fences[1..], l, fence);
    }
  }

  /** Each licence is told by its name, above a block of plain text. */
  lemma NameStands(l: Licence, fence: string)
    ensures "\n### " + l.name + "\n\n" + (fence + "text\n") <= Printed(l, fence)
  {
  }

  method PrintLicence(l: Licence) returns (out: string, fence: string)
    ensures FenceFor(fence, l.text) && out == Printed(l, fence)
  {
    fence := CodeFence(l.text);
    out := "\n### " + l.name + "\n\n" + (fence + "text\n" + Ended(l.text) + fence + "\n");
  }

  /** The licence part of a component's notice. */
  method PrintLicences(ls: seq<Licence>) returns (out: string, fences: seq<string>)
    ensures FencesFor(ls, fences) && out == Document(ls, fences)
  {
    out, fences := "", [];
    for i := 0 to |ls|
      invariant FencesFor(ls[..i], fences) && out == Document(ls[..i], fences)
    {
      var block, fence := PrintLicence(ls[i]);
      DocumentSnoc(ls[..i], fences, ls[i], fence);
      assert ls[..i + 1] == ls[..i] + [ls[i]];
      out := out + block;
      fences := fences + [fence];
    }
    assert ls[..|ls|] == ls;
  }

  // ----- the reader

  /** The length of the first line without its ending: a newline, a carriage return, or both. */
  function BodyLen(s: string): (n: nat)
    ensures n <= |s| && (n < |s| ==> s[n] == '\n' || s[n] == '\r')
    ensures forall i :: 0 <= i < n ==> s[i] != '\n' && s[i] != '\r'
  {
    if s == "" || s[0] == '\n' || s[0] == '\r' then 0 else 1 + BodyLen(s[1..])
  }

  /** And with it. */
  function LineLen(s: string): (n: nat)
    ensures n <= |s| && (s != "" ==> n > 0)
  {
    var b := BodyLen(s);
    if b == |s| then b
    else if s[b] == '\r' && b + 1 < |s| && s[b + 1] == '\n' then b + 2
    else b + 1
  }

  function Indent(l: string): (n: nat)
    ensures n <= |l|
  {
    if l != "" && l[0] == ' ' then 1 + Indent(l[1..]) else 0
  }

  function TicksAtStart(l: string): (n: nat)
    ensures n <= |l| && AllTicks(l[..n])
  {
    if l != "" && l[0] == TICK then 1 + TicksAtStart(l[1..]) else 0
  }

  predicate OnlyBlanks(s: string) { forall i :: 0 <= i < |s| ==> s[i] == ' ' || s[i] == '\t' }

  /** At most three spaces, at least n backticks, and nothing after them but spaces and tabs. */
  predicate IsClosing(l: string, n: nat) {
    var d := Indent(l);
    d <= 3 && var k := TicksAtStart(l[d..]); k >= n && OnlyBlanks(l[d..][k..])
  }

  /** At most three spaces, three backticks or more, and an info string without any. */
  predicate IsOpening(l: string) {
    var d := Indent(l);
    d <= 3 && var k := TicksAtStart(l[d..]); k >= 3 && TICK !in l[d..][k..]
  }

  function FenceLen(l: string): nat { TicksAtStart(l[Indent(l)..]) }

  /** Where the content of a block stops: at the start of its closing fence, or at the end of the text. */
  function ContentLen(s: string, n: nat): (k: nat)
    ensures k <= |s|
    decreases |s|
  {
    if s == "" || IsClosing(s[..BodyLen(s)], n) then 0
    else LineLen(s) + ContentLen(s[LineLen(s)..], n)
  }

  /** The contents of the fenced blocks of a text, in order. */
  function Blocks(s: string): seq<string>
    decreases |s|
  {
    if s == "" then []
    else
      var rest, l := s[LineLen(s)..], s[..BodyLen(s)];
      if IsOpening(l) then
        var n := ContentLen(rest, FenceLen(l));
        [rest[..n]] + Blocks(rest[n..][LineLen(rest[n..])..])
      else Blocks(rest)
  }

  // ----- reading back

  /** A text that ends in a newline has its first line to itself, whatever follows. */
  lemma {:induction false} BodyLenInFront(t: string, more: string)
    requires EndsInNewline(t)
    ensures BodyLen(t + more) == BodyLen(t) < |t|
  {
    if t[0] != '\n' && t[0] != '\r' {
      assert (t + more)[1..] == t[1..] + more;
      assert t[1..] != "" && t[1..][|t| - 2] == '\n';
      BodyLenInFront(t[1..], more);
    }
  }

  lemma LineInFront(t: string, more: string)
    requires EndsInNewline(t)
    ensures LineLen(t + more) == LineLen(t) && 0 < LineLen(t) <= |t|
    ensures (t + more)[..BodyLen(t + more)] == t[..BodyLen(t)]
    ensures t[LineLen(t)..] == "" || EndsInNewline(t[LineLen(t)..])
    ensures (t + more)[LineLen(t)..] == t[LineLen(t)..] + more
  {
    BodyLenInFront(t, more);
    assert forall k :: 0 <= k < |t| ==> (t + more)[k] == t[k];
  }

  /** A closing fence holds as many backticks in a row as it must. */
  lemma ClosingHasRun(l: string, n: nat)
    requires IsClosing(l, n)
    ensures HasRun(l, n)
  {
    var d := Indent(l);
    var k := TicksAtStart(l[d..]);
    assert l[d..][..k][..n] == l[d..d + n];
    assert RunAt(l, d, n);
  }

  lemma RunInPart(s: string, a: nat, b: nat, n: nat)
    requires a <= b <= |s| && HasRun(s[a..b], n)
    ensures HasRun(s, n)
  {
    var i: nat :| RunAt(s[a..b], i, n);
    var x, y := s[a + i..a + i + n], s[a..b][i..i + n];
    assert forall k :: 0 <= k < n ==> x[k] == y[k];
    assert RunAt(s, a + i, n);
  }

  /** Content without so long a run goes on to its end, where a fence of that length closes it. */
  lemma {:induction false} ContentEnds(t: string, n: nat, fence: string, rest: string)
    requires t == "" || EndsInNewline(t)
    requires !HasRun(t, n) && AllTicks(fence) && |fence| == n && n > 0
    ensures ContentLen(t + (fence + "\n" + rest), n) == |t|
    decreases |t|
  {
    var more := fence + "\n" + rest;
    if t == "" {
      FenceCloses(fence, rest);
      assert t + more == more;
    } else {
      LineInFront(t, more);
      NoRunNoClosing(t, BodyLen(t), n);
      NoRunAfter(t, LineLen(t), n);
      ContentEnds(t[LineLen(t)..], n, fence, rest);
    }
  }

  lemma NoRunNoClosing(t: string, b: nat, n: nat)
    requires b <= |t| && !HasRun(t, n)
    ensures !IsClosing(t[..b], n)
  {
    if IsClosing(t[..b], n) {
      ClosingHasRun(t[..b], n);
      RunInPart(t, 0, b, n);
    }
  }

  lemma NoRunAfter(t: string, a: nat, n: nat)
    requires a <= |t| && !HasRun(t, n)
    ensures !HasRun(t[a..], n)
  {
    if HasRun(t[a..], n) {
      assert t[a..] == t[a..|t|];
      RunInPart(t, a, |t|, n);
    }
  }

  lemma {:induction false} BodyBefore(l: string, c: char, rest: string)
    requires (c == '\n' || c == '\r') && forall i :: 0 <= i < |l| ==> l[i] != '\n' && l[i] != '\r'
    ensures BodyLen(l + [c] + rest) == |l|
  {
    if l != "" {
      assert (l + [c] + rest)[1..] == l[1..] + [c] + rest;
      BodyBefore(l[1..], c, rest);
    }
  }

  /** A line of ours, read back. */
  lemma OurLine(l: string, rest: string)
    requires forall i :: 0 <= i < |l| ==> l[i] != '\n' && l[i] != '\r'
    ensures var s := l + "\n" + rest;
      BodyLen(s) == |l| && LineLen(s) == |l| + 1 && s[..|l|] == l && s[|l| + 1..] == rest
  {
    BodyBefore(l, '\n', rest);
    assert l + "\n" + rest == l + ['\n'] + rest;
  }

  lemma {:induction false} TicksThen(f: string, more: string)
    requires AllTicks(f) && (more == "" || more[0] != TICK)
    ensures TicksAtStart(f + more) == |f| && (f + more)[|f|..] == more
  {
    if f != "" {
      assert (f + more)[1..] == f[1..] + more;
      TicksThen(f[1..], more);
    }
  }

  lemma FenceCloses(fence: string, rest: string)
    requires AllTicks(fence) && |fence| > 0
    ensures var s := fence + "\n" + rest; IsClosing(s[..BodyLen(s)], |fence|)
  {
    OurLine(fence, rest);
    TicksThen(fence, "");
    assert fence + "" == fence && fence[0..] == fence;
  }

  lemma OpeningLine(fence: string)
    requires AllTicks(fence) && |fence| >= 3
    ensures IsOpening(fence + "text") && FenceLen(fence + "text") == |fence|
  {
    TicksThen(fence, "text");
    assert (fence + "text")[0..] == fence + "text";
  }

  lemma EndedHasNoRun(text: string, n: nat)
    requires !HasRun(text, n) && n > 0
    ensures !HasRun(Ended(text), n) && EndsInNewline(Ended(text))
  {
    if !EndsInNewline(text) && HasRun(text + ['\n'], n) {
      RunGrows(text, '\n', n);
    }
  }

  /** A printed block gives back its text, and leaves what follows it unread. */
  lemma BlockReadsBack(fence: string, text: string, rest: string)
    requires FenceFor(fence, text)
    ensures Blocks(Block(fence, text) + rest) == [Ended(text)] + Blocks(rest)
  {
    var t := Ended(text);
    var tail := fence + "\n" + rest;
    var s := (fence + "text") + "\n" + (t + tail);
    assert Block(fence, text) + rest == s;
    OurLine(fence + "text", t + tail);
    OpeningLine(fence);
    EndedHasNoRun(text, |fence|);
    ContentEnds(t, |fence|, fence, rest);
    assert (t + tail)[..|t|] == t && (t + tail)[|t|..] == tail;
    OurLine(fence, rest);
  }

  predicate NameOk(name: string) { forall i :: 0 <= i < |name| ==> name[i] != '\n' && name[i] != '\r' }

  /** A line of ours that opens no block is passed over. */
  lemma PassedOver(l: string, rest: string)
    requires NameOk(l) && !IsOpening(l)
    ensures Blocks(l + "\n" + rest) == Blocks(rest)
  {
    OurLine(l, rest);
  }

  lemma ThreeLinesOver(heading: string, block: string, a: string, b: string, c: string)
    requires NameOk(heading) && heading != "" && heading[0] == '#'
    requires a == "\n" + block && b == heading + "\n" + a && c == "\n" + b
    ensures Blocks(c) == Blocks(block)
  {
    HeadingOver(heading, a);
  }

  lemma HeadingOver(heading: string, rest: string)
    requires NameOk(heading) && heading != "" && heading[0] == '#'
    ensures Blocks(heading + "\n" + rest) == Blocks(rest)
  {
    assert Indent(heading) == 0 && heading[0..] == heading;
    assert TicksAtStart(heading) == 0;
    PassedOver(heading, rest);
  }

  lemma PrintedReadsBack(l: Licence, fence: string, rest: string)
    requires NameOk(l.name) && FenceFor(fence, l.text)
    ensures Blocks(Printed(l, fence) + rest) == [Ended(l.text)] + Blocks(rest)
  {
    var heading, block := "### " + l.name, Block(fence, l.text);
    BlockReadsBack(fence, l.text, rest);
    var a := "\n" + (block + rest);
    var b := heading + "\n" + a;
    ThreeLinesOver(heading, block + rest, a, b, "\n" + b);
    SamePrint(l.name, block, rest);
  }

  lemma SamePrint(name: string, block: string, rest: string)
    ensures "\n### " + name + "\n\n" + block + rest == "\n" + (("### " + name) + "\n" + ("\n" + (block + rest)))
  {
  }

  function Texts(ls: seq<Licence>): seq<string> { seq(|ls|, i requires 0 <= i < |ls| => Ended(ls[i].text)) }

  /** For any licence texts at all, under file names without line breaks: a reader of the printed notice
      recovers exactly the texts, in order, each with a final newline. */
  lemma {:induction false} EveryLicenceReadsBack(ls: seq<Licence>, fences: seq<string>)
    requires FencesFor(ls, fences) && forall i :: 0 <= i < |ls| ==> NameOk(ls[i].name)
    ensures Blocks(Document(ls, fences)) == Texts(ls)
  {
    if ls != [] {
      FencesForRest(ls, fences);
      EveryLicenceReadsBack(ls[1..], fences[1..]);
      PrintedReadsBack(ls[0], fences[0], Document(ls[1..], fences[1..]));
      TextsCons(ls);
    }
  }

  lemma TextsCons(ls: seq<Licence>)
    requires ls != []
    ensures Texts(ls) == [Ended(ls[0].text)] + Texts(ls[1..])
  {
  }

  lemma FencesForRest(ls: seq<Licence>, fences: seq<string>)
    requires ls != [] && FencesFor(ls, fences)
    ensures FenceFor(fences[0], ls[0].text) && FencesFor(ls[1..], fences[1..])
  {
    forall i | 0 <= i < |ls[1..]| ensures FenceFor(fences[1..][i], ls[1..][i].text) {
      assert FenceFor(fences[i + 1], ls[i + 1].text);
    }
  }
}
