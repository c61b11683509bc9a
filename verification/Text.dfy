/**
 Text as the program handles it.

   Width, ByteLen    the size of a text in UTF-8, which is what the program's len counts
   Lines, Join       cutting at newlines and putting back together
   Unlines           every line with its newline, as the printers write them
   Trim              white space off both ends, as Unicode counts white space
   TrimNewlines      newlines off the end, and nothing else

 A text is a sequence of characters; bytes that are not UTF-8 are not modelled.
 */
module Text {

  /** White space, as Unicode counts it. */
  predicate IsSpace(c: char) {
    var n := c as int;
    0x09 <= n <= 0x0D || n == 0x20 || n == 0x85 || n == 0xA0 || n == 0x1680 || 0x2000 <= n <= 0x200A
    || n == 0x2028 || n == 0x2029 || n == 0x202F || n == 0x205F || n == 0x3000
  }

  function Width(c: char): nat {
    var n := c as int;
    if n < 0x80 then 1 else if n < 0x800 then 2 else if n < 0x10000 then 3 else 4
  }

  /** The length in bytes, which is what the program's len counts. */
  function ByteLen(s: string): nat { if s == "" then 0 else Width(s[0]) + ByteLen(s[1..]) }

  lemma {:induction false} ByteLenConcat(a: string, b: string)
    ensures ByteLen(a + b) == ByteLen(a) + ByteLen(b)
  {
    if a == "" {
      assert a + b == b;
    } else {
      ByteLenConcat(a[1..], b);
      assert (a + b)[1..] == a[1..] + b;
    }
  }

  predicate OneLine(s: string) { '\n' !in s }

  predicate AllOneLine(ls: seq<string>) { forall i :: 0 <= i < |ls| ==> OneLine(ls[i]) }

  // ----- lines

  /** One more character before, and one more after, a list of pieces. */
  function Push(c: char, ls: seq<string>): (r: seq<string>)
    requires |ls| > 0
    ensures |r| > 0
  {
    if c == '\n' then [""] + ls else [[c] + ls[0]] + ls[1..]
  }

  function Snoc(ls: seq<string>, c: char): (r: seq<string>)
    requires |ls| > 0
    ensures |r| > 0
  {
    if c == '\n' then ls + [""] else ls[..|ls| - 1] + [ls[|ls| - 1] + [c]]
  }

  /** The pieces between newlines; a text that ends in one ends with an empty piece. */
  function Lines(s: string): (r: seq<string>)
    ensures |r| > 0
  {
    if s == "" then [""] else Push(s[0], Lines(s[1..]))
  }

  lemma PushConcat(c: char, a: seq<string>, b: seq<string>)
    requires |a| > 0
    ensures Push(c, a + b) == Push(c, a) + b
  {
  }

  lemma PushSnoc(c: char, ls: seq<string>, d: char)
    requires |ls| > 0
    ensures Push(c, Snoc(ls, d)) == Snoc(Push(c, ls), d)
  {
    if |ls| == 1 && c != '\n' && d != '\n' {
      assert [c] + (ls[0] + [d]) == ([c] + ls[0]) + [d];
    }
  }

  function Join(ls: seq<string>): string {
    if ls == [] then "" else if |ls| == 1 then ls[0] else ls[0] + "\n" + Join(ls[1..])
  }

  /** Each line with its newline. */
  function Unlines(ls: seq<string>): string {
    if ls == [] then "" else ls[0] + "\n" + Unlines(ls[1..])
  }

  lemma {:induction false} LinesAreOneLine(s: string)
    ensures AllOneLine(Lines(s))
  {
    if s != "" {
      LinesAreOneLine(s[1..]);
    }
  }

  lemma {:induction false} JoinLines(s: string)
    ensures Join(Lines(s)) == s
  {
    if s != "" {
      JoinLines(s[1..]);
      var rest := Lines(s[1..]);
      if s[0] == '\n' {
        assert ([""] + rest)[1..] == rest;
      } else if |rest| > 1 {
        assert ([[s[0]] + rest[0]] + rest[1..])[1..] == rest[1..];
      }
    }
  }

  lemma {:induction false} LinesOfOneLine(s: string)
    requires OneLine(s)
    ensures Lines(s) == [s]
  {
    if s != "" {
      LinesOfOneLine(s[1..]);
      assert [s[0]] + s[1..] == s;
    }
  }

  /** A newline parts the lines before it from the lines after it. */
  lemma {:induction false} LinesAcrossNewline(a: string, b: string)
    ensures Lines(a + "\n" + b) == Lines(a) + Lines(b)
  {
    var s := a + "\n" + b;
    if a == "" {
      assert s[1..] == b;
    } else {
      LinesAcrossNewline(a[1..], b);
      assert s[1..] == a[1..] + "\n" + b;
      PushConcat(a[0], Lines(a[1..]), Lines(b));
    }
  }

  lemma {:induction false} LinesJoin(ls: seq<string>)
    requires |ls| > 0 && AllOneLine(ls)
    ensures Lines(Join(ls)) == ls
  {
    LinesOfOneLine(ls[0]);
    if |ls| > 1 {
      LinesJoin(ls[1..]);
      LinesAcrossNewline(ls[0], Join(ls[1..]));
    }
  }

  lemma {:induction false} LinesUnlines(ls: seq<string>)
    requires AllOneLine(ls)
    ensures Lines(Unlines(ls)) == ls + [""]
  {
    if ls != [] {
      LinesOfOneLine(ls[0]);
      LinesUnlines(ls[1..]);
      LinesAcrossNewline(ls[0], Unlines(ls[1..]));
    }
  }

  lemma {:induction false} UnlinesConcat(a: seq<string>, b: seq<string>)
    ensures Unlines(a + b) == Unlines(a) + Unlines(b)
  {
    if a == [] {
      assert a + b == b;
    } else {
      UnlinesConcat(a[1..], b);
      assert (a + b)[1..] == a[1..] + b;
    }
  }

  lemma {:induction false} UnlinesIsJoin(ls: seq<string>)
    requires |ls| > 0
    ensures Unlines(ls) == Join(ls) + "\n"
  {
    if |ls| > 1 {
      UnlinesIsJoin(ls[1..]);
    }
  }

  /** One more character at the end. */
  lemma {:induction false} LinesSnoc(s: string, c: char)
    ensures Lines(s + [c]) == Snoc(Lines(s), c)
  {
    if s == "" {
      assert s + [c] == [c] && [c][1..] == "";
      assert Lines([c][1..]) == [""];
      assert [c] + "" == "" + [c];
    } else {
      LinesSnoc(s[1..], c);
      assert (s + [c])[1..] == s[1..] + [c];
      PushSnoc(s[0], Lines(s[1..]), c);
    }
  }

  /** The first line is the text up to its first newline. */
  lemma {:induction false} FirstLine(t: string)
    ensures OneLine(Lines(t)[0]) && Lines(t)[0] <= t
    ensures |Lines(t)[0]| < |t| ==> t[|Lines(t)[0]|] == '\n'
  {
    if t != "" && t[0] != '\n' {
      FirstLine(t[1..]);
      assert [t[0]] + t[1..] == t;
    }
  }

  lemma FirstStart(b: string)
    ensures Lines(b)[0] == "" || (b != "" && Lines(b)[0][0] == b[0])
  {
    FirstLine(b);
  }

  /** The last line ends as the text does. */
  lemma LastLine(a: string)
    requires a != "" && a[|a| - 1] != '\n'
    ensures var l := Lines(a)[|Lines(a)| - 1]; l != "" && l[|l| - 1] == a[|a| - 1]
  {
    var n := |a| - 1;
    assert a == a[..n] + [a[n]];
    LinesSnoc(a[..n], a[n]);
  }

  /** The lines of a list of pieces, each with its newline, but for the empty one behind the last. */
  function Flat(ls: seq<string>): seq<string> { if ls == [] then [] else Lines(ls[0]) + Flat(ls[1..]) }

  lemma {:induction false} LinesOfUnlines(ls: seq<string>)
    ensures Lines(Unlines(ls)) == Flat(ls) + [""]
  {
    if ls != [] {
      LinesOfUnlines(ls[1..]);
      LinesAcrossNewline(ls[0], Unlines(ls[1..]));
    }
  }

  lemma {:induction false} FlatConcat(a: seq<string>, b: seq<string>)
    ensures Flat(a + b) == Flat(a) + Flat(b)
  {
    if a == [] {
      assert a + b == b;
    } else {
      FlatConcat(a[1..], b);
      assert (a + b)[1..] == a[1..] + b;
    }
  }

  lemma FlatOne(l: string)
    ensures Flat([l]) == Lines(l)
  {
    assert [l][1..] == [];
    assert Flat([]) == [] && Lines(l) + [] == Lines(l);
  }

  lemma {:induction false} FlatOfLines(ls: seq<string>)
    requires AllOneLine(ls)
    ensures Flat(ls) == ls
  {
    if ls != [] {
      LinesOfOneLine(ls[0]);
      FlatOfLines(ls[1..]);
    }
  }

  // ----- trimming

  function TrimLeft(s: string): string { if s != "" && IsSpace(s[0]) then TrimLeft(s[1..]) else s }

  function TrimRight(s: string): string {
    if s != "" && IsSpace(s[|s| - 1]) then TrimRight(s[..|s| - 1]) else s
  }

  function Trim(s: string): string { TrimRight(TrimLeft(s)) }

  function TrimNewlines(s: string): string {
    if s != "" && s[|s| - 1] == '\n' then TrimNewlines(s[..|s| - 1]) else s
  }

  predicate Trimmed(s: string) { s == "" || (!IsSpace(s[0]) && !IsSpace(s[|s| - 1])) }

  lemma {:induction false} TrimRightKeepsFront(s: string)
    ensures |TrimRight(s)| <= |s| && TrimRight(s) == s[..|TrimRight(s)|]
    ensures TrimRight(s) == "" || !IsSpace(TrimRight(s)[|TrimRight(s)| - 1])
  {
    if s != "" && IsSpace(s[|s| - 1]) {
      TrimRightKeepsFront(s[..|s| - 1]);
    }
  }

  lemma {:induction false} TrimLeftStarts(s: string)
    ensures TrimLeft(s) == "" || !IsSpace(TrimLeft(s)[0])
  {
    if s != "" && IsSpace(s[0]) {
      TrimLeftStarts(s[1..]);
    }
  }

  lemma TrimIsTrimmed(s: string)
    ensures Trimmed(Trim(s))
  {
    TrimLeftStarts(s);
    TrimRightKeepsFront(TrimLeft(s));
  }

  lemma TrimOfTrimmed(s: string)
    requires Trimmed(s)
    ensures Trim(s) == s
  {
  }

  lemma {:induction false} TrimLeftSnoc(s: string, c: char)
    requires IsSpace(c)
    ensures TrimLeft(s + [c]) == if TrimLeft(s) == "" then "" else TrimLeft(s) + [c]
  {
    if s == "" {
      assert s + [c] == [c];
      assert [c][1..] == "";
      assert TrimLeft([c][1..]) == "";
    } else if IsSpace(s[0]) {
      TrimLeftSnoc(s[1..], c);
      assert (s + [c])[1..] == s[1..] + [c];
    }
  }

  lemma TrimConsSpace(c: char, s: string)
    requires IsSpace(c)
    ensures Trim([c] + s) == Trim(s)
  {
    assert ([c] + s)[1..] == s;
  }

  lemma TrimSnocSpace(s: string, c: char)
    requires IsSpace(c)
    ensures Trim(s + [c]) == Trim(s)
  {
    TrimLeftSnoc(s, c);
    if TrimLeft(s) != "" {
      var t := TrimLeft(s);
      assert (t + [c])[..|t|] == t;
    }
  }

  predicate AllSpace(s: string) { forall i :: 0 <= i < |s| ==> IsSpace(s[i]) }

  lemma {:induction false} TrimLeftOfSpace(s: string)
    ensures TrimLeft(s) == "" <==> AllSpace(s)
  {
    if s != "" && IsSpace(s[0]) {
      TrimLeftOfSpace(s[1..]);
    }
  }

  /** Nothing is left exactly of white space. */
  lemma TrimsAway(s: string)
    ensures Trim(s) == "" <==> AllSpace(s)
  {
    TrimLeftOfSpace(s);
    TrimLeftStarts(s);
    TrimRightKeepsFront(TrimLeft(s));
    InkStays(TrimLeft(s));
  }

  lemma {:induction false} InkStays(s: string)
    requires s != "" ==> !IsSpace(s[0])
    ensures TrimRight(s) == "" ==> s == ""
  {
    if s != "" && IsSpace(s[|s| - 1]) {
      InkStays(s[..|s| - 1]);
    }
  }

  /** White space at either end makes no difference. */
  lemma {:induction false} TrimDropsTail(s: string, w: string)
    requires AllSpace(w)
    ensures Trim(s + w) == Trim(s)
  {
    if w == "" {
      assert s + w == s;
    } else {
      var n := |w| - 1;
      assert s + w == (s + w[..n]) + [w[n]];
      TrimSnocSpace(s + w[..n], w[n]);
      TrimDropsTail(s, w[..n]);
    }
  }

  lemma {:induction false} TrimDropsHead(w: string, s: string)
    requires AllSpace(w)
    ensures Trim(w + s) == Trim(s)
  {
    if w == "" {
      assert w + s == s;
    } else {
      TrimConsSpace(w[0], w[1..] + s);
      assert w + s == [w[0]] + (w[1..] + s);
      TrimDropsHead(w[1..], s);
    }
  }
}
