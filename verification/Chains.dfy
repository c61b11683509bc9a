/**
 Retry chains rebuilt from the log: rows that share a tag, a node and a model, whose attempt rises,
 each within a quarter of an hour of the one before. Times are minutes.
 */
module Chains {
  import opened Sorting

  datatype Row = Row(finished: bool, tag: string, node: string, model: string, at: real, attempt: int,
                     served: string, lane: string)

  datatype Key = Key(tag: string, node: string, model: string)

  datatype Chain = Chain(key: Key, rows: seq<Row>)

  const GAP := 15.0

  function KeyOf(r: Row): Key { Key(r.tag, r.node, r.model) }

  predicate Eligible(r: Row) { r.finished && r.model != "" }

  function Of(k: Key): Row -> bool { (r: Row) => Eligible(r) && KeyOf(r) == k }

  function AtOf(r: Row): real { r.at }

  function Began(c: Chain): real { if c.rows == [] then 0.0 else c.rows[0].at }

  predicate Continues(last: Row, r: Row) { r.attempt > last.attempt && r.at - last.at <= GAP }

  // ----- what the reconstruction is

  /** The keys of the log, each once, in the order they are first seen. */
  function KeysOf(rows: seq<Row>): seq<Key>
    decreases |rows|
  {
    if rows == [] then []
    else
      var front, r := KeysOf(rows[..|rows| - 1]), rows[|rows| - 1];
      if Eligible(r) && KeyOf(r) !in front then front + [KeyOf(r)] else front
  }

  /** The last chain with one more row. */
  function Grown(cs: seq<Chain>, r: Row): seq<Chain>
    requires cs != []
  {
    cs[..|cs| - 1] + [cs[|cs| - 1].(rows := cs[|cs| - 1].rows + [r])]
  }

  /** A row that continues the one before it joins its chain, any other starts one. */
  function Next(k: Key, cs: seq<Chain>, front: seq<Row>, r: Row): seq<Chain> {
    if front != [] && cs != [] && Continues(front[|front| - 1], r) then Grown(cs, r) else cs + [Chain(k, [r])]
  }

  function Cut(k: Key, group: seq<Row>): seq<Chain>
    decreases |group|
  {
    if group == [] then []
    else
      var front := group[..|group| - 1];
      Next(k, Cut(k, front), front, group[|group| - 1])
  }

  function GroupOf(rows: seq<Row>, k: Key): seq<Row> { StableSort(Filter(rows, Of(k)), AtOf) }

  function CutAll(rows: seq<Row>, keys: seq<Key>): seq<Chain>
    decreases |keys|
  {
    if keys == [] then []
    else CutAll(rows, keys[..|keys| - 1]) + Cut(keys[|keys| - 1], GroupOf(rows, keys[|keys| - 1]))
  }

  function ChainsOf(rows: seq<Row>): seq<Chain> { StableSort(CutAll(rows, KeysOf(rows)), Began) }

  // ----- the program's own loops

  // What the map and the order hold after some rows.
  ghost predicate Grouped(rows: seq<Row>, grouped: map<Key, seq<Row>>, order: seq<Key>) {
    && order == KeysOf(rows)
    && (forall k :: k in order <==> k in grouped)
    && (forall k :: k in grouped ==> grouped[k] == Filter(rows, Of(k)))
    && (forall k :: k !in grouped ==> Filter(rows, Of(k)) == [])
  }

  lemma OfSnoc(front: seq<Row>, r: Row, k: Key)
    ensures Filter(front + [r], Of(k)) == if Eligible(r) && KeyOf(r) == k then Filter(front, Of(k)) + [r] else Filter(front, Of(k))
  {
    FilterSnoc(front, r, Of(k));
  }

  lemma KeysSnoc(front: seq<Row>, r: Row)
    ensures KeysOf(front + [r]) == if Eligible(r) && KeyOf(r) !in KeysOf(front) then KeysOf(front) + [KeyOf(r)] else KeysOf(front)
  {
    assert (front + [r])[..|front + [r]| - 1] == front;
  }

  lemma GroupStays(front: seq<Row>, r: Row, grouped: map<Key, seq<Row>>, order: seq<Key>)
    requires Grouped(front, grouped, order) && !Eligible(r)
    ensures Grouped(front + [r], grouped, order)
  {
    KeysSnoc(front, r);
    forall k ensures Filter(front + [r], Of(k)) == Filter(front, Of(k)) {
      OfSnoc(front, r, k);
    }
  }

  lemma GroupTakes(front: seq<Row>, r: Row, grouped: map<Key, seq<Row>>, order: seq<Key>)
    requires Grouped(front, grouped, order) && Eligible(r)
    ensures KeyOf(r) in grouped ==> Grouped(front + [r], grouped[KeyOf(r) := grouped[KeyOf(r)] + [r]], order)
    ensures KeyOf(r) !in grouped ==> Grouped(front + [r], grouped[KeyOf(r) := [r]], order + [KeyOf(r)])
  {
    KeysSnoc(front, r);
    OfSnoc(front, r, KeyOf(r));
    forall k | k != KeyOf(r) ensures Filter(front + [r], Of(k)) == Filter(front, Of(k)) {
      OfSnoc(front, r, k);
    }
  }

  method Group(rows: seq<Row>) returns (grouped: map<Key, seq<Row>>, order: seq<Key>)
    ensures order == KeysOf(rows)
    ensures forall k :: k in order ==> k in grouped && grouped[k] == Filter(rows, Of(k))
  {
    grouped, order := map[], [];
    for i := 0 to |rows|
      invariant Grouped(rows[..i], grouped, order)
    {
      var r := rows[i];
      assert rows[..i + 1] == rows[..i] + [r];
      if !r.finished || r.model == "" {
        GroupStays(rows[..i], r, grouped, order);
        continue;
      }
      GroupTakes(rows[..i], r, grouped, order);
      var k := KeyOf(r);
      if k !in grouped {
        order := order + [k];
        grouped := grouped[k := [r]];
      } else {
        grouped := grouped[k := grouped[k] + [r]];
      }
    }
    assert rows[..|rows|] == rows;
  }

  /** One group, in order of time, cut greedily: the current chain grows until a row does not continue it. */
  method CutGroup(k: Key, group: seq<Row>) returns (chains: seq<Chain>)
    ensures chains == Cut(k, group)
  {
    chains := [];
    var current := Chain(k, []);
    for i := 0 to |group|
      invariant i == 0 ==> chains == [] && current == Chain(k, [])
      invariant 0 < i ==> current.key == k && current.rows != [] && current.rows[|current.rows| - 1] == group[i - 1]
      invariant 0 < i ==> chains + [current] == Cut(k, group[..i])
    {
      var r := group[i];
      assert Cut(k, group[..i + 1]) == Next(k, Cut(k, group[..i]), group[..i], r) by {
        assert group[..i + 1][..i] == group[..i];
      }
      var continues := |current.rows| > 0 && r.attempt > current.rows[|current.rows| - 1].attempt
                       && r.at - current.rows[|current.rows| - 1].at <= GAP;
      if !continues {
        if |current.rows| > 0 {
          chains := chains + [current];
        }
        current := Chain(k, []);
      }
      current := current.(rows := current.rows + [r]);
      assert !continues ==> current.rows == [r];
      assert i == 0 ==> chains + [current] == [] + [Chain(k, [r])];
    }
    assert group[..|group|] == group;
    if |current.rows| > 0 {
      chains := chains + [current];
    }
  }

  lemma CutAllUpTo(rows: seq<Row>, order: seq<Key>, i: nat)
    requires i < |order|
    ensures CutAll(rows, order[..i + 1]) == CutAll(rows, order[..i]) + Cut(order[i], GroupOf(rows, order[i]))
  {
    assert order[..i + 1][..i] == order[..i];
  }

  /** The whole reconstruction. What a chain is, which rows are in one, and where chains end is told here from the rows
      alone. */
  method ChainsIn(rows: seq<Row>) returns (chains: seq<Chain>)
    ensures chains == ChainsOf(rows)
    ensures forall r :: RowsOf(chains)[r] == if r.finished && r.model != "" then multiset(rows)[r] else 0
    ensures forall c, r :: c in chains && r in c.rows ==> c.key == Key(r.tag, r.node, r.model)
    ensures forall c, i, j :: c in chains && 0 <= i < j < |c.rows| && j == i + 1 ==>
              c.rows[i].attempt < c.rows[j].attempt && 0.0 <= c.rows[j].at - c.rows[i].at <= 15.0
    ensures forall c :: c in chains ==> c.rows != []
    ensures forall a, b :: 0 <= a < b < |chains| ==> chains[a].rows[0].at <= chains[b].rows[0].at
    ensures forall a, b :: 0 <= a < b < |chains| && NextOfKey(chains, a, b) ==>
              chains[b].rows[0].attempt <= LastRow(chains[a]).attempt || chains[b].rows[0].at - LastRow(chains[a]).at > 15.0
  {
    var grouped, order := Group(rows);
    chains := [];
    for i := 0 to |order|
      invariant chains == CutAll(rows, order[..i])
    {
      CutAllUpTo(rows, order, i);
      var cut := CutGroup(order[i], StableSort(grouped[order[i]], AtOf));
      chains := chains + cut;
    }
    assert order[..|order|] == order;
    chains := StableSort(chains, Began);
    RowsTold(rows);
    ChainsTold(rows);
    StartsTold(rows);
    EndsTold(rows);
  }

  // ----- every row once, and none invented

  function RowsOf(cs: seq<Chain>): multiset<Row> {
    if cs == [] then multiset{} else multiset(cs[0].rows) + RowsOf(cs[1..])
  }

  lemma {:induction false} RowsConcat(a: seq<Chain>, b: seq<Chain>)
    ensures RowsOf(a + b) == RowsOf(a) + RowsOf(b)
  {
    if a == [] {
      assert a + b == b;
    } else {
      assert (a + b)[1..] == a[1..] + b && (a + b)[0] == a[0];
      RowsConcat(a[1..], b);
    }
  }

  lemma {:induction false} RowsInsert(c: Chain, s: seq<Chain>)
    ensures RowsOf(Insert(c, s, Began)) == multiset(c.rows) + RowsOf(s)
  {
    if s == [] || Began(c) <= Began(s[0]) {
      assert ([c] + s)[1..] == s;
    } else {
      var rest := Insert(c, s[1..], Began);
      assert ([s[0]] + rest)[1..] == rest;
      RowsInsert(c, s[1..]);
    }
  }

  lemma {:induction false} RowsSort(s: seq<Chain>)
    ensures RowsOf(StableSort(s, Began)) == RowsOf(s)
  {
    if s != [] {
      RowsSort(s[1..]);
      RowsInsert(s[0], StableSort(s[1..], Began));
    }
  }

  lemma RowsSnoc(cs: seq<Chain>, c: Chain)
    ensures RowsOf(cs + [c]) == RowsOf(cs) + multiset(c.rows)
  {
    RowsConcat(cs, [c]);
    assert RowsOf([c]) == multiset(c.rows) + RowsOf([]);
  }

  lemma RowsGrown(cs: seq<Chain>, r: Row)
    requires cs != []
    ensures RowsOf(Grown(cs, r)) == RowsOf(cs) + multiset{r}
  {
    var front, c := cs[..|cs| - 1], cs[|cs| - 1];
    RowsSnoc(front, c);
    assert cs == front + [c];
    RowsSnoc(front, c.(rows := c.rows + [r]));
  }

  lemma RowsNext(k: Key, cs: seq<Chain>, front: seq<Row>, r: Row)
    ensures RowsOf(Next(k, cs, front, r)) == RowsOf(cs) + multiset{r}
  {
    if cs != [] {
      RowsGrown(cs, r);
    }
    RowsSnoc(cs, Chain(k, [r]));
  }

  lemma RowsStep(k: Key, cs: seq<Chain>, g: seq<Row>, more: seq<Chain>)
    requires g != [] && RowsOf(cs) == multiset(g[..|g| - 1]) && more == Next(k, cs, g[..|g| - 1], g[|g| - 1])
    ensures RowsOf(more) == multiset(g)
  {
    RowsNext(k, cs, g[..|g| - 1], g[|g| - 1]);
    OneMoreRow(g);
  }

  lemma OneMoreRow(g: seq<Row>)
    requires g != []
    ensures multiset(g) == multiset(g[..|g| - 1]) + multiset{g[|g| - 1]}
  {
    assert g == g[..|g| - 1] + [g[|g| - 1]];
  }

  lemma {:induction false} RowsCut(k: Key, g: seq<Row>)
    ensures RowsOf(Cut(k, g)) == multiset(g)
    decreases |g|
  {
    if g != [] {
      RowsCut(k, g[..|g| - 1]);
      RowsStep(k, Cut(k, g[..|g| - 1]), g, Cut(k, g));
    }
  }

  function OfAny(keys: seq<Key>): Row -> bool { (r: Row) => Eligible(r) && KeyOf(r) in keys }

  lemma {:induction false} FilterApart(s: seq<Row>, p: Row -> bool, q: Row -> bool, both: Row -> bool)
    requires forall r :: both(r) == (p(r) || q(r)) && !(p(r) && q(r))
    ensures multiset(Filter(s, both)) == multiset(Filter(s, p)) + multiset(Filter(s, q))
  {
    if s != [] {
      FilterApart(s[1..], p, q, both);
    }
  }

  // The rows of one more key, beside the rows of the keys before it.
  lemma RowsOneMore(rows: seq<Row>, keys: seq<Key>, cs: seq<Chain>, cut: seq<Chain>)
    requires keys != [] && Distinct(keys)
    requires RowsOf(cs) == multiset(Filter(rows, OfAny(keys[..|keys| - 1])))
    requires cut == Cut(keys[|keys| - 1], GroupOf(rows, keys[|keys| - 1]))
    ensures RowsOf(cs + cut) == multiset(Filter(rows, OfAny(keys)))
  {
    var k := keys[|keys| - 1];
    RowsConcat(cs, cut);
    RowsCut(k, GroupOf(rows, k));
    SortPermutes(Filter(rows, Of(k)), AtOf);
    OneMoreKey(keys);
    FilterApart(rows, OfAny(keys[..|keys| - 1]), Of(k), OfAny(keys));
  }

  lemma OneMoreKey(keys: seq<Key>)
    requires keys != [] && Distinct(keys)
    ensures keys[|keys| - 1] !in keys[..|keys| - 1]
    ensures forall k :: k in keys <==> k in keys[..|keys| - 1] || k == keys[|keys| - 1]
  {
    assert keys == keys[..|keys| - 1] + [keys[|keys| - 1]];
  }

  lemma {:induction false} RowsCutAll(rows: seq<Row>, keys: seq<Key>)
    requires Distinct(keys)
    ensures RowsOf(CutAll(rows, keys)) == multiset(Filter(rows, OfAny(keys)))
    decreases |keys|
  {
    if keys == [] {
      FilterNone(rows, OfAny(keys));
    } else {
      RowsCutAll(rows, keys[..|keys| - 1]);
      RowsOneMore(rows, keys, CutAll(rows, keys[..|keys| - 1]), Cut(keys[|keys| - 1], GroupOf(rows, keys[|keys| - 1])));
    }
  }

  lemma {:induction false} KeysCover(rows: seq<Row>)
    ensures Distinct(KeysOf(rows))
    ensures forall i :: 0 <= i < |rows| && Eligible(rows[i]) ==> KeyOf(rows[i]) in KeysOf(rows)
    decreases |rows|
  {
    if rows != [] {
      KeysCover(rows[..|rows| - 1]);
      assert forall i :: 0 <= i < |rows| - 1 ==> rows[i] == rows[..|rows| - 1][i];
    }
  }

  /** Every finished row with a model is in the chains exactly as often as it is in the log, and no
      other row is. */
  lemma EveryRowOnce(rows: seq<Row>)
    ensures RowsOf(ChainsOf(rows)) == multiset(Filter(rows, Eligible))
  {
    var keys := KeysOf(rows);
    RowsSort(CutAll(rows, keys));
    KeysCover(rows);
    RowsCutAll(rows, keys);
    FilterSame(rows, OfAny(keys), Eligible);
  }

  // ----- what every chain is like, and why they end where they do

  function LastRow(c: Chain): Row
    requires c.rows != []
  {
    c.rows[|c.rows| - 1]
  }

  ghost predicate WellCut(c: Chain) {
    && c.rows != []
    && (forall i :: 0 <= i < |c.rows| ==> Eligible(c.rows[i]) && KeyOf(c.rows[i]) == c.key)
    && (forall i :: 0 < i < |c.rows| ==> Continues(c.rows[i - 1], c.rows[i]) && c.rows[i - 1].at <= c.rows[i].at)
  }

  ghost predicate AllWellCut(k: Key, cs: seq<Chain>) { forall i :: 0 <= i < |cs| ==> cs[i].key == k && WellCut(cs[i]) }

  /** Two chains cut next to each other stay apart: the second's first row does not continue the first. */
  ghost predicate NotOne(c: Chain, d: Chain) { c.rows != [] && d.rows != [] && !Continues(LastRow(c), d.rows[0]) }

  ghost predicate Apart(cs: seq<Chain>) { forall i :: 0 < i < |cs| ==> NotOne(cs[i - 1], cs[i]) }

  function Flat(cs: seq<Chain>): seq<Row>
    decreases |cs|
  {
    if cs == [] then [] else Flat(cs[..|cs| - 1]) + cs[|cs| - 1].rows
  }

  lemma FlatSnoc(cs: seq<Chain>, c: Chain)
    ensures Flat(cs + [c]) == Flat(cs) + c.rows
  {
    assert (cs + [c])[..|cs + [c]| - 1] == cs;
  }

  // A group is rows of one key, in order of time.
  ghost predicate IsGroup(k: Key, g: seq<Row>) {
    && (forall i :: 0 <= i < |g| ==> Eligible(g[i]) && KeyOf(g[i]) == k)
    && (forall i, j :: 0 <= i < j < |g| ==> g[i].at <= g[j].at)
  }

  lemma GroupIsGroup(rows: seq<Row>, k: Key)
    ensures IsGroup(k, GroupOf(rows, k))
  {
    var f, g := Filter(rows, Of(k)), GroupOf(rows, k);
    FilterMembers(rows, Of(k));
    SortPermutes(f, AtOf);
    SortSorted(f, AtOf);
    forall i | 0 <= i < |g| ensures Eligible(g[i]) && KeyOf(g[i]) == k {
      assert g[i] in multiset(g);
      assert g[i] in f;
    }
    forall i, j | 0 <= i < j < |g| ensures g[i].at <= g[j].at {
      assert AtOf(g[i]) <= AtOf(g[j]);
    }
  }

  lemma {:induction false} CutFlat(k: Key, g: seq<Row>)
    ensures Flat(Cut(k, g)) == g
    decreases |g|
  {
    if g != [] {
      CutFlat(k, g[..|g| - 1]);
      FlatNext(k, Cut(k, g[..|g| - 1]), g, Cut(k, g));
    }
  }

  lemma FlatNext(k: Key, cs: seq<Chain>, g: seq<Row>, more: seq<Chain>)
    requires g != [] && Flat(cs) == g[..|g| - 1] && more == Next(k, cs, g[..|g| - 1], g[|g| - 1])
    ensures Flat(more) == g
  {
    FlatAdd(k, cs, g[..|g| - 1], g[|g| - 1]);
  }

  lemma FlatAdd(k: Key, cs: seq<Chain>, front: seq<Row>, r: Row)
    ensures Flat(Next(k, cs, front, r)) == Flat(cs) + [r]
  {
    FlatSnoc(cs, Chain(k, [r]));
    if cs != [] {
      var n := |cs| - 1;
      FlatSnoc(cs[..n], cs[n].(rows := cs[n].rows + [r]));
    }
  }

  lemma WellCutGrown(c: Chain, r: Row)
    requires WellCut(c) && Eligible(r) && KeyOf(r) == c.key && Continues(LastRow(c), r) && LastRow(c).at <= r.at
    ensures WellCut(c.(rows := c.rows + [r]))
  {
  }

  // What the pieces of a group are, so far.
  ghost predicate Sound(k: Key, front: seq<Row>, cs: seq<Chain>) {
    && AllWellCut(k, cs) && Apart(cs)
    && (cs == [] <==> front == [])
    && (cs != [] && front != [] ==> LastRow(cs[|cs| - 1]) == front[|front| - 1])
  }

  lemma SoundGrown(k: Key, g: seq<Row>, cs: seq<Chain>)
    requires |g| > 1 && Sound(k, g[..|g| - 1], cs) && IsGroup(k, g) && Continues(g[|g| - 2], g[|g| - 1])
    ensures Sound(k, g, Grown(cs, g[|g| - 1]))
  {
    WellCutGrown(cs[|cs| - 1], g[|g| - 1]);
    GrownApart(cs, g[|g| - 1]);
  }

  lemma SoundStarted(k: Key, g: seq<Row>, cs: seq<Chain>)
    requires g != [] && Sound(k, g[..|g| - 1], cs) && IsGroup(k, g)
    requires |g| > 1 ==> !Continues(g[|g| - 2], g[|g| - 1])
    ensures Sound(k, g, cs + [Chain(k, [g[|g| - 1]])])
  {
    if cs != [] {
      assert NotOne(cs[|cs| - 1], Chain(k, [g[|g| - 1]]));
    }
  }

  lemma SoundNext(k: Key, cs: seq<Chain>, g: seq<Row>, more: seq<Chain>)
    requires g != [] && IsGroup(k, g) && Sound(k, g[..|g| - 1], cs) && more == Next(k, cs, g[..|g| - 1], g[|g| - 1])
    ensures Sound(k, g, more)
  {
    if |g| > 1 && Continues(g[|g| - 2], g[|g| - 1]) {
      SoundGrown(k, g, cs);
    } else {
      SoundStarted(k, g, cs);
    }
  }

  /** Cutting one group: each piece is one chain, none could have been joined to the one before it,
      and the last ends with the group. */
  lemma {:induction false} CutIsSound(k: Key, g: seq<Row>)
    requires IsGroup(k, g)
    ensures Sound(k, g, Cut(k, g))
    decreases |g|
  {
    if g != [] {
      CutIsSound(k, g[..|g| - 1]);
      SoundNext(k, Cut(k, g[..|g| - 1]), g, Cut(k, g));
    }
  }

  lemma GrownApart(cs: seq<Chain>, r: Row)
    requires cs != [] && Apart(cs) && cs[|cs| - 1].rows != []
    ensures Apart(Grown(cs, r))
  {
    var n, more := |cs| - 1, Grown(cs, r);
    forall i | 0 < i < |more| ensures NotOne(more[i - 1], more[i]) {
      assert NotOne(cs[i - 1], cs[i]);
    }
  }

  ghost predicate Runs(c: Chain) { c.rows != [] && forall j :: 0 < j < |c.rows| ==> Continues(c.rows[j - 1], c.rows[j]) }

  /** There is only one way to cut a group into runs that continue inside and not across: the greedy one. */
  lemma {:induction false} CutIsTheOnlyOne(k: Key, cs: seq<Chain>)
    requires Apart(cs) && AllRuns(k, cs)
    ensures cs == Cut(k, Flat(cs))
    decreases |Flat(cs)|
  {
    if cs != [] {
      ShorterSound(k, cs);
      CutIsTheOnlyOne(k, Shorter(cs));
      NextIsCut(k, Shorter(cs), Flat(Shorter(cs)), LastRow(cs[|cs| - 1]));
    }
  }

  lemma NextIsCut(k: Key, cs: seq<Chain>, front: seq<Row>, r: Row)
    requires cs == Cut(k, front)
    ensures Next(k, cs, front, r) == Cut(k, front + [r])
  {
    assert (front + [r])[..|front + [r]| - 1] == front;
  }

  /** Without the very last row. */
  function Shorter(cs: seq<Chain>): seq<Chain>
    requires cs != [] && cs[|cs| - 1].rows != []
  {
    var n := |cs| - 1;
    var m := |cs[n].rows| - 1;
    if m == 0 then cs[..n] else cs[..n] + [cs[n].(rows := cs[n].rows[..m])]
  }

  ghost predicate AllRuns(k: Key, cs: seq<Chain>) { forall i :: 0 <= i < |cs| ==> cs[i].key == k && Runs(cs[i]) }

  // What taking the last row off leaves, and that cutting puts it back.
  ghost predicate OneRowLess(k: Key, cs: seq<Chain>, shorter: seq<Chain>, r: Row) {
    && Apart(shorter) && AllRuns(k, shorter)
    && Flat(cs) == Flat(shorter) + [r]
    && cs == Next(k, shorter, Flat(shorter), r)
  }

  lemma LastAlone(k: Key, front: seq<Chain>, c: Chain, r: Row)
    requires c == Chain(k, [r]) && Apart(front + [c]) && AllRuns(k, front + [c])
    ensures OneRowLess(k, front + [c], front, r)
  {
    var cs, n := front + [c], |front|;
    FlatSnoc(front, c);
    assert forall i :: 0 <= i < n ==> front[i] == cs[i];
    if 0 < n {
      FlatEnds(front);
      assert NotOne(cs[n - 1], cs[n]);
    }
  }

  lemma LastOfMany(k: Key, front: seq<Chain>, c: Chain, some: seq<Row>, r: Row)
    requires c == Chain(k, some + [r]) && some != [] && Apart(front + [c]) && AllRuns(k, front + [c])
    ensures OneRowLess(k, front + [c], front + [Chain(k, some)], r)
  {
    var cs, shorter, n := front + [c], front + [Chain(k, some)], |front|;
    assert cs[n] == c && Runs(c);
    forall j | 0 < j < |some| ensures Continues(some[j - 1], some[j]) {
      assert Continues(c.rows[j - 1], c.rows[j]);
    }
    assert Continues(c.rows[|some| - 1], c.rows[|some|]);
    forall i | 0 < i < |shorter| ensures NotOne(shorter[i - 1], shorter[i]) {
      assert NotOne(cs[i - 1], cs[i]);
    }
    assert forall i :: 0 <= i < n ==> shorter[i] == cs[i];
    FlatSnoc(front, c);
    FlatSnoc(front, Chain(k, some));
    FlatEnds(shorter);
    assert Grown(shorter, r) == cs;
  }

  lemma ShorterSound(k: Key, cs: seq<Chain>)
    requires cs != [] && Apart(cs) && AllRuns(k, cs)
    ensures OneRowLess(k, cs, Shorter(cs), LastRow(cs[|cs| - 1]))
  {
    var n := |cs| - 1;
    var c, m, r := cs[n], |cs[n].rows| - 1, LastRow(cs[n]);
    assert cs == cs[..n] + [c] && c.rows == c.rows[..m] + [r];
    if m == 0 {
      LastAlone(k, cs[..n], c, r);
    } else {
      LastOfMany(k, cs[..n], c, c.rows[..m], r);
    }
  }

  lemma FlatEnds(cs: seq<Chain>)
    requires cs != [] && cs[|cs| - 1].rows != []
    ensures Flat(cs) != [] && Flat(cs)[|Flat(cs)| - 1] == LastRow(cs[|cs| - 1])
  {
  }

  lemma {:induction false} CutAllSound(rows: seq<Row>, keys: seq<Key>)
    ensures forall i :: 0 <= i < |CutAll(rows, keys)| ==> WellCut(CutAll(rows, keys)[i])
    decreases |keys|
  {
    if keys != [] {
      var k := keys[|keys| - 1];
      CutAllSound(rows, keys[..|keys| - 1]);
      GroupIsGroup(rows, k);
      CutIsSound(k, GroupOf(rows, k));
    }
  }

  /** Every chain of the log shares one key, its attempts rise, no step in it is longer than a quarter of
      an hour or goes back in time; and the chains come in the order they began. */
  lemma ChainsAreChains(rows: seq<Row>)
    ensures forall i :: 0 <= i < |ChainsOf(rows)| ==> WellCut(ChainsOf(rows)[i])
    ensures forall i, j :: 0 <= i < j < |ChainsOf(rows)| ==> Began(ChainsOf(rows)[i]) <= Began(ChainsOf(rows)[j])
  {
    var all, chains := CutAll(rows, KeysOf(rows)), ChainsOf(rows);
    CutAllSound(rows, KeysOf(rows));
    SortPermutes(all, Began);
    SortSorted(all, Began);
    forall i | 0 <= i < |chains| ensures WellCut(chains[i]) {
      assert chains[i] in multiset(chains);
      assert chains[i] in all;
    }
  }

  // Rows of one key.
  function KeyedBy(k: Key): Chain -> bool { (c: Chain) => c.key == k }

  lemma {:induction false} CutAllOf(rows: seq<Row>, keys: seq<Key>, k: Key)
    requires Distinct(keys)
    ensures Filter(CutAll(rows, keys), KeyedBy(k)) == if k in keys then Cut(k, GroupOf(rows, k)) else []
    decreases |keys|
  {
    if keys != [] {
      CutAllOf(rows, keys[..|keys| - 1], k);
      OneMoreKey(keys);
      CutOf(rows, keys[|keys| - 1], k, CutAll(rows, keys[..|keys| - 1]));
    }
  }

  lemma CutOf(rows: seq<Row>, last: Key, k: Key, cs: seq<Chain>)
    ensures Filter(cs + Cut(last, GroupOf(rows, last)), KeyedBy(k))
         == Filter(cs, KeyedBy(k)) + if last == k then Cut(last, GroupOf(rows, last)) else []
  {
    var cut := Cut(last, GroupOf(rows, last));
    FilterConcat(cs, cut, KeyedBy(k));
    GroupIsGroup(rows, last);
    CutIsSound(last, GroupOf(rows, last));
    if last == k {
      FilterAll(cut, KeyedBy(k));
    } else {
      FilterNone(cut, KeyedBy(k));
    }
  }

  /** The chains of one key, read off the finished list, are that key's rows in order of time cut greedily:
      no two of them that were cut next to each other could have been one chain. */
  lemma ChainsOfOneKey(rows: seq<Row>, k: Key)
    requires k in KeysOf(rows)
    ensures Filter(ChainsOf(rows), KeyedBy(k)) == Cut(k, GroupOf(rows, k))
    ensures Apart(Filter(ChainsOf(rows), KeyedBy(k))) && Flat(Filter(ChainsOf(rows), KeyedBy(k))) == GroupOf(rows, k)
  {
    KeysCover(rows);
    CutAllOf(rows, KeysOf(rows), k);
    SortFilter(CutAll(rows, KeysOf(rows)), Began, KeyedBy(k));
    GroupIsGroup(rows, k);
    CutIsSound(k, GroupOf(rows, k));
    CutInTime(k, GroupOf(rows, k));
    CutFlat(k, GroupOf(rows, k));
    SortOfSorted(Cut(k, GroupOf(rows, k)), Began);
  }

  // The chains of one group begin in the order they were cut.
  lemma {:induction false} CutInTime(k: Key, g: seq<Row>)
    requires IsGroup(k, g)
    ensures BeganInOrder(g, Cut(k, g))
    decreases |g|
  {
    if g != [] {
      CutInTime(k, g[..|g| - 1]);
      CutIsSound(k, g[..|g| - 1]);
      BeganInOrderNext(k, Cut(k, g[..|g| - 1]), g, Cut(k, g));
    }
  }

  ghost predicate BeganInOrder(front: seq<Row>, cs: seq<Chain>) {
    Sorted(cs, Began) && (front != [] && cs != [] ==> Began(cs[|cs| - 1]) <= front[|front| - 1].at)
  }

  lemma BeganInOrderNext(k: Key, cs: seq<Chain>, g: seq<Row>, more: seq<Chain>)
    requires g != [] && IsGroup(k, g) && more == Next(k, cs, g[..|g| - 1], g[|g| - 1])
    requires Sound(k, g[..|g| - 1], cs) && BeganInOrder(g[..|g| - 1], cs)
    ensures BeganInOrder(g, more)
  {
    if cs != [] {
      SortedGrown(cs, g[|g| - 1]);
      SortedAdd(cs, Chain(k, [g[|g| - 1]]));
    }
  }

  lemma SortedGrown(cs: seq<Chain>, r: Row)
    requires cs != [] && cs[|cs| - 1].rows != [] && Sorted(cs, Began)
    ensures Sorted(Grown(cs, r), Began) && Began(Grown(cs, r)[|cs| - 1]) == Began(cs[|cs| - 1])
  {
    var more := Grown(cs, r);
    assert forall i :: 0 <= i < |cs| ==> Began(more[i]) == Began(cs[i]);
  }

  lemma SortedAdd(cs: seq<Chain>, c: Chain)
    requires cs != [] && Sorted(cs, Began)
    ensures Began(cs[|cs| - 1]) <= Began(c) ==> Sorted(cs + [c], Began)
  {
  }

  // ----- the reconstruction told from the rows alone

  /** Chain b is the next of its key after chain a. */
  predicate NextOfKey(cs: seq<Chain>, a: nat, b: nat) {
    && a < b < |cs| && cs[a].key == cs[b].key && cs[a].rows != [] && cs[b].rows != []
    && forall m :: a < m < b ==> cs[m].key != cs[a].key
  }

  lemma {:induction false} FilterCounts(rows: seq<Row>, r: Row)
    ensures multiset(Filter(rows, Eligible))[r] == if r.finished && r.model != "" then multiset(rows)[r] else 0
  {
    if rows != [] {
      FilterCounts(rows[1..], r);
      assert rows == [rows[0]] + rows[1..];
    }
  }

  lemma RowsTold(rows: seq<Row>)
    ensures forall r :: RowsOf(ChainsOf(rows))[r] == if r.finished && r.model != "" then multiset(rows)[r] else 0
  {
    EveryRowOnce(rows);
    forall r ensures RowsOf(ChainsOf(rows))[r] == if r.finished && r.model != "" then multiset(rows)[r] else 0 {
      FilterCounts(rows, r);
    }
  }

  lemma OneChainTold(c: Chain)
    requires WellCut(c)
    ensures forall r :: r in c.rows ==> c.key == Key(r.tag, r.node, r.model)
    ensures forall i, j :: 0 <= i < j < |c.rows| && j == i + 1 ==>
              c.rows[i].attempt < c.rows[j].attempt && 0.0 <= c.rows[j].at - c.rows[i].at <= 15.0
  {
    forall i, j | 0 <= i < j < |c.rows| && j == i + 1
      ensures c.rows[i].attempt < c.rows[j].attempt && 0.0 <= c.rows[j].at - c.rows[i].at <= 15.0
    {
      assert Continues(c.rows[j - 1], c.rows[j]);
    }
  }

  lemma ChainsTold(rows: seq<Row>)
    ensures forall c, r :: c in ChainsOf(rows) && r in c.rows ==> c.key == Key(r.tag, r.node, r.model)
    ensures forall c, i, j :: c in ChainsOf(rows) && 0 <= i < j < |c.rows| && j == i + 1 ==>
              c.rows[i].attempt < c.rows[j].attempt && 0.0 <= c.rows[j].at - c.rows[i].at <= 15.0
  {
    ChainsAreChains(rows);
    forall c | c in ChainsOf(rows)
      ensures forall r :: r in c.rows ==> c.key == Key(r.tag, r.node, r.model)
      ensures forall i, j :: 0 <= i < j < |c.rows| && j == i + 1 ==>
                c.rows[i].attempt < c.rows[j].attempt && 0.0 <= c.rows[j].at - c.rows[i].at <= 15.0
    {
      assert WellCut(c);
      OneChainTold(c);
    }
  }

  lemma StartsTold(rows: seq<Row>)
    ensures forall c :: c in ChainsOf(rows) ==> c.rows != []
    ensures forall a, b :: 0 <= a < b < |ChainsOf(rows)| ==> ChainsOf(rows)[a].rows[0].at <= ChainsOf(rows)[b].rows[0].at
  {
    var chains := ChainsOf(rows);
    ChainsAreChains(rows);
    forall a, b | 0 <= a < b < |chains| ensures chains[a].rows[0].at <= chains[b].rows[0].at {
      assert WellCut(chains[a]) && WellCut(chains[b]);
      assert Began(chains[a]) <= Began(chains[b]);
    }
  }

  /** Two neighbours of a filtered list, found where they stand in the list. */
  lemma {:induction false} Neighbours<T>(s: seq<T>, p: T -> bool, a: nat, b: nat) returns (i: nat)
    requires a < b < |s| && p(s[a]) && p(s[b]) && forall m :: a < m < b ==> !p(s[m])
    ensures 0 < i < |Filter(s, p)| && Filter(s, p)[i - 1] == s[a] && Filter(s, p)[i] == s[b]
  {
    assert s == s[..b] + s[b..] && s[..b] == s[..a + 1] + s[a + 1..b];
    FilterConcat(s[..b], s[b..], p);
    FilterConcat(s[..a + 1], s[a + 1..b], p);
    FilterNone(s[a + 1..b], p);
    assert s[..a + 1] == s[..a] + [s[a]];
    FilterSnoc(s[..a], s[a], p);
    i := |Filter(s[..a + 1], p)|;
    assert Filter(s[..a + 1], p) + [] == Filter(s[..a + 1], p);
    assert s[b..][0] == s[b];
  }

  lemma EndTold(rows: seq<Row>, a: nat, b: nat)
    requires NextOfKey(ChainsOf(rows), a, b)
    ensures !Continues(LastRow(ChainsOf(rows)[a]), ChainsOf(rows)[b].rows[0])
  {
    var cs, k := ChainsOf(rows), ChainsOf(rows)[a].key;
    var i := Neighbours(cs, KeyedBy(k), a, b);
    KeyOfChain(rows, cs[a]);
    ChainsOfOneKey(rows, k);
    assert NotOne(Filter(cs, KeyedBy(k))[i - 1], Filter(cs, KeyedBy(k))[i]);
  }

  lemma KeyOfChain(rows: seq<Row>, c: Chain)
    requires c in ChainsOf(rows) && c.rows != []
    ensures c.key in KeysOf(rows)
  {
    ChainsAreChains(rows);
    assert WellCut(c);
    InTheLog(rows, c, 0);
    KeysCover(rows);
    var i :| 0 <= i < |rows| && rows[i] == c.rows[0];
    assert Eligible(rows[i]) && KeyOf(rows[i]) == c.key;
  }

  lemma EndsTold(rows: seq<Row>)
    ensures var chains := ChainsOf(rows); forall a, b :: 0 <= a < b < |chains| && NextOfKey(chains, a, b) ==>
              chains[b].rows[0].attempt <= LastRow(chains[a]).attempt || chains[b].rows[0].at - LastRow(chains[a]).at > 15.0
  {
    var chains := ChainsOf(rows);
    forall a, b | 0 <= a < b < |chains| && NextOfKey(chains, a, b)
      ensures chains[b].rows[0].attempt <= LastRow(chains[a]).attempt || chains[b].rows[0].at - LastRow(chains[a]).at > 15.0
    {
      EndTold(rows, a, b);
    }
  }

  // ----- rows without an attempt number

  /** A row whose attempt is zero starts its chain, as attempts are never negative. */
  lemma ZeroStartsAChain(rows: seq<Row>, c: Chain, i: nat)
    requires (forall j :: 0 <= j < |rows| ==> 0 <= rows[j].attempt)
    requires c in ChainsOf(rows) && i < |c.rows| && c.rows[i].attempt == 0
    ensures i == 0
  {
    ChainsAreChains(rows);
    if 0 < i {
      assert Continues(c.rows[i - 1], c.rows[i]);
      InTheLog(rows, c, i - 1);
    }
  }

  lemma InTheLog(rows: seq<Row>, c: Chain, i: nat)
    requires c in ChainsOf(rows) && i < |c.rows|
    ensures c.rows[i] in rows
  {
    EveryRowOnce(rows);
    InRowsOf(ChainsOf(rows), c, i);
    FilterMembers(rows, Eligible);
    assert c.rows[i] in multiset(Filter(rows, Eligible));
    assert c.rows[i] in Filter(rows, Eligible);
  }

  lemma {:induction false} InRowsOf(cs: seq<Chain>, c: Chain, i: nat)
    requires c in cs && i < |c.rows|
    ensures c.rows[i] in RowsOf(cs)
  {
    if cs[0] != c {
      InRowsOf(cs[1..], c, i);
    }
  }

  lemma {:induction false} FlatSplit(cs: seq<Chain>, m: nat) returns (rest: seq<Row>)
    requires m < |cs|
    ensures Flat(cs) == Flat(cs[..m]) + cs[m].rows + rest
    decreases |cs|
  {
    var n := |cs| - 1;
    if m < n {
      var r := FlatSplit(cs[..n], m);
      assert cs[..n][..m] == cs[..m];
      rest := r + cs[n].rows;
      ThreeAndOne(Flat(cs[..m]), cs[m].rows, r, cs[n].rows);
    } else {
      rest := [];
    }
  }

  lemma ThreeAndOne(a: seq<Row>, b: seq<Row>, c: seq<Row>, d: seq<Row>)
    ensures a + b + c + d == a + b + (c + d)
  {
  }

  /** The first row of chain m, at its place in the cut group, and whether the row after it goes on. */
  ghost predicate AloneWhenNothingFollows(g: seq<Row>, c: Chain, off: nat) {
    && off < |g| && c.rows != [] && g[off] == c.rows[0]
    && (|c.rows| == 1 <==> off + 1 == |g| || !Continues(g[off], g[off + 1]))
  }

  lemma InMiddle(a: seq<Row>, b: seq<Row>, c: seq<Row>, i: nat)
    requires i < |b|
    ensures |a| + i < |a + b + c| && (a + b + c)[|a| + i] == b[i]
  {
  }

  /** Row i of chain m, at its place among all rows. */
  lemma PlaceOf(cs: seq<Chain>, m: nat, i: nat)
    requires m < |cs| && i < |cs[m].rows|
    ensures |Flat(cs[..m])| + i < |Flat(cs)| && Flat(cs)[|Flat(cs[..m])| + i] == cs[m].rows[i]
  {
    var rest := FlatSplit(cs, m);
    InMiddle(Flat(cs[..m]), cs[m].rows, rest, i);
  }

  lemma NextPlace(cs: seq<Chain>, m: nat)
    requires m < |cs|
    ensures |Flat(cs[..m + 1])| == |Flat(cs[..m])| + |cs[m].rows|
  {
    assert cs[..m + 1] == cs[..m] + [cs[m]];
    FlatSnoc(cs[..m], cs[m]);
  }

  /** Within chain m its second row goes on from the first; the chain after it does not go on from it. */
  ghost predicate KeptApart(cs: seq<Chain>, m: nat) {
    && m < |cs| && cs[m].rows != []
    && (|cs[m].rows| > 1 ==> Continues(cs[m].rows[0], cs[m].rows[1]))
    && (|cs[m].rows| == 1 && m + 1 < |cs| ==> cs[m + 1].rows != [] && !Continues(cs[m].rows[0], cs[m + 1].rows[0]))
  }

  lemma AloneInItsCut(cs: seq<Chain>, m: nat)
    requires KeptApart(cs, m)
    ensures AloneWhenNothingFollows(Flat(cs), cs[m], |Flat(cs[..m])|)
  {
    PlaceOf(cs, m, 0);
    if |cs[m].rows| > 1 {
      PlaceOf(cs, m, 1);
    } else if m + 1 < |cs| {
      NextPlace(cs, m);
      PlaceOf(cs, m + 1, 0);
    } else {
      NextPlace(cs, m);
      assert cs[..m + 1] == cs;
    }
  }

  lemma SoundIsKeptApart(k: Key, g: seq<Row>, cs: seq<Chain>, m: nat)
    requires Sound(k, g, cs) && m < |cs|
    ensures KeptApart(cs, m)
  {
    assert WellCut(cs[m]);
    if m + 1 < |cs| {
      assert WellCut(cs[m + 1]) && NotOne(cs[m], cs[m + 1]);
    }
  }

  /** When a row is its own chain: of the rows of a key in order of time, the first row of a chain is
      alone in it exactly when it is the last or the row after it does not continue it. For a row without
      an attempt number, which always comes first, that is all there is to it. */
  lemma AloneExactlyWhenNothingFollows(rows: seq<Row>, k: Key, m: nat)
    requires k in KeysOf(rows) && m < |Filter(ChainsOf(rows), KeyedBy(k))|
    ensures var cs := Filter(ChainsOf(rows), KeyedBy(k));
      AloneWhenNothingFollows(GroupOf(rows, k), cs[m], |Flat(cs[..m])|)
  {
    ChainsOfOneKey(rows, k);
    GroupIsGroup(rows, k);
    CutIsSound(k, GroupOf(rows, k));
    SoundIsKeptApart(k, GroupOf(rows, k), Cut(k, GroupOf(rows, k)), m);
    AloneInItsCut(Cut(k, GroupOf(rows, k)), m);
  }

  /** It need not be a chain of its own: a numbered attempt that comes soon enough joins it. */
  lemma ZeroMayBeJoined(r: Row, next: Row)
    requires Eligible(r) && r.attempt == 0 && KeyOf(next) == KeyOf(r) && Eligible(next)
    requires 0 < next.attempt && r.at <= next.at <= r.at + GAP
    ensures ChainsOf([r, next]) == [Chain(KeyOf(r), [r, next])]
  {
    var k, rows := KeyOf(r), [r, next];
    KeysOfPair(r, next);
    FilterAll(rows, Of(k));
    SortOfSorted(rows, AtOf);
    CutPair(k, r, next);
    assert CutAll(rows, [k]) == [] + Cut(k, rows) by { assert [k][..0] == []; }
    SortOfSorted([Chain(k, rows)], Began);
  }

  lemma KeysOfPair(r: Row, next: Row)
    requires Eligible(r) && Eligible(next) && KeyOf(next) == KeyOf(r)
    ensures KeysOf([r, next]) == [KeyOf(r)]
  {
    assert [r, next][..1] == [r] && [r][..0] == [];
    assert KeysOf([r]) == [] + [KeyOf(r)];
    assert KeyOf(next) in KeysOf([r]);
  }

  lemma CutOne(k: Key, r: Row)
    ensures Cut(k, [r]) == [Chain(k, [r])]
  {
    NextIsCut(k, [], [], r);
    assert [] + [r] == [r];
    assert [] + [Chain(k, [r])] == [Chain(k, [r])];
  }

  lemma GrownOne(k: Key, r: Row, next: Row)
    ensures Grown([Chain(k, [r])], next) == [Chain(k, [r, next])]
  {
    assert [r] + [next] == [r, next];
  }

  lemma CutPair(k: Key, r: Row, next: Row)
    requires Continues(r, next)
    ensures Cut(k, [r, next]) == [Chain(k, [r, next])]
  {
    CutOne(k, r);
    GrownOne(k, r, next);
    NextIsCut(k, [Chain(k, [r])], [r], next);
    assert [r] + [next] == [r, next];
  }

  // ----- whether a chain moved

  function Word(r: Row): string { if r.served != "" then r.served else if r.lane != "" then r.lane else "(none)" }

  function Walk(walked: seq<string>, w: string): seq<string> {
    if walked != [] && walked[|walked| - 1] == w then walked else walked + [w]
  }

  function Walked(rows: seq<Row>): seq<string>
    decreases |rows|
  {
    if rows == [] then [] else Walk(Walked(rows[..|rows| - 1]), Word(rows[|rows| - 1]))
  }

  lemma WalkedUpTo(rows: seq<Row>, i: nat)
    requires i < |rows|
    ensures Walked(rows[..i + 1]) == Walk(Walked(rows[..i]), Word(rows[i]))
  {
    assert rows[..i + 1][..i] == rows[..i];
  }

  /** The machines of a chain: the machine that served a row, else the lane it asked for, else a word for neither; each
      once until the next is another. */
  method Machines(c: Chain) returns (walked: seq<string>)
    ensures walked == Walked(c.rows)
    ensures forall i, j :: 0 <= i < j < |walked| && j == i + 1 ==> walked[i] != walked[j]
    ensures forall w :: w in walked <==>
              exists r :: r in c.rows && w == if r.served != "" then r.served else if r.lane != "" then r.lane else "(none)"
  {
    walked := [];
    for i := 0 to |c.rows|
      invariant walked == Walked(c.rows[..i])
    {
      WalkedUpTo(c.rows, i);
      var machine := c.rows[i].served;
      if machine == "" {
        machine := c.rows[i].lane;
      }
      if machine == "" {
        machine := "(none)";
      }
      if |walked| > 0 && walked[|walked| - 1] == machine {
        continue;
      }
      walked := walked + [machine];
    }
    assert c.rows[..|c.rows|] == c.rows;
    WalkedWords(c.rows);
    WalkedHolds(c.rows);
  }

  lemma {:induction false} WalkedHolds(rows: seq<Row>)
    ensures forall w :: w in Walked(rows) <==>
              exists r :: r in rows && w == if r.served != "" then r.served else if r.lane != "" then r.lane else "(none)"
    decreases |rows|
  {
    if rows != [] {
      var n := |rows| - 1;
      WalkedHolds(rows[..n]);
      assert rows == rows[..n] + [rows[n]];
    }
  }

  predicate StayedPut(c: Chain) { |Walked(c.rows)| <= 1 }

  // The machines of some rows: they start and end with the rows, none twice in a row, and one word is enough
  // exactly when every row has the first one's.
  ghost predicate Follows(walked: seq<string>, rows: seq<Row>) {
    && (rows == [] <==> walked == [])
    && (rows != [] ==> walked[0] == Word(rows[0]) && walked[|walked| - 1] == Word(rows[|rows| - 1]))
    && (forall i :: 0 < i < |walked| ==> walked[i - 1] != walked[i])
    && (|walked| <= 1 <==> forall i :: 0 <= i < |rows| ==> Word(rows[i]) == Word(rows[0]))
  }

  lemma WalkOn(walked: seq<string>, rows: seq<Row>, more: seq<string>)
    requires rows != [] && Follows(walked, rows[..|rows| - 1]) && more == Walk(walked, Word(rows[|rows| - 1]))
    ensures Follows(more, rows)
  {
    var front := rows[..|rows| - 1];
    assert forall i :: 0 <= i < |front| ==> front[i] == rows[i];
  }

  lemma {:induction false} WalkedWords(rows: seq<Row>)
    ensures Follows(Walked(rows), rows)
    decreases |rows|
  {
    if rows != [] {
      WalkedWords(rows[..|rows| - 1]);
      WalkOn(Walked(rows[..|rows| - 1]), rows, Walked(rows));
    }
  }

  /** A chain stayed put exactly when every row of it resolves to one machine word. */
  lemma StayedPutMeansOneWord(c: Chain)
    ensures StayedPut(c) <==> forall i, j :: 0 <= i < |c.rows| && 0 <= j < |c.rows| ==> Word(c.rows[i]) == Word(c.rows[j])
  {
    WalkedWords(c.rows);
  }
}
