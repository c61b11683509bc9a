/**
 The order a campaign's cells are run in: every repetition is a block of all pairs, the scenarios
 in some order and for each of them the arms in some order. The random generator is an arbitrary
 function that reorders what it is given, so what is proved holds for every seed.
 */
module Schedule {
  import opened Sorting

  datatype Cell = Cell(block: nat, scenario: string, arm: string, ordinal: nat)

  type Pair = (string, string)

  /** The random generator, as the answer to each draw in turn. All that is known of it is that it only
      reorders. */
  type Shuffler = (nat, seq<string>) -> seq<string>

  ghost predicate Reorders(shuffle: Shuffler) {
    forall draw, s :: multiset(shuffle(draw, s)) == multiset(s)
  }

  function Row(scenario: string, arms: seq<string>): seq<Pair> {
    seq(|arms|, i requires 0 <= i < |arms| => (scenario, arms[i]))
  }

  /** All pairs, in the order given. */
  function Pairs(scenarios: seq<string>, arms: seq<string>): seq<Pair> {
    if scenarios == [] then []
    else Pairs(scenarios[..|scenarios| - 1], arms) + Row(scenarios[|scenarios| - 1], arms)
  }

  function PairOf(c: Cell): Pair { (c.scenario, c.arm) }

  /** The pairs of one block, in the order they are run. */
  function PairsIn(cells: seq<Cell>, block: nat): seq<Pair> {
    if cells == [] then []
    else
      var front, c := PairsIn(cells[..|cells| - 1], block), cells[|cells| - 1];
      if c.block == block then front + [PairOf(c)] else front
  }

  predicate Numbered(cells: seq<Cell>) { forall i :: 0 <= i < |cells| ==> cells[i].ordinal == i + 1 }

  predicate BlocksUpTo(cells: seq<Cell>, n: nat) { forall i :: 0 <= i < |cells| ==> 1 <= cells[i].block <= n }

  predicate BlocksInOrder(cells: seq<Cell>) {
    forall i, j :: 0 <= i < j < |cells| ==> cells[i].block <= cells[j].block
  }

  lemma {:induction false} RowCount(scenario: string, arms: seq<string>, s: string, a: string)
    ensures multiset(Row(scenario, arms))[(s, a)] == if s == scenario then multiset(arms)[a] else 0
  {
    if arms == [] {
      assert Row(scenario, arms) == [];
    } else {
      var n := |arms| - 1;
      RowCount(scenario, arms[..n], s, a);
      assert Row(scenario, arms) == Row(scenario, arms[..n]) + [(scenario, arms[n])];
      assert arms == arms[..n] + [arms[n]];
    }
  }

  /** A pair occurs as often as its scenario and its arm do, multiplied. */
  lemma {:induction false} PairCount(scenarios: seq<string>, arms: seq<string>, s: string, a: string)
    ensures multiset(Pairs(scenarios, arms))[(s, a)] == multiset(scenarios)[s] * multiset(arms)[a]
  {
    if scenarios != [] {
      var n := |scenarios| - 1;
      PairCount(scenarios[..n], arms, s, a);
      RowCount(scenarios[n], arms, s, a);
      assert scenarios == scenarios[..n] + [scenarios[n]];
      OneTimesMore(multiset(scenarios[..n])[s], multiset(arms)[a]);
    }
  }

  lemma OneTimesMore(m: nat, a: nat)
    ensures (m + 1) * a == m * a + a
  {
  }

  lemma PairsPermute(scenarios: seq<string>, order: seq<string>, arms: seq<string>)
    requires multiset(order) == multiset(scenarios)
    ensures multiset(Pairs(order, arms)) == multiset(Pairs(scenarios, arms))
  {
    forall p: Pair ensures multiset(Pairs(order, arms))[p] == multiset(Pairs(scenarios, arms))[p] {
      PairCount(order, arms, p.0, p.1);
      PairCount(scenarios, arms, p.0, p.1);
    }
  }

  lemma RowPermutes(scenario: string, arms: seq<string>, order: seq<string>)
    requires multiset(order) == multiset(arms)
    ensures multiset(Row(scenario, order)) == multiset(Row(scenario, arms))
  {
    forall p: Pair ensures multiset(Row(scenario, order))[p] == multiset(Row(scenario, arms))[p] {
      RowCount(scenario, order, p.0, p.1);
      RowCount(scenario, arms, p.0, p.1);
    }
  }

  /** What the schedule is after some whole blocks and a stretch of the next. */
  ghost predicate Built(cells: seq<Cell>, scenarios: seq<string>, arms: seq<string>, blocks: nat, pairs: multiset<Pair>) {
    && Numbered(cells) && BlocksUpTo(cells, blocks + 1) && BlocksInOrder(cells)
    && (forall b :: 1 <= b <= blocks ==> multiset(PairsIn(cells, b)) == multiset(Pairs(scenarios, arms)))
    && multiset(PairsIn(cells, blocks + 1)) == pairs
  }

  method AddRow(cells: seq<Cell>, ghost scenarios: seq<string>, ghost arms: seq<string>, blocks: nat,
                ghost pairs: multiset<Pair>, scenario: string, order: seq<string>) returns (r: seq<Cell>)
    requires Built(cells, scenarios, arms, blocks, pairs)
    ensures Built(r, scenarios, arms, blocks, pairs + multiset(Row(scenario, order)))
  {
    r := cells;
    for i := 0 to |order|
      invariant Built(r, scenarios, arms, blocks, pairs + multiset(Row(scenario, order[..i])))
    {
      var c := Cell(blocks + 1, scenario, order[i], |r| + 1);
      assert Row(scenario, order[..i + 1]) == Row(scenario, order[..i]) + [PairOf(c)];
      AddedCell(r, c, scenarios, arms, blocks, pairs + multiset(Row(scenario, order[..i])));
      assert pairs + multiset(Row(scenario, order[..i + 1])) ==
        pairs + multiset(Row(scenario, order[..i])) + multiset{PairOf(c)};
      r := r + [c];
    }
    assert order[..|order|] == order;
  }

  lemma AddedCell(cells: seq<Cell>, c: Cell, scenarios: seq<string>, arms: seq<string>, blocks: nat, pairs: multiset<Pair>)
    requires Built(cells, scenarios, arms, blocks, pairs) && c.block == blocks + 1 && c.ordinal == |cells| + 1
    ensures Built(cells + [c], scenarios, arms, blocks, pairs + multiset{PairOf(c)})
  {
    forall b: nat ensures PairsIn(cells + [c], b) == PairsIn(cells, b) + (if c.block == b then [PairOf(c)] else []) {
    }
    assert forall b: nat :: b != blocks + 1 ==> PairsIn(cells + [c], b) == PairsIn(cells, b);
  }

  method AddBlock(cells: seq<Cell>, scenarios: seq<string>, arms: seq<string>, blocks: nat, shuffle: Shuffler, draw: nat)
    returns (r: seq<Cell>, drawn: nat)
    requires Reorders(shuffle) && Built(cells, scenarios, arms, blocks, multiset{})
    ensures Built(r, scenarios, arms, blocks, multiset(Pairs(scenarios, arms)))
  {
    var order := shuffle(draw, scenarios);
    r, drawn := cells, draw + 1;
    for k := 0 to |order|
      invariant Built(r, scenarios, arms, blocks, multiset(Pairs(order[..k], arms)))
    {
      assert order[..k + 1][..k] == order[..k];
      var armOrder := shuffle(drawn, arms);
      drawn := drawn + 1;
      RowPermutes(order[k], arms, armOrder);
      r := AddRow(r, scenarios, arms, blocks, multiset(Pairs(order[..k], arms)), order[k], armOrder);
    }
    assert order[..|order|] == order;
    PairsPermute(scenarios, order, arms);
  }

  lemma {:induction false} NoneOfBlock(cells: seq<Cell>, n: nat, b: nat)
    requires BlocksUpTo(cells, n) && b > n
    ensures PairsIn(cells, b) == []
  {
    if cells != [] {
      NoneOfBlock(cells[..|cells| - 1], n, b);
    }
  }

  /** Whatever the shuffles: the cells are numbered from one in the order they run, the blocks run one after
      another, and each of them holds all pairs, each as often as the lists name it. */
  method Plan(scenarios: seq<string>, arms: seq<string>, repeats: nat, shuffle: Shuffler) returns (cells: seq<Cell>)
    requires Reorders(shuffle)
    ensures Numbered(cells) && BlocksUpTo(cells, repeats) && BlocksInOrder(cells)
    ensures forall b :: 1 <= b <= repeats ==> multiset(PairsIn(cells, b)) == multiset(Pairs(scenarios, arms))
  {
    cells := [];
    var draw := 0;
    for n := 0 to repeats
      invariant Numbered(cells) && BlocksUpTo(cells, n) && BlocksInOrder(cells)
      invariant forall b :: 1 <= b <= n ==> multiset(PairsIn(cells, b)) == multiset(Pairs(scenarios, arms))
    {
      NoneOfBlock(cells, n, n + 1);
      cells, draw := AddBlock(cells, scenarios, arms, n, shuffle, draw);
    }
  }

  lemma {:induction false} DistinctCount(s: seq<string>, x: string)
    requires Distinct(s)
    ensures multiset(s)[x] == if x in s then 1 else 0
  {
    if s != [] {
      var n := |s| - 1;
      DistinctCount(s[..n], x);
      assert s == s[..n] + [s[n]];
    }
  }

  /** With distinct scenarios and arms, as the planner demands, a block holds each pair exactly once and
      nothing else. */
  lemma EachPairOnce(cells: seq<Cell>, scenarios: seq<string>, arms: seq<string>, b: nat, s: string, a: string)
    requires Distinct(scenarios) && Distinct(arms)
    requires multiset(PairsIn(cells, b)) == multiset(Pairs(scenarios, arms))
    ensures multiset(PairsIn(cells, b))[(s, a)] == if s in scenarios && a in arms then 1 else 0
  {
    PairCount(scenarios, arms, s, a);
    DistinctCount(scenarios, s);
    DistinctCount(arms, a);
  }
}
