/**
 The bill of the offline replay: every candidate's account, by role class, over the one set of
 requests that all of them answered and the world could price for all of them.

 A map of candidates is walked in no particular order. The accounts are specified one candidate at
 a time, so the order cannot show.
 */
module Bill {
  import opened Sorting
  import opened Replay
  import opened Wrappers

  datatype Cost = Unpriced | Priced(felt: real)

  /** What the world knows: whether enough machines of a model were measured, the best price for a
      request, and the price of any machine for it. */
  datatype World = World(enough: string -> bool, best: Asked -> Option<real>, price: (Asked, string) -> Cost)

  datatype Tally = Tally(asked: nat, silent: nat, held: nat, switches: nat, forfeited: nat, unpriced: nat,
                         scored: nat, regret: seq<real>)

  const EMPTY := Tally(0, 0, 0, 0, 0, 0, 0, [])

  datatype Errand = Errand(run: string, node: string, model: string)

  /** One candidate's account: its tallies by class, and the machine it last named for each errand. */
  datatype Account = Account(tallies: map<string, Tally>, last: map<Errand, string>)

  function TallyOf(a: Account, cls: string): Tally { if cls in a.tallies then a.tallies[cls] else EMPTY }

  function ErrandOf(one: Asked): Errand { Errand(one.run, one.node, one.model) }

  predicate Answered(one: Asked, said: map<string, seq<string>>) {
    forall n :: n in said.Keys ==> one.index < |said[n]|
  }

  /** The requests the bill looks at at all. */
  predicate Seen(w: World, one: Asked) { w.enough(one.model) && w.best(one).Some? }

  /** The candidate named a machine and the world could price it. */
  predicate Counted(w: World, one: Asked, demand: string) { demand != "" && w.price(one, demand).Priced? }

  /** The common set: every candidate counts. */
  predicate Common(w: World, one: Asked, said: map<string, seq<string>>) {
    forall n :: n in said.Keys ==> one.index < |said[n]| && Counted(w, one, said[n][one.index])
  }

  /** Nothing is owed below zero. */
  function Owed(cost: real, best: real): real { if cost < best then 0.0 else cost - best }

  function Regret(w: World, one: Asked, demand: string): real
    requires Seen(w, one) && Counted(w, one, demand)
  {
    Owed(w.price(one, demand).felt, w.best(one).value)
  }

  // ----- one request on one account

  /** What a request does to its class's tally whether or not it turns out to be in the common set.
      `last` is the machine the candidate last named for the errand. */
  function NotedTally(w: World, t: Tally, last: Option<string>, one: Asked, demand: string): Tally {
    var asked := t.(asked := t.asked + 1);
    if demand == "" then asked.(silent := t.silent + 1)
    else
      var held := if demand == one.machine then asked.(held := t.held + 1) else asked;
      var moved := if last.Some? && last.value != demand
                   then held.(switches := t.switches + 1, forfeited := t.forfeited + one.cached) else held;
      if w.price(one, demand).Unpriced? then moved.(unpriced := t.unpriced + 1) else moved
  }

  function LastOf(a: Account, e: Errand): Option<string> { if e in a.last then Some(a.last[e]) else None }

  function Noted(w: World, a: Account, one: Asked, demand: string): Account {
    var e := ErrandOf(one);
    var t := NotedTally(w, TallyOf(a, one.cls), LastOf(a, e), one, demand);
    Account(a.tallies[one.cls := t], if demand == "" then a.last else a.last[e := demand])
  }

  function ScoredTally(t: Tally, regret: real): Tally { t.(scored := t.scored + 1, regret := t.regret + [regret]) }

  function Scored(a: Account, cls: string, regret: real): Account {
    a.(tallies := a.tallies[cls := ScoredTally(TallyOf(a, cls), regret)])
  }

  function Billed(w: World, a: Account, one: Asked, demand: string, common: bool): Account {
    if !Seen(w, one) then a
    else
      var noted := Noted(w, a, one, demand);
      if common && Counted(w, one, demand) then Scored(noted, one.cls, Regret(w, one, demand)) else noted
  }

  function BilledTally(w: World, t: Tally, last: Option<string>, one: Asked, demand: string, common: bool): Tally {
    if !Seen(w, one) then t
    else
      var noted := NotedTally(w, t, last, one, demand);
      if common && Counted(w, one, demand) then ScoredTally(noted, Regret(w, one, demand)) else noted
  }

  /** A request touches the tally of its own class and no other. */
  lemma OneTally(w: World, a: Account, one: Asked, demand: string, common: bool, cls: string)
    ensures TallyOf(Billed(w, a, one, demand, common), cls) ==
      (if one.cls == cls then BilledTally(w, TallyOf(a, cls), LastOf(a, ErrandOf(one)), one, demand, common) else TallyOf(a, cls))
  {
  }

  predicate AllAnswered(requests: seq<Asked>, said: map<string, seq<string>>) {
    forall i :: 0 <= i < |requests| ==> Answered(requests[i], said)
  }

  /** One candidate's whole account. */
  function AccountOf(w: World, requests: seq<Asked>, said: map<string, seq<string>>, name: string): Account
    requires name in said && AllAnswered(requests, said)
    decreases |requests|
  {
    if requests == [] then Account(map[], map[])
    else
      var front, one := requests[..|requests| - 1], requests[|requests| - 1];
      Billed(w, AccountOf(w, front, said, name), one, said[name][one.index], Common(w, one, said))
  }

  // ----- the bill itself

  method DrawBill(w: World, requests: seq<Asked>, said: map<string, seq<string>>) returns (bills: map<string, Account>)
    requires AllAnswered(requests, said)
    ensures bills.Keys == said.Keys
    ensures forall n :: n in said.Keys ==> bills[n] == AccountOf(w, requests, said, n)
    ensures forall n, cls :: n in said.Keys ==>
      |TallyOf(bills[n], cls).regret| == |Filter(requests, ScoredOf(w, cls, said))|
    ensures forall n, cls, i :: n in said.Keys && 0 <= i < |TallyOf(bills[n], cls).regret| ==>
      var one, r := Filter(requests, ScoredOf(w, cls, said))[i], TallyOf(bills[n], cls).regret[i];
      && one.index < |said[n]| && w.best(one).Some? && w.price(one, said[n][one.index]).Priced?
      && var best, price := w.best(one).value, w.price(one, said[n][one.index]).felt;
         (best <= price ==> best + r == price) && (price <= best ==> r == 0.0)
  {
    bills := map n | n in said.Keys :: Account(map[], map[]);
    for i := 0 to |requests|
      invariant bills.Keys == said.Keys
      invariant forall n :: n in said.Keys ==> bills[n] == AccountOf(w, requests[..i], said, n)
    {
      assert requests[..i + 1][..i] == requests[..i];
      if Seen(w, requests[i]) {
        bills := DrawOne(w, requests[i], said, bills);
      }
    }
    assert requests[..|requests|] == requests;
    forall n, cls | n in said.Keys ensures Charged(w, requests, said, n, cls, TallyOf(bills[n], cls).regret) {
      ScoredAreCharged(w, requests, said, n, cls);
    }
  }

  /** Every scored request is charged what its machine costs above the best, and nothing when it costs no more. */
  ghost predicate Charged(w: World, requests: seq<Asked>, said: map<string, seq<string>>, n: string, cls: string, regret: seq<real>)
    requires n in said
  {
    var f := Filter(requests, ScoredOf(w, cls, said));
    |regret| == |f| && forall i :: 0 <= i < |f| ==> ChargedAt(w, f[i], said[n], regret[i])
  }

  ghost predicate ChargedAt(w: World, one: Asked, answers: seq<string>, r: real) {
    && one.index < |answers| && w.best(one).Some? && w.price(one, answers[one.index]).Priced?
    && var best, price := w.best(one).value, w.price(one, answers[one.index]).felt;
       (best <= price ==> best + r == price) && (price <= best ==> r == 0.0)
  }

  lemma {:induction false} RegretsAreCharged(w: World, answers: seq<string>, f: seq<Asked>)
    requires forall i :: 0 <= i < |f| ==> Seen(w, f[i]) && f[i].index < |answers| && Counted(w, f[i], answers[f[i].index])
    ensures |RegretsOf(w, answers, f)| == |f|
    ensures forall i :: 0 <= i < |f| ==> ChargedAt(w, f[i], answers, RegretsOf(w, answers, f)[i])
    decreases |f|
  {
    if f != [] {
      RegretsAreCharged(w, answers, f[..|f| - 1]);
    }
  }

  lemma ScoredAreCharged(w: World, requests: seq<Asked>, said: map<string, seq<string>>, n: string, cls: string)
    requires n in said && AllAnswered(requests, said)
    ensures Charged(w, requests, said, n, cls, TallyOf(AccountOf(w, requests, said, n), cls).regret)
  {
    var f := Filter(requests, ScoredOf(w, cls, said));
    ScoredIsTheCommonSet(w, requests, said, n, cls);
    FilterMembers(requests, ScoredOf(w, cls, said));
    RegretsAreCharged(w, said[n], f);
  }

  /** One request over every candidate: noted for each in some order, and then, if all of them
      counted, scored for each in some order. */
  method DrawOne(w: World, one: Asked, said: map<string, seq<string>>, before: map<string, Account>)
    returns (bills: map<string, Account>)
    requires Answered(one, said) && Seen(w, one) && before.Keys == said.Keys
    ensures bills.Keys == said.Keys
    ensures forall n :: n in said.Keys ==> bills[n] == Billed(w, before[n], one, said[n][one.index], Common(w, one, said))
  {
    var noted, felt, common := NoteAll(w, one, said, before);
    CommonIsAll(w, one, said, felt, common);
    bills := noted;
    if common {
      bills := ScoreAll(one.cls, w.best(one).value, noted, felt);
    }
  }

  lemma CommonIsAll(w: World, one: Asked, said: map<string, seq<string>>, felt: map<string, real>, common: bool)
    requires PricedBut(w, one, said, felt, common, {})
    ensures common <==> Common(w, one, said)
    ensures common ==> said.Keys <= felt.Keys
    ensures common ==> forall n :: n in said.Keys ==> felt[n] == w.price(one, said[n][one.index]).felt
  {
    assert said.Keys - {} == said.Keys;
  }

  /** Everybody but those to do has been noted; the rest are as they were. */
  ghost predicate NotedBut(w: World, one: Asked, said: map<string, seq<string>>, before: map<string, Account>,
                           bills: map<string, Account>, todo: set<string>) {
    && Answered(one, said) && todo <= said.Keys && bills.Keys == said.Keys == before.Keys
    && forall n :: n in said.Keys ==> bills[n] == if n in todo then before[n] else Noted(w, before[n], one, said[n][one.index])
  }

  /** The request is common as far as it has been looked at, and then every cost is there. */
  ghost predicate PricedBut(w: World, one: Asked, said: map<string, seq<string>>, felt: map<string, real>, common: bool, todo: set<string>) {
    && Answered(one, said)
    && (common <==> forall n :: n in said.Keys - todo ==> Counted(w, one, said[n][one.index]))
    && (common ==> forall n :: n in said.Keys - todo ==> n in felt && felt[n] == w.price(one, said[n][one.index]).felt)
  }

  lemma NotedStep(w: World, one: Asked, said: map<string, seq<string>>, before: map<string, Account>,
                  bills: map<string, Account>, todo: set<string>, name: string)
    requires NotedBut(w, one, said, before, bills, todo) && name in todo
    ensures NotedBut(w, one, said, before, bills[name := Noted(w, bills[name], one, said[name][one.index])], todo - {name})
  {
  }

  lemma PricedStep(w: World, one: Asked, said: map<string, seq<string>>, felt: map<string, real>, common: bool, todo: set<string>, name: string)
    requires PricedBut(w, one, said, felt, common, todo) && name in todo && todo <= said.Keys
    ensures var demand := said[name][one.index];
      if Counted(w, one, demand) then PricedBut(w, one, said, felt[name := w.price(one, demand).felt], common, todo - {name})
      else PricedBut(w, one, said, felt, false, todo - {name})
  {
    assert said.Keys - (todo - {name}) == said.Keys - todo + {name};
  }

  method NoteAll(w: World, one: Asked, said: map<string, seq<string>>, before: map<string, Account>)
    returns (bills: map<string, Account>, felt: map<string, real>, common: bool)
    requires Answered(one, said) && Seen(w, one) && before.Keys == said.Keys
    ensures NotedBut(w, one, said, before, bills, {}) && PricedBut(w, one, said, felt, common, {})
  {
    bills, felt, common := before, map[], true;
    var todo := said.Keys;
    while todo != {}
      invariant NotedBut(w, one, said, before, bills, todo)
      invariant PricedBut(w, one, said, felt, common, todo)
      decreases |todo|
    {
      var name :| name in todo;
      NotedStep(w, one, said, before, bills, todo, name);
      PricedStep(w, one, said, felt, common, todo, name);
      todo := todo - {name};
      var demand := said[name][one.index];
      bills := bills[name := Noted(w, bills[name], one, demand)];
      if demand == "" {
        common := false;
        continue;
      }
      match w.price(one, demand) {
        case Unpriced => common := false;
        case Priced(cost) => felt := felt[name := cost];
      }
    }
  }

  method ScoreAll(cls: string, best: real, noted: map<string, Account>, felt: map<string, real>)
    returns (bills: map<string, Account>)
    requires noted.Keys <= felt.Keys
    ensures bills.Keys == noted.Keys
    ensures forall n :: n in bills.Keys ==> bills[n] == Scored(noted[n], cls, Owed(felt[n], best))
  {
    bills := noted;
    var todo := noted.Keys;
    while todo != {}
      invariant todo <= noted.Keys && bills.Keys == noted.Keys
      invariant forall n :: n in todo ==> bills[n] == noted[n]
      invariant forall n :: n in noted.Keys && n !in todo ==> bills[n] == Scored(noted[n], cls, Owed(felt[n], best))
      decreases |todo|
    {
      var name :| name in todo;
      todo := todo - {name};
      var regret := felt[name] - best;
      if regret < 0.0 {
        regret := 0.0;
      }
      bills := bills[name := Scored(bills[name], cls, regret)];
    }
  }

  // ----- what the accounts say, read off the requests themselves

  predicate SeenIn(w: World, cls: string, one: Asked) { Seen(w, one) && one.cls == cls }

  predicate Named(answers: seq<string>, one: Asked) { one.index < |answers| && answers[one.index] != "" }

  function AskedOf(w: World, cls: string): Asked -> bool { (one: Asked) => SeenIn(w, cls, one) }

  function SilentOf(w: World, cls: string, answers: seq<string>): Asked -> bool {
    (one: Asked) => SeenIn(w, cls, one) && !Named(answers, one)
  }

  function UnpricedOf(w: World, cls: string, answers: seq<string>): Asked -> bool {
    (one: Asked) => SeenIn(w, cls, one) && Named(answers, one) && w.price(one, answers[one.index]).Unpriced?
  }

  function HeldOf(w: World, cls: string, answers: seq<string>): Asked -> bool {
    (one: Asked) => SeenIn(w, cls, one) && Named(answers, one) && answers[one.index] == one.machine
  }

  function ScoredOf(w: World, cls: string, said: map<string, seq<string>>): Asked -> bool {
    (one: Asked) => SeenIn(w, cls, one) && Common(w, one, said)
  }

  /** What a request costs above the best the world could price, where it counts. */
  function RegretsAt(w: World, answers: seq<string>, one: Asked): seq<real> {
    if Seen(w, one) && one.index < |answers| && Counted(w, one, answers[one.index]) then [Regret(w, one, answers[one.index])] else []
  }

  function RegretsOf(w: World, answers: seq<string>, s: seq<Asked>): seq<real>
    decreases |s|
  {
    if s == [] then [] else RegretsOf(w, answers, s[..|s| - 1]) + RegretsAt(w, answers, s[|s| - 1])
  }

  lemma RegretsSnoc(w: World, answers: seq<string>, s: seq<Asked>, one: Asked)
    ensures RegretsOf(w, answers, s + [one]) == RegretsOf(w, answers, s) + RegretsAt(w, answers, one)
  {
    assert (s + [one])[..|s|] == s;
  }

  /** The sorts of request, told from the request, the world and the answers. */
  lemma SortsOfRequest(w: World, cls: string, said: map<string, seq<string>>, answers: seq<string>, one: Asked)
    requires one.index < |answers| && Answered(one, said)
    ensures AskedOf(w, cls)(one) <==> one.cls == cls && w.enough(one.model) && w.best(one).Some?
    ensures SilentOf(w, cls, answers)(one) <==> AskedOf(w, cls)(one) && answers[one.index] == ""
    ensures HeldOf(w, cls, answers)(one) <==> AskedOf(w, cls)(one) && answers[one.index] == one.machine != ""
    ensures UnpricedOf(w, cls, answers)(one) <==>
      AskedOf(w, cls)(one) && answers[one.index] != "" && w.price(one, answers[one.index]) == Unpriced
    ensures ScoredOf(w, cls, said)(one) <==> (
      && AskedOf(w, cls)(one)
      && forall n :: n in said.Keys ==> said[n][one.index] != "" && w.price(one, said[n][one.index]).Priced?)
  {
  }

  /** An errand is a run, a node and a model. */
  lemma SameErrand(a: Asked, b: Asked)
    ensures ErrandOf(a) == ErrandOf(b) <==> a.run == b.run && a.node == b.node && a.model == b.model
  {
  }

  // What one request does to the other columns of a class.
  lemma BilledCounts(w: World, a: Account, one: Asked, answers: seq<string>, common: bool, cls: string)
    requires one.index < |answers|
    ensures var before, after := TallyOf(a, cls), TallyOf(Billed(w, a, one, answers[one.index], common), cls);
      && after.asked == before.asked + (if AskedOf(w, cls)(one) then 1 else 0)
      && after.silent == before.silent + (if SilentOf(w, cls, answers)(one) then 1 else 0)
      && after.held == before.held + (if HeldOf(w, cls, answers)(one) then 1 else 0)
      && after.unpriced == before.unpriced + (if UnpricedOf(w, cls, answers)(one) then 1 else 0)
  {
    OneTally(w, a, one, answers[one.index], common, cls);
  }

  /** Asked, silent, held and unpriced are counts of requests, told from the request and this
      candidate's own answer. */
  lemma {:induction false} CountsAreCounts(w: World, requests: seq<Asked>, said: map<string, seq<string>>, name: string, cls: string)
    requires name in said && AllAnswered(requests, said)
    ensures var t := TallyOf(AccountOf(w, requests, said, name), cls);
      && t.asked == |Filter(requests, AskedOf(w, cls))|
      && t.silent == |Filter(requests, SilentOf(w, cls, said[name]))|
      && t.held == |Filter(requests, HeldOf(w, cls, said[name]))|
      && t.unpriced == |Filter(requests, UnpricedOf(w, cls, said[name]))|
    decreases |requests|
  {
    if requests != [] {
      var front, one := requests[..|requests| - 1], requests[|requests| - 1];
      CountsAreCounts(w, front, said, name, cls);
      BilledCounts(w, AccountOf(w, front, said, name), one, said[name], Common(w, one, said), cls);
      assert requests == front + [one];
      FilterSnoc(front, one, AskedOf(w, cls));
      FilterSnoc(front, one, SilentOf(w, cls, said[name]));
      FilterSnoc(front, one, HeldOf(w, cls, said[name]));
      FilterSnoc(front, one, UnpricedOf(w, cls, said[name]));
    }
  }

  // What one request does to the scored column of a class.
  lemma BilledScores(w: World, a: Account, one: Asked, answers: seq<string>, common: bool, cls: string)
    requires one.index < |answers| && (common && Seen(w, one) ==> Counted(w, one, answers[one.index]))
    ensures var before, after := TallyOf(a, cls), TallyOf(Billed(w, a, one, answers[one.index], common), cls);
      var counts := SeenIn(w, cls, one) && common;
      && after.scored == before.scored + (if counts then 1 else 0)
      && after.regret == before.regret + (if counts then RegretsAt(w, answers, one) else [])
      && (counts ==> |RegretsAt(w, answers, one)| == 1 && 0.0 <= RegretsAt(w, answers, one)[0])
  {
    OneTally(w, a, one, answers[one.index], common, cls);
    assert TallyOf(a, cls).regret + [] == TallyOf(a, cls).regret;
  }

  /** What the tally of the scored requests of a class says. */
  ghost predicate ScoredRight(w: World, t: Tally, answers: seq<string>, f: seq<Asked>) {
    && t.scored == |f| && t.regret == RegretsOf(w, answers, f) && |t.regret| == t.scored
    && forall i :: 0 <= i < |t.regret| ==> 0.0 <= t.regret[i]
  }

  /** Scored counts the common set of the class, and the regrets are exactly that set's, in order. */
  lemma {:induction false} ScoredIsTheCommonSet(w: World, requests: seq<Asked>, said: map<string, seq<string>>, name: string, cls: string)
    requires name in said && AllAnswered(requests, said)
    ensures ScoredRight(w, TallyOf(AccountOf(w, requests, said, name), cls), said[name], Filter(requests, ScoredOf(w, cls, said)))
    decreases |requests|
  {
    if requests != [] {
      var front, one := requests[..|requests| - 1], requests[|requests| - 1];
      assert Answered(one, said);
      ScoredIsTheCommonSet(w, front, said, name, cls);
      assert requests == front + [one];
      FilterSnoc(front, one, ScoredOf(w, cls, said));
      var a, common := AccountOf(w, front, said, name), Common(w, one, said);
      ScoredStep(w, a, said[name], Filter(front, ScoredOf(w, cls, said)), one, common, cls);
      assert AccountOf(w, requests, said, name) == Billed(w, a, one, said[name][one.index], common);
    }
  }

  lemma ScoredStep(w: World, a: Account, answers: seq<string>, f: seq<Asked>, one: Asked, common: bool, cls: string)
    requires one.index < |answers| && (common && Seen(w, one) ==> Counted(w, one, answers[one.index]))
    requires ScoredRight(w, TallyOf(a, cls), answers, f)
    ensures ScoredRight(w, TallyOf(Billed(w, a, one, answers[one.index], common), cls), answers,
                        f + (if SeenIn(w, cls, one) && common then [one] else []))
  {
    BilledScores(w, a, one, answers, common, cls);
    if SeenIn(w, cls, one) && common {
      RegretsSnoc(w, answers, f, one);
    } else {
      assert f + [] == f;
    }
  }

  /** Every candidate is asked and scored on the same requests: the columns can be compared. */
  lemma EqualForAll(w: World, requests: seq<Asked>, said: map<string, seq<string>>, a: string, b: string, cls: string)
    requires a in said && b in said && AllAnswered(requests, said)
    ensures TallyOf(AccountOf(w, requests, said, a), cls).asked == TallyOf(AccountOf(w, requests, said, b), cls).asked
    ensures TallyOf(AccountOf(w, requests, said, a), cls).scored == TallyOf(AccountOf(w, requests, said, b), cls).scored
    ensures |TallyOf(AccountOf(w, requests, said, a), cls).regret| == TallyOf(AccountOf(w, requests, said, a), cls).scored
         == |TallyOf(AccountOf(w, requests, said, b), cls).regret|
  {
    CountsAreCounts(w, requests, said, a, cls);
    CountsAreCounts(w, requests, said, b, cls);
    ScoredIsTheCommonSet(w, requests, said, a, cls);
    ScoredIsTheCommonSet(w, requests, said, b, cls);
  }

  lemma {:induction false} ThreeApart(s: seq<Asked>, p: Asked -> bool, q: Asked -> bool, r: Asked -> bool, all: Asked -> bool)
    requires forall x :: (p(x) || q(x) || r(x) ==> all(x)) && !(p(x) && q(x)) && !(p(x) && r(x)) && !(q(x) && r(x))
    ensures |Filter(s, p)| + |Filter(s, q)| + |Filter(s, r)| <= |Filter(s, all)|
  {
    if s != [] {
      ThreeApart(s[1..], p, q, r, all);
    }
  }

  /** A request is scored, silent or unpriced, at most one of them, and asked whichever it is. */
  lemma NothingCountedTwice(w: World, requests: seq<Asked>, said: map<string, seq<string>>, name: string, cls: string)
    requires name in said && AllAnswered(requests, said)
    ensures var t := TallyOf(AccountOf(w, requests, said, name), cls); t.scored + t.silent + t.unpriced <= t.asked
  {
    CountsAreCounts(w, requests, said, name, cls);
    ScoredIsTheCommonSet(w, requests, said, name, cls);
    ThreeApart(requests, ScoredOf(w, cls, said), SilentOf(w, cls, said[name]), UnpricedOf(w, cls, said[name]), AskedOf(w, cls));
  }

  lemma {:induction false} FilterGrows(s: seq<Asked>, p: Asked -> bool, q: Asked -> bool)
    requires forall x :: p(x) ==> q(x)
    ensures |Filter(s, p)| <= |Filter(s, q)|
  {
    if s != [] {
      FilterGrows(s[1..], p, q);
    }
  }

  /** Everything on a tally but the scored requests and their regrets. */
  function Own(t: Tally): Tally { t.(scored := 0, regret := []) }

  /** Fewer candidates, the same answers from those that stay: nobody's own columns move, and nobody
      is scored on fewer requests. */
  lemma {:induction false} FewerCandidates(w: World, requests: seq<Asked>, more: map<string, seq<string>>, fewer: map<string, seq<string>>,
                                           name: string, cls: string)
    requires fewer.Keys <= more.Keys && (forall n :: n in fewer.Keys ==> fewer[n] == more[n])
    requires name in fewer && AllAnswered(requests, more) && AllAnswered(requests, fewer)
    ensures var m, f := TallyOf(AccountOf(w, requests, more, name), cls), TallyOf(AccountOf(w, requests, fewer, name), cls);
      Own(m) == Own(f) && m.scored <= f.scored
  {
    SameOwn(w, requests, more, fewer, name, cls);
    ScoredIsTheCommonSet(w, requests, more, name, cls);
    ScoredIsTheCommonSet(w, requests, fewer, name, cls);
    FilterGrows(requests, ScoredOf(w, cls, more), ScoredOf(w, cls, fewer));
  }

  lemma {:induction false} SameOwn(w: World, requests: seq<Asked>, more: map<string, seq<string>>, fewer: map<string, seq<string>>,
                                   name: string, cls: string)
    requires name in fewer && name in more && fewer[name] == more[name]
    requires AllAnswered(requests, more) && AllAnswered(requests, fewer)
    ensures AccountOf(w, requests, more, name).last == AccountOf(w, requests, fewer, name).last
    ensures Own(TallyOf(AccountOf(w, requests, more, name), cls)) == Own(TallyOf(AccountOf(w, requests, fewer, name), cls))
    decreases |requests|
  {
    if requests != [] {
      var front, one := requests[..|requests| - 1], requests[|requests| - 1];
      SameOwn(w, front, more, fewer, name, cls);
      SameOwn(w, front, more, fewer, name, one.cls);
      BilledOwn(w, AccountOf(w, front, more, name), AccountOf(w, front, fewer, name), one, more[name][one.index],
                Common(w, one, more), Common(w, one, fewer), cls);
    }
  }

  lemma NotedOwn(w: World, a: Account, b: Account, one: Asked, demand: string, cls: string)
    requires a.last == b.last && Own(TallyOf(a, cls)) == Own(TallyOf(b, cls))
    requires Own(TallyOf(a, one.cls)) == Own(TallyOf(b, one.cls))
    ensures Noted(w, a, one, demand).last == Noted(w, b, one, demand).last
    ensures Own(TallyOf(Noted(w, a, one, demand), cls)) == Own(TallyOf(Noted(w, b, one, demand), cls))
  {
    if one.cls != cls {
      assert TallyOf(Noted(w, a, one, demand), cls) == TallyOf(a, cls);
      assert TallyOf(Noted(w, b, one, demand), cls) == TallyOf(b, cls);
    }
  }

  lemma ScoredOwn(a: Account, scored: string, regret: real, cls: string)
    ensures Scored(a, scored, regret).last == a.last
    ensures Own(TallyOf(Scored(a, scored, regret), cls)) == Own(TallyOf(a, cls))
  {
  }

  lemma BilledOwn(w: World, a: Account, b: Account, one: Asked, demand: string, inA: bool, inB: bool, cls: string)
    requires a.last == b.last && Own(TallyOf(a, cls)) == Own(TallyOf(b, cls))
    requires Own(TallyOf(a, one.cls)) == Own(TallyOf(b, one.cls))
    ensures Billed(w, a, one, demand, inA).last == Billed(w, b, one, demand, inB).last
    ensures Own(TallyOf(Billed(w, a, one, demand, inA), cls)) == Own(TallyOf(Billed(w, b, one, demand, inB), cls))
  {
    NotedOwn(w, a, b, one, demand, cls);
    BilledFromNoted(w, a, one, demand, inA, cls);
    BilledFromNoted(w, b, one, demand, inB, cls);
  }

  lemma BilledFromNoted(w: World, a: Account, one: Asked, demand: string, common: bool, cls: string)
    ensures var from := if Seen(w, one) then Noted(w, a, one, demand) else a;
      && Billed(w, a, one, demand, common).last == from.last
      && Own(TallyOf(Billed(w, a, one, demand, common), cls)) == Own(TallyOf(from, cls))
  {
    if Seen(w, one) && Counted(w, one, demand) {
      ScoredOwn(Noted(w, a, one, demand), one.cls, Regret(w, one, demand), cls);
    }
  }

  /** The machine a candidate named for the latest seen request of an errand that it answered. */
  function LatestFor(w: World, requests: seq<Asked>, answers: seq<string>, e: Errand): Option<string>
    decreases |requests|
  {
    if requests == [] then None
    else
      var one := requests[|requests| - 1];
      if Seen(w, one) && ErrandOf(one) == e && Named(answers, one) then Some(answers[one.index])
      else LatestFor(w, requests[..|requests| - 1], answers, e)
  }

  /** Request i is the last that the bill looks at, for this run, node and model, and that was answered with a machine. */
  predicate LastNamedAt(w: World, requests: seq<Asked>, answers: seq<string>, e: Errand, i: nat) {
    && i < |requests| && NamedFor(w, requests[i], answers, e)
    && forall k :: i < k < |requests| ==> !NamedFor(w, requests[k], answers, e)
  }

  predicate NamedFor(w: World, one: Asked, answers: seq<string>, e: Errand) {
    && w.enough(one.model) && w.best(one) != None && one.run == e.run && one.node == e.node && one.model == e.model
    && one.index < |answers| && answers[one.index] != ""
  }

  lemma {:induction false} LatestTold(w: World, requests: seq<Asked>, answers: seq<string>, e: Errand)
    ensures LatestFor(w, requests, answers, e) == None <==> forall i :: 0 <= i < |requests| ==> !NamedFor(w, requests[i], answers, e)
    ensures LatestFor(w, requests, answers, e).Some? ==> exists i: nat ::
              LastNamedAt(w, requests, answers, e, i) && answers[requests[i].index] == LatestFor(w, requests, answers, e).value
    decreases |requests|
  {
    if requests != [] {
      var n := |requests| - 1;
      var front := requests[..n];
      if NamedFor(w, requests[n], answers, e) {
        assert LastNamedAt(w, requests, answers, e, n);
      } else {
        LatestTold(w, front, answers, e);
        assert forall k :: 0 <= k < n ==> front[k] == requests[k];
        if i: nat :| LastNamedAt(w, front, answers, e, i) && answers[front[i].index] == LatestFor(w, front, answers, e).value {
          assert LastNamedAt(w, requests, answers, e, i);
        }
      }
    }
  }

  /** A switch is a change of machine since the errand's own latest answered request, whatever ran
      in between, and it forfeits what the request had cached. */
  lemma SwitchIsAChangeOfMind(w: World, requests: seq<Asked>, one: Asked, said: map<string, seq<string>>, name: string)
    requires name in said && AllAnswered(requests, said) && Answered(one, said)
    ensures var before, after := TallyOf(AccountOf(w, requests, said, name), one.cls),
                                 TallyOf(AccountOf(w, requests + [one], said, name), one.cls);
      var latest := LatestFor(w, requests, said[name], ErrandOf(one));
      var changed := Seen(w, one) && Named(said[name], one) && latest.Some? && latest.value != said[name][one.index];
      && after.switches == before.switches + (if changed then 1 else 0)
      && after.forfeited == before.forfeited + (if changed then one.cached else 0)
  {
    var a, demand, common := AccountOf(w, requests, said, name), said[name][one.index], Common(w, one, said);
    OneMoreRequest(w, requests, one, said, name);
    LastIsLatest(w, requests, said, name, ErrandOf(one));
    OneTally(w, a, one, demand, common, one.cls);
    SwitchInOne(w, TallyOf(a, one.cls), LastOf(a, ErrandOf(one)), one, demand, common);
  }

  lemma OneMoreRequest(w: World, requests: seq<Asked>, one: Asked, said: map<string, seq<string>>, name: string)
    requires name in said && AllAnswered(requests, said) && Answered(one, said)
    ensures AllAnswered(requests + [one], said)
    ensures AccountOf(w, requests + [one], said, name)
         == Billed(w, AccountOf(w, requests, said, name), one, said[name][one.index], Common(w, one, said))
  {
    assert (requests + [one])[..|requests|] == requests;
  }

  lemma SwitchInOne(w: World, t: Tally, last: Option<string>, one: Asked, demand: string, common: bool)
    ensures var after := BilledTally(w, t, last, one, demand, common);
      var changed := Seen(w, one) && demand != "" && last.Some? && last.value != demand;
      && after.switches == t.switches + (if changed then 1 else 0)
      && after.forfeited == t.forfeited + (if changed then one.cached else 0)
  {
  }

  lemma {:induction false} LastIsLatest(w: World, requests: seq<Asked>, said: map<string, seq<string>>, name: string, e: Errand)
    requires name in said && AllAnswered(requests, said)
    ensures LatestFor(w, requests, said[name], e) == LastOf(AccountOf(w, requests, said, name), e)
    decreases |requests|
  {
    if requests != [] {
      LastIsLatest(w, requests[..|requests| - 1], said, name, e);
    }
  }
}
