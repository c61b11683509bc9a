/** A whole replay, from the log to the bill: every candidate asked, and their answers scored over the common set. */
module WholeReplay {
  import opened Bill
  import opened Replay
  import opened Sorting

  /** A candidate: a state, how it is taught, and what it answers. */
  datatype Candidate<!S> = Candidate(init: S, teach: (S, Lesson) -> S, demand: (S, Asked) -> string)

  /** What was known of the world: the rows of the log and the journal. */
  datatype Log = Log(rows: seq<Row>, journal: seq<Entry>)

  /** The candidate's answer told from the log alone: it has been taught what is stamped before the request. */
  function Says<S>(c: Candidate<S>, log: Log, one: Asked): string {
    c.demand(Learned(c.teach, c.init, TaughtBy(log.rows, log.journal, one.at)), one)
  }

  /** Every candidate names a machine the world can price. */
  predicate AllCount<S>(w: World, cs: map<string, Candidate<S>>, log: Log, one: Asked) {
    forall n :: n in cs.Keys ==> Counted(w, one, Says(cs[n], log, one))
  }

  predicate Scores<S>(w: World, cs: map<string, Candidate<S>>, log: Log, cls: string, one: Asked) {
    SeenIn(w, cls, one) && AllCount(w, cs, log, one)
  }

  /** What a candidate's answers cost above the best, over the requests of a class where every candidate counts. */
  function RegretsTold<S>(w: World, cs: map<string, Candidate<S>>, log: Log, n: string, cls: string, requests: seq<Asked>): seq<real>
    requires n in cs.Keys
    decreases |requests|
  {
    if requests == [] then []
    else
      var front, one := RegretsTold(w, cs, log, n, cls, requests[..|requests| - 1]), requests[|requests| - 1];
      if Scores(w, cs, log, cls, one) then front + [Regret(w, one, Says(cs[n], log, one))] else front
  }

  /** The answers are what the candidates say at each of the requests. */
  ghost predicate Told<S>(cs: map<string, Candidate<S>>, log: Log, requests: seq<Asked>, said: map<string, seq<string>>) {
    said.Keys == cs.Keys && forall n, i :: n in cs.Keys && 0 <= i < |requests| ==> ToldAt(cs[n], log, requests[i], said[n])
  }

  predicate ToldAt<S>(c: Candidate<S>, log: Log, one: Asked, answers: seq<string>) {
    one.index < |answers| && answers[one.index] == Says(c, log, one)
  }

  lemma ToldIsAnswered<S>(cs: map<string, Candidate<S>>, log: Log, requests: seq<Asked>, said: map<string, seq<string>>)
    requires Told(cs, log, requests, said)
    ensures AllAnswered(requests, said)
  {
    forall i, n | 0 <= i < |requests| && n in said.Keys ensures requests[i].index < |said[n]| {
      assert ToldAt(cs[n], log, requests[i], said[n]);
    }
  }

  lemma CommonIsTold<S>(w: World, cs: map<string, Candidate<S>>, log: Log, requests: seq<Asked>, said: map<string, seq<string>>, i: nat)
    requires Told(cs, log, requests, said) && i < |requests|
    ensures Common(w, requests[i], said) <==> AllCount(w, cs, log, requests[i])
  {
    forall n | n in cs.Keys ensures ToldAt(cs[n], log, requests[i], said[n]) {
    }
  }

  lemma ToldInFront<S>(cs: map<string, Candidate<S>>, log: Log, requests: seq<Asked>, said: map<string, seq<string>>)
    requires requests != [] && Told(cs, log, requests, said)
    ensures Told(cs, log, requests[..|requests| - 1], said)
  {
    var front := requests[..|requests| - 1];
    forall n, i | n in cs.Keys && 0 <= i < |front| ensures ToldAt(cs[n], log, front[i], said[n]) {
      assert ToldAt(cs[n], log, requests[i], said[n]);
    }
  }

  /** The regrets of the common set are those told from the log. */
  lemma {:induction false} RegretsAreTold<S>(w: World, cs: map<string, Candidate<S>>, log: Log, requests: seq<Asked>,
                                             said: map<string, seq<string>>, n: string, cls: string)
    requires n in cs.Keys && Told(cs, log, requests, said)
    ensures RegretsOf(w, said[n], Filter(requests, ScoredOf(w, cls, said))) == RegretsTold(w, cs, log, n, cls, requests)
    decreases |requests|
  {
    if requests != [] {
      var k := |requests| - 1;
      ToldInFront(cs, log, requests, said);
      RegretsAreTold(w, cs, log, requests[..k], said, n, cls);
      CommonIsTold(w, cs, log, requests, said, k);
      assert ToldAt(cs[n], log, requests[k], said[n]);
      OneMoreRegret(w, cs, log, requests, said, n, cls);
    }
  }

  lemma OneMoreRegret<S>(w: World, cs: map<string, Candidate<S>>, log: Log, requests: seq<Asked>,
                         said: map<string, seq<string>>, n: string, cls: string)
    requires requests != [] && n in cs.Keys && n in said.Keys
    requires var one := requests[|requests| - 1];
      ToldAt(cs[n], log, one, said[n]) && (Common(w, one, said) <==> AllCount(w, cs, log, one))
    requires var front := requests[..|requests| - 1];
      RegretsOf(w, said[n], Filter(front, ScoredOf(w, cls, said))) == RegretsTold(w, cs, log, n, cls, front)
    ensures RegretsOf(w, said[n], Filter(requests, ScoredOf(w, cls, said))) == RegretsTold(w, cs, log, n, cls, requests)
  {
    var one := requests[|requests| - 1];
    OneMoreScored(w, requests, said, said[n], cls);
    if Scores(w, cs, log, cls, one) {
      OneRegret(w, said[n], one, Says(cs[n], log, one));
    }
  }

  lemma OneRegret(w: World, answers: seq<string>, one: Asked, says: string)
    requires one.index < |answers| && answers[one.index] == says && Seen(w, one) && Counted(w, one, says)
    ensures RegretsAt(w, answers, one) == [Regret(w, one, says)]
  {
  }

  lemma OneMoreScored(w: World, requests: seq<Asked>, said: map<string, seq<string>>, answers: seq<string>, cls: string)
    requires requests != []
    ensures var front, one := requests[..|requests| - 1], requests[|requests| - 1];
      RegretsOf(w, answers, Filter(requests, ScoredOf(w, cls, said)))
      == RegretsOf(w, answers, Filter(front, ScoredOf(w, cls, said)))
         + if SeenIn(w, cls, one) && Common(w, one, said) then RegretsAt(w, answers, one) else []
  {
    var front, one := requests[..|requests| - 1], requests[|requests| - 1];
    assert requests == front + [one];
    FilterSnoc(front, one, ScoredOf(w, cls, said));
    var f := Filter(front, ScoredOf(w, cls, said));
    if SeenIn(w, cls, one) && Common(w, one, said) {
      RegretsSnoc(w, answers, f, one);
    } else {
      assert Filter(requests, ScoredOf(w, cls, said)) == f by { assert f + [] == f; }
      assert RegretsOf(w, answers, f) + [] == RegretsOf(w, answers, f);
    }
  }

  /** What the bill of a whole replay says of a candidate and a class. */
  ghost predicate BillTold<S>(w: World, cs: map<string, Candidate<S>>, log: Log, requests: seq<Asked>, n: string, cls: string, t: Tally)
    requires n in cs.Keys
  {
    && t.regret == RegretsTold(w, cs, log, n, cls, requests)
    && t.scored == |t.regret|
    && t.asked == |Filter(requests, AskedOf(w, cls))|
  }

  lemma BillIsTold<S>(w: World, cs: map<string, Candidate<S>>, log: Log, requests: seq<Asked>, said: map<string, seq<string>>, n: string, cls: string)
    requires n in cs.Keys && Told(cs, log, requests, said) && AllAnswered(requests, said)
    ensures BillTold(w, cs, log, requests, n, cls, TallyOf(AccountOf(w, requests, said, n), cls))
  {
    ScoredIsTheCommonSet(w, requests, said, n, cls);
    CountsAreCounts(w, requests, said, n, cls);
    RegretsAreTold(w, cs, log, requests, said, n, cls);
  }

  function ScoresOf<S>(w: World, cs: map<string, Candidate<S>>, log: Log, cls: string): Asked -> bool {
    (one: Asked) => Scores(w, cs, log, cls, one)
  }

  /** What the world says of the answer at a request, and what is charged for it. */
  ghost predicate ChargedTold<S>(w: World, c: Candidate<S>, log: Log, one: Asked, r: real) {
    && w.best(one).Some? && w.price(one, Says(c, log, one)).Priced?
    && var best, price := w.best(one).value, w.price(one, Says(c, log, one)).felt;
       (best <= price ==> best + r == price) && (price <= best ==> r == 0.0)
  }

  lemma {:induction false} ToldAreCharged<S>(w: World, cs: map<string, Candidate<S>>, log: Log, n: string, cls: string, requests: seq<Asked>)
    requires n in cs.Keys
    ensures var f, regrets := Filter(requests, ScoresOf(w, cs, log, cls)), RegretsTold(w, cs, log, n, cls, requests);
      |regrets| == |f| && forall i :: 0 <= i < |f| ==> ChargedTold(w, cs[n], log, f[i], regrets[i])
    decreases |requests|
  {
    if requests != [] {
      var front, one := requests[..|requests| - 1], requests[|requests| - 1];
      ToldAreCharged(w, cs, log, n, cls, front);
      assert requests == front + [one];
      FilterSnoc(front, one, ScoresOf(w, cs, log, cls));
    }
  }

  /** Every candidate but those to do has answered every request. */
  ghost predicate AnsweredBut<S>(cs: map<string, Candidate<S>>, log: Log, requests: seq<Asked>, said: map<string, seq<string>>, todo: set<string>) {
    && todo <= cs.Keys && said.Keys == cs.Keys - todo
    && forall n, i :: n in cs.Keys - todo && 0 <= i < |requests| ==> ToldAt(cs[n], log, requests[i], said[n])
  }

  lemma OneMoreAnswers<S>(cs: map<string, Candidate<S>>, log: Log, requests: seq<Asked>, said: map<string, seq<string>>, todo: set<string>,
                          n: string, answers: seq<string>)
    requires AnsweredBut(cs, log, requests, said, todo) && n in todo
    requires forall i :: 0 <= i < |requests| ==> ToldAt(cs[n], log, requests[i], answers)
    ensures AnsweredBut(cs, log, requests, said[n := answers], todo - {n})
  {
  }

  /** One pass for each candidate over the same log, in any order, and then the bill: the regrets of each are those
      of its answers told from the log, over the requests where all candidates count. */
  method ReplayAll<S>(w: World, cs: map<string, Candidate<S>>, log: Log, requests: seq<Asked>) returns (bills: map<string, Account>)
    requires InOrder(requests)
    ensures bills.Keys == cs.Keys
    ensures forall n, cls :: n in cs.Keys ==> BillTold(w, cs, log, requests, n, cls, TallyOf(bills[n], cls))
    ensures forall n, cls :: n in cs.Keys ==> |TallyOf(bills[n], cls).regret| == |Filter(requests, ScoresOf(w, cs, log, cls))|
    ensures forall n, cls, i :: n in cs.Keys && 0 <= i < |TallyOf(bills[n], cls).regret| ==>
      var one, r := Filter(requests, ScoresOf(w, cs, log, cls))[i], TallyOf(bills[n], cls).regret[i];
      && w.best(one).Some? && w.price(one, Says(cs[n], log, one)).Priced?
      && var best, price := w.best(one).value, w.price(one, Says(cs[n], log, one)).felt;
         (best <= price ==> best + r == price) && (price <= best ==> r == 0.0)
  {
    var said: map<string, seq<string>> := map[];
    var todo := cs.Keys;
    while todo != {}
      invariant AnsweredBut(cs, log, requests, said, todo)
      decreases |todo|
    {
      var n :| n in todo;
      var c := cs[n];
      var answers := AnswersOf(c.teach, c.demand, c.init, log.rows, requests, log.journal);
      OneMoreAnswers(cs, log, requests, said, todo, n, answers);
      said := said[n := answers];
      todo := todo - {n};
    }
    ToldIsAnswered(cs, log, requests, said);
    bills := DrawBill(w, requests, said);
    forall n, cls | n in cs.Keys ensures BillTold(w, cs, log, requests, n, cls, TallyOf(bills[n], cls)) {
      BillIsTold(w, cs, log, requests, said, n, cls);
    }
    forall n, cls | n in cs.Keys
      ensures var f, regrets := Filter(requests, ScoresOf(w, cs, log, cls)), TallyOf(bills[n], cls).regret;
        |regrets| == |f| && forall i :: 0 <= i < |f| ==> ChargedTold(w, cs[n], log, f[i], regrets[i])
    {
      ToldAreCharged(w, cs, log, n, cls, requests);
    }
  }
}
