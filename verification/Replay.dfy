/**
 The offline replay of machine choosers: one ordered stream of what happened, one pass over it
 per candidate, and one bill over the requests that every candidate answered.

 The world's prices, the rows of the log and the candidates themselves are given; a candidate is
 any state with any way of being taught and any way of being asked.
 */
module Replay {
  import opened Sorting

  /** One finished or unfinished call of the log, with what its draw says of it. */
  datatype Row = Row(at: real, finished: bool, model: string, machine: string, cls: string,
                     refused: bool, timed: bool, censored: bool)

  /** One entry of the lane journal. */
  datatype Entry = Entry(at: real, row: string, weight: real)

  /** One replayed request. `index` is its place in the replayable set. */
  datatype Asked = Asked(index: nat, at: real, model: string, cls: string, machine: string,
                         cached: nat, run: string, node: string)

  datatype Lesson = Saw(row: Row) | Judged(row: Row, refused: bool) | Published(entry: Entry)

  datatype Moment = Ask(at: real, request: Asked) | Teach(at: real, lesson: Lesson)

  // ----- the stream

  function Asks(requests: seq<Asked>): seq<Moment> {
    if requests == [] then [] else [Ask(requests[0].at, requests[0])] + Asks(requests[1..])
  }

  /** What one row teaches: a refusal is judged and nothing else; a timed answer is seen; an answer
      nobody cut off is judged usable. */
  function LessonsOf(row: Row): seq<Moment> {
    if !row.finished || row.model == "" || row.machine == "" then []
    else if row.refused then [Teach(row.at, Judged(row, true))]
    else (if row.timed then [Teach(row.at, Saw(row))] else []) +
         (if row.censored then [] else [Teach(row.at, Judged(row, false))])
  }

  function RowLessons(rows: seq<Row>): seq<Moment> {
    if rows == [] then [] else LessonsOf(rows[0]) + RowLessons(rows[1..])
  }

  function JournalLessons(journal: seq<Entry>): seq<Moment> {
    if journal == [] then [] else [Teach(journal[0].at, Published(journal[0]))] + JournalLessons(journal[1..])
  }

  /** Everything the log and the journal teach, in the order they were read. */
  function Lessons(rows: seq<Row>, journal: seq<Entry>): seq<Moment> { RowLessons(rows) + JournalLessons(journal) }

  function When(m: Moment): real { m.at }

  predicate IsTeach(m: Moment) { m.Teach? }

  function TaughtBefore(t: real): Moment -> bool { (m: Moment) => m.Teach? && m.at < t }

  /** The lessons stamped strictly before a moment, in the order of their stamps. */
  function TaughtBy(rows: seq<Row>, journal: seq<Entry>, t: real): seq<Moment> {
    StableSort(Filter(Lessons(rows, journal), TaughtBefore(t)), When)
  }

  /** The whole ordered stream. */
  function Stream(rows: seq<Row>, requests: seq<Asked>, journal: seq<Entry>): seq<Moment> {
    StableSort(Asks(requests) + Lessons(rows, journal), When)
  }

  lemma {:induction false} AsksAppend(requests: seq<Asked>, one: Asked)
    ensures Asks(requests + [one]) == Asks(requests) + [Ask(one.at, one)]
  {
    if requests != [] {
      assert (requests + [one])[1..] == requests[1..] + [one];
      AsksAppend(requests[1..], one);
    }
  }

  lemma {:induction false} RowLessonsAppend(rows: seq<Row>, row: Row)
    ensures RowLessons(rows + [row]) == RowLessons(rows) + LessonsOf(row)
  {
    if rows == [] {
      assert rows + [row] == [row];
      assert RowLessons([row]) == LessonsOf(row) + [];
    } else {
      assert (rows + [row])[1..] == rows[1..] + [row];
      RowLessonsAppend(rows[1..], row);
    }
  }

  lemma {:induction false} JournalAppend(journal: seq<Entry>, e: Entry)
    ensures JournalLessons(journal + [e]) == JournalLessons(journal) + [Teach(e.at, Published(e))]
  {
    if journal != [] {
      assert (journal + [e])[1..] == journal[1..] + [e];
      JournalAppend(journal[1..], e);
    }
  }

  method LayAsks(requests: seq<Asked>) returns (stream: seq<Moment>)
    ensures stream == Asks(requests)
  {
    stream := [];
    for i := 0 to |requests|
      invariant stream == Asks(requests[..i])
    {
      stream := stream + [Ask(requests[i].at, requests[i])];
      AsksAppend(requests[..i], requests[i]);
      assert requests[..i] + [requests[i]] == requests[..i + 1];
    }
    assert requests[..|requests|] == requests;
  }

  lemma RowLessonsUpTo(rows: seq<Row>, i: nat)
    requires i < |rows|
    ensures RowLessons(rows[..i + 1]) == RowLessons(rows[..i]) + LessonsOf(rows[i])
  {
    RowLessonsAppend(rows[..i], rows[i]);
    assert rows[..i] + [rows[i]] == rows[..i + 1];
  }

  // What a row that was not refused teaches, laid one after the other.
  lemma TwoLessons(stream: seq<Moment>, row: Row)
    requires row.finished && row.model != "" && row.machine != "" && !row.refused
    ensures stream + LessonsOf(row) ==
      var laid := if row.timed then stream + [Teach(row.at, Saw(row))] else stream;
      if row.censored then laid else laid + [Teach(row.at, Judged(row, false))]
  {
  }

  method LayRows(rows: seq<Row>) returns (stream: seq<Moment>)
    ensures stream == RowLessons(rows)
  {
    stream := [];
    for i := 0 to |rows|
      invariant stream == RowLessons(rows[..i])
    {
      var row := rows[i];
      RowLessonsUpTo(rows, i);
      if !row.finished || row.model == "" || row.machine == "" {
        continue;
      }
      if row.refused {
        stream := stream + [Teach(row.at, Judged(row, true))];
        continue;
      }
      TwoLessons(stream, row);
      if row.timed {
        stream := stream + [Teach(row.at, Saw(row))];
      }
      if !row.censored {
        stream := stream + [Teach(row.at, Judged(row, false))];
      }
    }
    assert rows[..|rows|] == rows;
  }

  method LayJournal(journal: seq<Entry>) returns (stream: seq<Moment>)
    ensures stream == JournalLessons(journal)
  {
    stream := [];
    for i := 0 to |journal|
      invariant stream == JournalLessons(journal[..i])
    {
      stream := stream + [Teach(journal[i].at, Published(journal[i]))];
      JournalAppend(journal[..i], journal[i]);
      assert journal[..i] + [journal[i]] == journal[..i + 1];
    }
    assert journal[..|journal|] == journal;
  }

  /** Requests are laid down first, then what the rows teach, then the journal; the sort is stable. What is in the
      stream is told here from the log alone: each question once for its request, each lesson once for the row or the
      journal entry that gives it, at its own stamp, and of a row's lessons exactly those it gives. */
  method MomentsOf(rows: seq<Row>, requests: seq<Asked>, journal: seq<Entry>) returns (stream: seq<Moment>)
    ensures stream == Stream(rows, requests, journal)
    ensures forall i, j :: 0 <= i < j < |stream| ==> stream[i].at <= stream[j].at
    ensures forall t: real, one :: multiset(stream)[Ask(t, one)] == if t == one.at then multiset(requests)[one] else 0
    ensures forall t: real, row :: multiset(stream)[Teach(t, Judged(row, true))] ==
              (if t == row.at && row.finished && row.model != "" && row.machine != "" && row.refused
               then multiset(rows)[row] else 0)
    ensures forall t: real, row :: multiset(stream)[Teach(t, Saw(row))] ==
              (if t == row.at && row.finished && row.model != "" && row.machine != "" && !row.refused && row.timed
               then multiset(rows)[row] else 0)
    ensures forall t: real, row :: multiset(stream)[Teach(t, Judged(row, false))] ==
              (if t == row.at && row.finished && row.model != "" && row.machine != "" && !row.refused && !row.censored
               then multiset(rows)[row] else 0)
    ensures forall t: real, e :: multiset(stream)[Teach(t, Published(e))] == if t == e.at then multiset(journal)[e] else 0
  {
    var asks := LayAsks(requests);
    var taught := LayRows(rows);
    var published := LayJournal(journal);
    stream := StableSort(asks + (taught + published), When);
    AsksCounted(rows, requests, journal);
    RowsCounted(rows, requests, journal);
    JournalCounted(rows, requests, journal);
    SortSorted(asks + (taught + published), When);
    forall i, j | 0 <= i < j < |stream| ensures stream[i].at <= stream[j].at {
      assert When(stream[i]) <= When(stream[j]);
    }
  }

  // ----- what is in the stream, counted

  lemma CountCons<T>(s: seq<T>, x: T)
    requires s != []
    ensures multiset(s)[x] == (if s[0] == x then 1 else 0) + multiset(s[1..])[x]
  {
    assert s == [s[0]] + s[1..];
  }

  lemma CountConcat<T>(a: seq<T>, b: seq<T>, x: T)
    ensures multiset(a + b)[x] == multiset(a)[x] + multiset(b)[x]
  {
  }

  lemma CountNone<T>(s: seq<T>, x: T)
    requires forall i :: 0 <= i < |s| ==> s[i] != x
    ensures multiset(s)[x] == 0
  {
    assert x !in s;
  }

  lemma ThreeParts(rows: seq<Row>, requests: seq<Asked>, journal: seq<Entry>, m: Moment)
    ensures multiset(Stream(rows, requests, journal))[m] ==
      multiset(Asks(requests))[m] + multiset(RowLessons(rows))[m] + multiset(JournalLessons(journal))[m]
  {
    SortPermutes(Asks(requests) + Lessons(rows, journal), When);
    CountConcat(Asks(requests), Lessons(rows, journal), m);
    CountConcat(RowLessons(rows), JournalLessons(journal), m);
  }

  lemma {:induction false} AskCounted(requests: seq<Asked>, t: real, one: Asked)
    ensures multiset(Asks(requests))[Ask(t, one)] == if t == one.at then multiset(requests)[one] else 0
  {
    if requests != [] {
      AskCounted(requests[1..], t, one);
      CountCons(requests, one);
      CountCons(Asks(requests), Ask(t, one));
    }
  }

  lemma {:induction false} PublishedCounted(journal: seq<Entry>, t: real, e: Entry)
    ensures multiset(JournalLessons(journal))[Teach(t, Published(e))] == if t == e.at then multiset(journal)[e] else 0
  {
    if journal != [] {
      PublishedCounted(journal[1..], t, e);
      CountCons(journal, e);
      CountCons(JournalLessons(journal), Teach(t, Published(e)));
    }
  }

  // Whether a row gives a lesson about itself.
  predicate Gives(row: Row, m: Moment) {
    && m.Teach? && m.at == row.at && row.finished && row.model != "" && row.machine != ""
    && match m.lesson
       case Saw(_) => !row.refused && row.timed
       case Judged(_, refused) => row.refused == refused && (refused || !row.censored)
       case Published(_) => false
  }

  lemma RowCounted(it: Row, row: Row, m: Moment)
    requires m.Teach? && !m.lesson.Published? && m.lesson.row == row
    ensures multiset(LessonsOf(it))[m] == if it == row && Gives(row, m) then 1 else 0
  {
    CountConcat(if it.timed then [Teach(it.at, Saw(it))] else [],
                if it.censored then [] else [Teach(it.at, Judged(it, false))], m);
  }

  lemma {:induction false} LessonCounted(rows: seq<Row>, row: Row, m: Moment)
    requires m.Teach? && !m.lesson.Published? && m.lesson.row == row
    ensures multiset(RowLessons(rows))[m] == if Gives(row, m) then multiset(rows)[row] else 0
  {
    if rows != [] {
      LessonCounted(rows[1..], row, m);
      RowCounted(rows[0], row, m);
      CountCons(rows, row);
      CountConcat(LessonsOf(rows[0]), RowLessons(rows[1..]), m);
    }
  }

  lemma {:induction false} RowLessonsOnly(rows: seq<Row>)
    ensures forall i :: 0 <= i < |RowLessons(rows)| ==> RowLessons(rows)[i].Teach? && !RowLessons(rows)[i].lesson.Published?
  {
    if rows != [] {
      RowLessonsOnly(rows[1..]);
    }
  }

  lemma {:induction false} JournalLessonsOnly(journal: seq<Entry>)
    ensures forall i :: 0 <= i < |JournalLessons(journal)| ==>
      JournalLessons(journal)[i].Teach? && JournalLessons(journal)[i].lesson.Published?
  {
    if journal != [] {
      JournalLessonsOnly(journal[1..]);
    }
  }

  lemma {:induction false} AsksOnly(requests: seq<Asked>)
    ensures |Asks(requests)| == |requests|
    ensures forall i :: 0 <= i < |requests| ==> Asks(requests)[i] == Ask(requests[i].at, requests[i])
  {
    if requests != [] {
      AsksOnly(requests[1..]);
    }
  }

  lemma AsksCounted(rows: seq<Row>, requests: seq<Asked>, journal: seq<Entry>)
    ensures forall t: real, one :: multiset(Stream(rows, requests, journal))[Ask(t, one)] ==
              (if t == one.at then multiset(requests)[one] else 0)
  {
    RowLessonsOnly(rows);
    JournalLessonsOnly(journal);
    forall t: real, one ensures multiset(Stream(rows, requests, journal))[Ask(t, one)] ==
      (if t == one.at then multiset(requests)[one] else 0)
    {
      ThreeParts(rows, requests, journal, Ask(t, one));
      CountNone(RowLessons(rows), Ask(t, one));
      CountNone(JournalLessons(journal), Ask(t, one));
      AskCounted(requests, t, one);
    }
  }

  lemma OneLessonCounted(rows: seq<Row>, requests: seq<Asked>, journal: seq<Entry>, row: Row, m: Moment)
    requires m.Teach? && !m.lesson.Published? && m.lesson.row == row
    ensures multiset(Stream(rows, requests, journal))[m] == if Gives(row, m) then multiset(rows)[row] else 0
  {
    AsksOnly(requests);
    JournalLessonsOnly(journal);
    ThreeParts(rows, requests, journal, m);
    CountNone(Asks(requests), m);
    CountNone(JournalLessons(journal), m);
    LessonCounted(rows, row, m);
  }

  lemma RowsCounted(rows: seq<Row>, requests: seq<Asked>, journal: seq<Entry>)
    ensures forall t: real, row :: multiset(Stream(rows, requests, journal))[Teach(t, Saw(row))] ==
              (if Gives(row, Teach(t, Saw(row))) then multiset(rows)[row] else 0)
    ensures forall t: real, row, refused :: multiset(Stream(rows, requests, journal))[Teach(t, Judged(row, refused))] ==
              (if Gives(row, Teach(t, Judged(row, refused))) then multiset(rows)[row] else 0)
  {
    forall t: real, row ensures multiset(Stream(rows, requests, journal))[Teach(t, Saw(row))] ==
      (if Gives(row, Teach(t, Saw(row))) then multiset(rows)[row] else 0)
    {
      OneLessonCounted(rows, requests, journal, row, Teach(t, Saw(row)));
    }
    forall t: real, row, refused ensures multiset(Stream(rows, requests, journal))[Teach(t, Judged(row, refused))] ==
      (if Gives(row, Teach(t, Judged(row, refused))) then multiset(rows)[row] else 0)
    {
      OneLessonCounted(rows, requests, journal, row, Teach(t, Judged(row, refused)));
    }
  }

  lemma JournalCounted(rows: seq<Row>, requests: seq<Asked>, journal: seq<Entry>)
    ensures forall t: real, e :: multiset(Stream(rows, requests, journal))[Teach(t, Published(e))] ==
              (if t == e.at then multiset(journal)[e] else 0)
  {
    AsksOnly(requests);
    RowLessonsOnly(rows);
    forall t: real, e ensures multiset(Stream(rows, requests, journal))[Teach(t, Published(e))] ==
      (if t == e.at then multiset(journal)[e] else 0)
    {
      ThreeParts(rows, requests, journal, Teach(t, Published(e)));
      CountNone(Asks(requests), Teach(t, Published(e)));
      CountNone(RowLessons(rows), Teach(t, Published(e)));
      PublishedCounted(journal, t, e);
    }
  }

  // ----- a pass

  /** A candidate's state after the moments: it is taught at a lesson and unmoved by a question. */
  function Learned<S>(teach: (S, Lesson) -> S, init: S, s: seq<Moment>): S
    decreases |s|
  {
    if s == [] then init
    else
      var before := Learned(teach, init, s[..|s| - 1]);
      var m := s[|s| - 1];
      if m.Teach? then teach(before, m.lesson) else before
  }

  ghost predicate Numbered(stream: seq<Moment>, total: nat) {
    && (forall k :: 0 <= k < |stream| && stream[k].Ask? ==> stream[k].request.index < total)
    && (forall j, k :: 0 <= j < k < |stream| && stream[j].Ask? && stream[k].Ask? ==>
          stream[j].request.index != stream[k].request.index)
  }

  ghost predicate NotAsked(stream: seq<Moment>, index: nat) {
    forall k :: 0 <= k < |stream| && stream[k].Ask? ==> stream[k].request.index != index
  }

  lemma LearnedUpTo<S>(teach: (S, Lesson) -> S, init: S, stream: seq<Moment>, n: nat)
    requires n < |stream|
    ensures Learned(teach, init, stream[..n + 1])
         == if stream[n].Teach? then teach(Learned(teach, init, stream[..n]), stream[n].lesson) else Learned(teach, init, stream[..n])
  {
    assert stream[..n + 1][..n] == stream[..n];
  }

  /** One walk of the stream: every answer is the candidate asked in the state the moments before
      it left it in, and a request the stream does not hold stays unanswered. */
  method Pass<S>(teach: (S, Lesson) -> S, demand: (S, Asked) -> string, init: S, stream: seq<Moment>, total: nat)
    returns (said: seq<string>)
    requires Numbered(stream, total)
    ensures |said| == total
    ensures forall k :: 0 <= k < |stream| && stream[k].Ask? ==>
      said[stream[k].request.index] == demand(Learned(teach, init, stream[..k]), stream[k].request)
    ensures forall i :: 0 <= i < total && NotAsked(stream, i) ==> said[i] == ""
  {
    said := seq(total, i => "");
    var state := init;
    for n := 0 to |stream|
      invariant state == Learned(teach, init, stream[..n])
      invariant |said| == total
      invariant forall k :: 0 <= k < n && stream[k].Ask? ==>
        said[stream[k].request.index] == demand(Learned(teach, init, stream[..k]), stream[k].request)
      invariant forall i :: 0 <= i < total && NotAsked(stream, i) ==> said[i] == ""
    {
      var one := stream[n];
      LearnedUpTo(teach, init, stream, n);
      if one.Teach? {
        state := teach(state, one.lesson);
      } else {
        said := said[one.request.index := demand(state, one.request)];
      }
    }
    assert stream[..|stream|] == stream;
  }

  // ----- no hindsight

  /** Of two moments with one stamp, a question never comes after a lesson. */
  ghost predicate AsksFirst(s: seq<Moment>) {
    forall i, j :: 0 <= i < j < |s| && s[i].Teach? && s[i].at == s[j].at ==> s[j].Teach?
  }

  lemma {:induction false} InsertAsk(x: Moment, s: seq<Moment>)
    requires Sorted(s, When) && AsksFirst(s) && x.Ask?
    ensures AsksFirst(Insert(x, s, When))
  {
    if s != [] && When(s[0]) < When(x) {
      InsertAsk(x, s[1..]);
      var r := Insert(x, s[1..], When);
      InsertPermutes(x, s[1..], When);
      forall j | 0 <= j < |r| && s[0].Teach? && s[0].at == r[j].at ensures r[j].Teach? {
        assert r[j] in multiset(r);
        assert r[j] == x || r[j] in s[1..];
      }
    }
  }

  lemma {:induction false} SortAsksFirst(asks: seq<Moment>, lessons: seq<Moment>)
    requires forall i :: 0 <= i < |asks| ==> asks[i].Ask?
    requires forall i :: 0 <= i < |lessons| ==> lessons[i].Teach?
    ensures AsksFirst(StableSort(asks + lessons, When))
  {
    if asks == [] {
      assert asks + lessons == lessons;
      SortPermutes(lessons, When);
      var r := StableSort(lessons, When);
      forall j | 0 <= j < |r| ensures r[j].Teach? {
        assert r[j] in multiset(r);
        assert r[j] in lessons;
      }
    } else {
      assert (asks + lessons)[1..] == asks[1..] + lessons;
      SortAsksFirst(asks[1..], lessons);
      SortSorted(asks[1..] + lessons, When);
      InsertAsk(asks[0], StableSort(asks[1..] + lessons, When));
    }
  }

  /** In an ordered stream with questions first, what was taught before a question is exactly what
      is stamped strictly before it. */
  lemma TaughtSoFar(r: seq<Moment>, k: nat)
    requires Sorted(r, When) && AsksFirst(r) && k < |r| && r[k].Ask?
    ensures Filter(r[..k], IsTeach) == Filter(r, TaughtBefore(r[k].at))
  {
    var p := TaughtBefore(r[k].at);
    assert r == r[..k] + r[k..];
    FilterConcat(r[..k], r[k..], p);
    forall i | 0 <= i < |r[k..]| ensures !p(r[k..][i]) {
      assert r[k..][i] == r[k + i];
      assert When(r[k]) <= When(r[k + i]);
    }
    FilterNone(r[k..], p);
    forall i | 0 <= i < |r[..k]| ensures IsTeach(r[..k][i]) == p(r[..k][i]) {
      assert r[..k][i] == r[i] && When(r[i]) <= When(r[k]);
    }
    FilterSame(r[..k], IsTeach, p);
  }

  lemma {:induction false} LearnedTaught<S>(teach: (S, Lesson) -> S, init: S, s: seq<Moment>)
    ensures Learned(teach, init, s) == Learned(teach, init, Filter(s, IsTeach))
    decreases |s|
  {
    if s != [] {
      var front, m := s[..|s| - 1], s[|s| - 1];
      LearnedTaught(teach, init, front);
      assert s == front + [m];
      FilterConcat(front, [m], IsTeach);
      var f := Filter(front, IsTeach);
      if m.Teach? {
        assert Filter([m], IsTeach) == [m];
        assert (f + [m])[..|f + [m]| - 1] == f;
      } else {
        assert Filter([m], IsTeach) == [];
        assert f + [] == f;
      }
    }
  }

  lemma {:induction false} LessonsOnly(rows: seq<Row>, journal: seq<Entry>)
    ensures forall i :: 0 <= i < |Lessons(rows, journal)| ==> Lessons(rows, journal)[i].Teach?
  {
    RowLessonsOnly(rows);
    JournalLessonsOnly(journal);
  }

  /** NO HINDSIGHT. At any question of the stream, the candidate has been taught exactly the lessons
      stamped strictly before it, in the order of their stamps, and nothing else. */
  lemma NoHindsight<S>(teach: (S, Lesson) -> S, init: S, rows: seq<Row>, requests: seq<Asked>, journal: seq<Entry>, k: nat)
    requires k < |Stream(rows, requests, journal)| && Stream(rows, requests, journal)[k].Ask?
    ensures var stream := Stream(rows, requests, journal);
      Learned(teach, init, stream[..k]) == Learned(teach, init, TaughtBy(rows, journal, stream[k].at))
  {
    var asks, lessons := Asks(requests), Lessons(rows, journal);
    var stream := Stream(rows, requests, journal);
    var p := TaughtBefore(stream[k].at);
    AsksOnly(requests);
    LessonsOnly(rows, journal);
    SortAsksFirst(asks, lessons);
    SortSorted(asks + lessons, When);
    TaughtSoFar(stream, k);
    SortFilter(asks + lessons, When, p);
    FilterConcat(asks, lessons, p);
    FilterNone(asks, p);
    assert [] + Filter(lessons, p) == Filter(lessons, p);
    LearnedTaught(teach, init, stream[..k]);
    LearnedTaught(teach, init, StableSort(Filter(lessons, p), When));
    TaughtIsTaught(lessons, p);
  }

  lemma TaughtIsTaught(lessons: seq<Moment>, p: Moment -> bool)
    requires forall i :: 0 <= i < |lessons| ==> lessons[i].Teach?
    ensures Filter(StableSort(Filter(lessons, p), When), IsTeach) == StableSort(Filter(lessons, p), When)
  {
    FilterMembers(lessons, p);
    SortPermutes(Filter(lessons, p), When);
    var r := StableSort(Filter(lessons, p), When);
    forall i | 0 <= i < |r| ensures IsTeach(r[i]) {
      assert r[i] in multiset(r);
      assert r[i] in Filter(lessons, p);
    }
    FilterAll(r, IsTeach);
  }

  // ----- the stream asks every request once

  predicate InOrder(requests: seq<Asked>) {
    forall i :: 0 <= i < |requests| ==> requests[i].index == i
  }

  function HasIndex(index: nat): Moment -> bool { (m: Moment) => m.Ask? && m.request.index == index }

  lemma {:induction false} OneOfIndex(requests: seq<Asked>, base: nat, index: nat)
    requires forall i :: 0 <= i < |requests| ==> requests[i].index == base + i
    requires base <= index < base + |requests|
    ensures Filter(Asks(requests), HasIndex(index)) == [Ask(requests[index - base].at, requests[index - base])]
  {
    if index == base {
      AsksOnly(requests[1..]);
      FilterNone(Asks(requests[1..]), HasIndex(index));
    } else {
      OneOfIndex(requests[1..], base + 1, index);
    }
  }

  lemma {:induction false} OnceFiltered<T>(s: seq<T>, p: T -> bool, j: nat, k: nat)
    requires j <= k < |s| && p(s[j]) && p(s[k]) && |Filter(s, p)| == 1
    ensures j == k && Filter(s, p) == [s[k]]
  {
    if j == 0 {
      FilterMembers(s[1..], p);
      assert forall i :: 1 <= i < |s| ==> s[i] == s[1..][i - 1];
    } else {
      FilterMembers(s[1..], p);
      assert s[1..][j - 1] == s[j] && s[1..][k - 1] == s[k];
      assert s[j] in Filter(s[1..], p);
      OnceFiltered(s[1..], p, j - 1, k - 1);
    }
  }

  lemma StreamOfIndex(rows: seq<Row>, requests: seq<Asked>, journal: seq<Entry>, index: nat)
    requires InOrder(requests) && index < |requests|
    ensures Filter(Stream(rows, requests, journal), HasIndex(index)) == [Ask(requests[index].at, requests[index])]
  {
    var asks, lessons, p := Asks(requests), Lessons(rows, journal), HasIndex(index);
    SortFilter(asks + lessons, When, p);
    FilterConcat(asks, lessons, p);
    LessonsOnly(rows, journal);
    FilterNone(lessons, p);
    OneOfIndex(requests, 0, index);
    var one := [Ask(requests[index].at, requests[index])];
    assert one + [] == one;
    assert Sorted(one, When);
    SortOfSorted(one, When);
  }

  lemma StreamInRange(rows: seq<Row>, requests: seq<Asked>, journal: seq<Entry>, k: nat)
    requires InOrder(requests) && k < |Stream(rows, requests, journal)| && Stream(rows, requests, journal)[k].Ask?
    ensures Stream(rows, requests, journal)[k].request.index < |requests|
  {
    AsksOnly(requests);
    LessonsOnly(rows, journal);
    FromBoth(Asks(requests), Lessons(rows, journal), Stream(rows, requests, journal)[k]);
  }

  lemma FromBoth(asks: seq<Moment>, lessons: seq<Moment>, m: Moment)
    requires m in StableSort(asks + lessons, When)
    ensures m in asks || m in lessons
  {
    SortPermutes(asks + lessons, When);
    assert m in multiset(StableSort(asks + lessons, When));
    assert m in asks + lessons;
  }

  lemma StreamOnce(rows: seq<Row>, requests: seq<Asked>, journal: seq<Entry>, j: nat, k: nat)
    requires InOrder(requests) && j < k < |Stream(rows, requests, journal)|
    requires Stream(rows, requests, journal)[j].Ask? && Stream(rows, requests, journal)[k].Ask?
    ensures Stream(rows, requests, journal)[j].request.index != Stream(rows, requests, journal)[k].request.index
  {
    var stream := Stream(rows, requests, journal);
    var index := stream[k].request.index;
    if stream[j].request.index == index {
      StreamInRange(rows, requests, journal, k);
      StreamOfIndex(rows, requests, journal, index);
      OnceFiltered(stream, HasIndex(index), j, k);
    }
  }

  lemma StreamNumbered(rows: seq<Row>, requests: seq<Asked>, journal: seq<Entry>)
    requires InOrder(requests)
    ensures Numbered(Stream(rows, requests, journal), |requests|)
  {
    var stream := Stream(rows, requests, journal);
    forall k | 0 <= k < |stream| && stream[k].Ask? ensures stream[k].request.index < |requests| {
      StreamInRange(rows, requests, journal, k);
    }
    forall j, k | 0 <= j < k < |stream| && stream[j].Ask? && stream[k].Ask?
      ensures stream[j].request.index != stream[k].request.index
    {
      StreamOnce(rows, requests, journal, j, k);
    }
  }

  lemma StreamHolds(rows: seq<Row>, requests: seq<Asked>, journal: seq<Entry>, index: nat) returns (k: nat)
    requires InOrder(requests) && index < |requests|
    ensures k < |Stream(rows, requests, journal)|
    ensures Stream(rows, requests, journal)[k] == Ask(requests[index].at, requests[index])
  {
    var stream := Stream(rows, requests, journal);
    StreamOfIndex(rows, requests, journal, index);
    FilterMembers(stream, HasIndex(index));
    var f := Filter(stream, HasIndex(index));
    assert f[0] in stream;
    k :| 0 <= k < |stream| && stream[k] == f[0];
  }

  /** One candidate over one log, start to finish: every request is answered by the candidate as the
      lessons stamped strictly before that request, and only those, left it. */
  method AnswersOf<S>(teach: (S, Lesson) -> S, demand: (S, Asked) -> string, init: S,
                      rows: seq<Row>, requests: seq<Asked>, journal: seq<Entry>) returns (said: seq<string>)
    requires InOrder(requests)
    ensures |said| == |requests|
    ensures forall i :: 0 <= i < |requests| ==>
      said[i] == demand(Learned(teach, init, TaughtBy(rows, journal, requests[i].at)), requests[i])
  {
    var stream := MomentsOf(rows, requests, journal);
    StreamNumbered(rows, requests, journal);
    said := Pass(teach, demand, init, stream, |requests|);
    forall i | 0 <= i < |requests| ensures
      said[i] == demand(Learned(teach, init, TaughtBy(rows, journal, requests[i].at)), requests[i])
    {
      var k := StreamHolds(rows, requests, journal, i);
      NoHindsight(teach, init, rows, requests, journal, k);
      assert stream[k].request.index == i;
    }
  }
}
