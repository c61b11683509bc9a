/**
 What single runs of the guard come to, told by the three things on the box: the directory, the flock and the processes.
 Nothing here is about interleaving; `SuiteLock` is.
 */
module SuiteSteps {
  import opened Wrappers
  import opened SuiteLock

  /** The directory names a live process that is no unmarked bystander. */
  predicate NamesTheLiving(b: Box) {
    && b.dir.Held? && b.dir.name.Named? && b.dir.name.pid in b.procs
    && b.procs[b.dir.name.pid] != Bystander(false)
  }

  /** An old checkout that finds the directory is turned away, and nothing else changes, exactly when the directory names
      the living; else it goes on, and has changed nothing yet. */
  lemma OldIsTurnedAway(b: Box, p: Pid)
    requires p in b.procs && b.procs[p] == Old(OldBegin) && b.dir.Held?
    ensures Exec(b, [Mkdir(p), Judge(p)]) ==
      Some(if NamesTheLiving(b) then Box(b.dir, b.flock - {p}, b.procs - {p})
           else Box(b.dir, b.flock, b.procs[p := Old(OldJudged)]))
  {
    var b1 := Box(b.dir, b.flock, b.procs[p := Old(OldAsked)]);
    ExecStep(b, Mkdir(p), [Judge(p)]);
    ExecStep(b1, Judge(p), []);
    assert b1.procs - {p} == b.procs - {p};
    assert b1.procs[p := Old(OldJudged)] == b.procs[p := Old(OldJudged)];
  }

  /** So is a wrapper that finds the directory and gets the flock; turned away, it leaves the flock free. */
  lemma WrapperIsTurnedAway(b: Box, w: Pid)
    requires w in b.procs && b.procs[w] == Wrapper(Begin) && b.dir.Held? && b.flock == {}
    ensures Exec(b, [Mkdir(w), Lock(w), Judge(w)]) ==
      Some(if NamesTheLiving(b) then Box(b.dir, {}, b.procs - {w})
           else Box(b.dir, {w}, b.procs[w := Wrapper(Judged)]))
  {
    var b1 := Box(b.dir, {}, b.procs[w := Wrapper(Asked(false))]);
    var b2 := Box(b.dir, {w}, b.procs[w := Wrapper(Locked(false))]);
    ExecStep(b, Mkdir(w), [Lock(w), Judge(w)]);
    assert b1.procs[w := Wrapper(Locked(false))] == b2.procs;
    ExecStep(b1, Lock(w), [Judge(w)]);
    ExecStep(b2, Judge(w), []);
    assert b2.procs - {w} == b.procs - {w} && {w} - {w} == {};
    assert b2.procs[w := Wrapper(Judged)] == b.procs[w := Wrapper(Judged)];
  }

  /** A wrapper that made the directory and finds the flock held takes its own directory away again and is gone. */
  lemma BusyFlockUndoesTheClaim(b: Box, w: Pid)
    requires w in b.procs && b.procs[w] == Wrapper(Begin) && b.dir.Absent? && b.flock != {} && w !in b.flock
    ensures Exec(b, [Mkdir(w), Write(w), Lock(w)]) == Some(Box(Absent, b.flock, b.procs - {w}))
  {
    var b1 := Box(Held(Nobody), b.flock, b.procs[w := Wrapper(Made)]);
    var b2 := Box(Held(Named(w)), b.flock, b.procs[w := Wrapper(Asked(true))]);
    ExecStep(b, Mkdir(w), [Write(w), Lock(w)]);
    assert b1.procs[w := Wrapper(Asked(true))] == b2.procs;
    ExecStep(b1, Write(w), [Lock(w)]);
    ExecStep(b2, Lock(w), []);
    assert b2.procs - {w} == b.procs - {w} && b.flock - {w} == b.flock;
  }

  /** Of two that make the directory, the second finds it made: it is turned away or asks who holds it. */
  lemma OneMakes(b: Box, p: Pid, q: Pid)
    requires p in b.procs && q in b.procs && p != q && b.dir.Absent?
    requires b.procs[p] in {Old(OldBegin), Old(OldCleared), Wrapper(Begin), Wrapper(Cleared)}
    requires b.procs[q] in {Old(OldBegin), Old(OldCleared), Wrapper(Begin), Wrapper(Cleared)}
    ensures var after := Exec(b, [Mkdir(p), Mkdir(q)]);
      && after.Some? && after.value.dir == Held(Nobody) && p in after.value.procs
      && after.value.procs[p] in {Old(OldMade), Wrapper(Made), Wrapper(Remade)}
      && (b.procs[q] in {Old(OldCleared), Wrapper(Cleared)} <==> q !in after.value.procs)
      && (b.procs[q] == Old(OldBegin) ==> after.value.procs[q] == Old(OldAsked))
      && (b.procs[q] == Wrapper(Begin) ==> after.value.procs[q] == Wrapper(Asked(false)))
  {
    var b1 := Next(b, Mkdir(p)).value;
    ExecStep(b, Mkdir(p), [Mkdir(q)]);
    ExecStep(b1, Mkdir(q), []);
  }

  lemma HandsOver(b: Box, w: Pid, h: Pid)
    requires w in b.procs && h !in b.procs && b.procs[w] == Wrapper(Owning) && b.dir.Held? && b.flock == {w}
    ensures Exec(b, [Hand(w, h), Write(h)]) ==
      Some(Box(Held(Named(h)), {w, h}, b.procs[h := Holder(w, true)][w := Wrapper(Waiting)]))
  {
    var b1 := Box(b.dir, {w, h}, b.procs[w := Wrapper(Handed(h))][h := Holder(w, false)]);
    ExecStep(b, Hand(w, h), [Write(h)]);
    assert {w} + {h} == {w, h} && Next(b, Hand(w, h)) == Some(b1);
    ExecStep(b1, Write(h), []);
    assert b1.procs[h := Holder(w, true)][w := Wrapper(Waiting)] == b.procs[h := Holder(w, true)][w := Wrapper(Waiting)];
  }

  /** A wrapper in charge hands over: the holder names itself, and from then on the wrapper may go, of its own accord or
      killed; the flock stays with the holder and the directory names it. */
  lemma HolderOutlivesWrapper(b: Box, w: Pid, h: Pid, go: Event)
    requires w in b.procs && h !in b.procs && b.procs[w] == Wrapper(Owning) && b.dir.Held? && b.flock == {w}
    requires go in {Kill(w), Leave(w)}
    ensures Exec(b, [Hand(w, h), Write(h)] + [go]) == Some(Box(Held(Named(h)), {h}, b.procs - {w} + map[h := Holder(w, true)]))
  {
    var after := Box(Held(Named(h)), {w, h}, b.procs[h := Holder(w, true)][w := Wrapper(Waiting)]);
    HandsOver(b, w, h);
    ExecSplit(b, [Hand(w, h), Write(h)], [go]);
    ExecStep(after, go, []);
    assert after.procs - {w} == b.procs - {w} + map[h := Holder(w, true)];
    assert {w, h} - {w} == {h};
  }

  /** The whole life of a suite: a wrapper comes to a free box, claims, locks, hands over, and both go of their own
      accord. The box is as it was, the directory gone and the flock free. */
  lemma WholeLife(b: Box, w: Pid, h: Pid)
    requires b.flock == {} && w !in b.procs && h !in b.procs && w != h && Free(b, w)
    ensures Exec(b, Solo(b, w) + ([Hand(w, h), Write(h)] + [Close(w), Leave(h), Leave(w)])) == Some(Box(Absent, {}, b.procs))
  {
    var c := Box(Held(Named(w)), {w}, b.procs[w := Wrapper(Owning)]);
    SoloOutcome(b, w);
    ExecSplit(b, Solo(b, w), [Hand(w, h), Write(h)] + [Close(w), Leave(h), Leave(w)]);
    HandsOver(c, w, h);
    ExecSplit(c, [Hand(w, h), Write(h)], [Close(w), Leave(h), Leave(w)]);
    assert c.procs[h := Holder(w, true)][w := Wrapper(Waiting)] == b.procs[w := Wrapper(Waiting)][h := Holder(w, true)];
    BothGo(b, w, h);
  }

  lemma BothGo(b: Box, w: Pid, h: Pid)
    requires w !in b.procs && h !in b.procs && w != h
    ensures Exec(Box(Held(Named(h)), {w, h}, b.procs[w := Wrapper(Waiting)][h := Holder(w, true)]), [Close(w), Leave(h), Leave(w)]) ==
      Some(Box(Absent, {}, b.procs))
  {
    var c := Box(Held(Named(h)), {w, h}, b.procs[w := Wrapper(Waiting)][h := Holder(w, true)]);
    var d := Box(Absent, {}, b.procs[w := Wrapper(Waiting)]);
    ExecStep(c, Close(w), [Leave(h), Leave(w)]);
    assert {w, h} - {w} == {h} && {h} - {h} == {};
    assert Next(c, Close(w)) == Some(c.(flock := {h}));
    ExecStep(c.(flock := {h}), Leave(h), [Leave(w)]);
    assert c.procs - {h} == d.procs;
    assert Next(c.(flock := {h}), Leave(h)) == Some(d);
    ExecStep(d, Leave(w), []);
    assert d.procs - {w} == b.procs && {} - {w} == d.flock;
  }

  /** Naming lands in whatever directory is there, and in none where there is none; an old checkout that has lost the
      directory it made is gone with that, and nobody else is. */
  lemma NamesWhatIsThere(b: Box, p: Pid)
    requires p in b.procs && Next(b, Write(p)).Some?
    ensures var n := Next(b, Write(p)).value;
      && n.dir == (if b.dir.Held? then Held(Named(p)) else Absent)
      && (p !in n.procs <==> b.procs[p] == Old(OldMade) && b.dir.Absent?)
      && (b.procs[p] == Old(OldMade) && b.dir.Held? ==> n.procs[p] == Old(OldRunning))
  {
  }

  /** Whoever is killed leaves the directory as it is and lets go of the flock, and nobody else is touched. */
  lemma KillsLeaveTheDirectory(b: Box, p: Pid)
    requires p in b.procs
    ensures Next(b, Kill(p)) == Some(Box(b.dir, b.flock - {p}, b.procs - {p}))
  {
  }

  /** Who takes the directory along when leaving: an old checkout whatever it names, a wrapper or a named holder only
      its own, and a wrapper that has handed over or never made it not at all. */
  lemma LeavesTheDirectory(b: Box, p: Pid)
    requires p in b.procs && Next(b, Leave(p)).Some?
    ensures var dir := Next(b, Leave(p)).value.dir;
      match b.procs[p]
      case Bystander(_) => dir == b.dir
      case Old(_) => dir == Absent
      case Holder(_, named) => named && (dir == Absent <==> b.dir in {Absent, Held(Named(p))})
      case Wrapper(pc) =>
        if pc in {Owning, Asked(true), Locked(true)} then dir == Absent <==> b.dir in {Absent, Held(Named(p))}
        else dir == b.dir
  {
  }
}
