/**
 The two-lock guard of the heavy suite: a kernel flock that current trees take, and a
 directory that is its shadow for checkouts which know nothing of the flock.
 */
module SuiteLock {
  import opened Wrappers

  // The box is a step system. Every event is one thing one process (or the kernel) does, and
  // `Next` says what the box is afterwards, or that the event cannot happen. Runs are sequences
  // of events, so every interleaving of wrappers, holders, old checkouts, kills and reused pids
  // is a run. Reading the holder and judging it, moving the directory aside, making a new one
  // and naming it are separate events, as they are separate system calls in the program.

  type Pid = n: int | 0 < n witness 1

  /** What the directory's pid file says: nothing readable, something that is no pid, or a pid. */
  datatype Name = Nobody | Junk | Named(pid: Pid)

  /** The lock directory: one name on disk. */
  datatype Dir = Absent | Held(name: Name)

  /** Where an old checkout's script stands. */
  datatype OldPc = OldBegin | OldAsked | OldJudged | OldCleared | OldMade | OldRunning

  /** Where a current wrapper stands. `taken` is whether the directory is its own. */
  datatype WrapPc =
    | Begin
    | Made
    | Asked(taken: bool)
    | Locked(taken: bool)
    | Judged
    | Cleared
    | Remade
    | Owning
    | Handed(holder: Pid)
    | Waiting

  /** A live process. A bystander is anything else on the box; its command line may still carry
      the mark, and its pid may be one that some lock file remembers. */
  datatype Role =
    | Bystander(mark: bool)
    | Old(opc: OldPc)
    | Wrapper(wpc: WrapPc)
    | Holder(parent: Pid, named: bool)

  datatype Box = Box(dir: Dir, flock: set<Pid>, procs: map<Pid, Role>)

  datatype Event =
    | Spawn(p: Pid, role: Role)
    | Kill(p: Pid)
    | Mkdir(p: Pid)
    | Write(p: Pid)
    | Lock(p: Pid)
    | Judge(p: Pid)
    | Move(p: Pid)
    | Launch(p: Pid)
    | Hand(p: Pid, h: Pid)
    | Close(p: Pid)
    | Leave(p: Pid)

  // ----- what a reader sees

  predicate Marked(r: Role) { r.Bystander? ==> r.mark }

  /** The liveness test old and current trees share: the pid exists and its command line carries
      the mark. Nothing written, or no pid, is nobody. */
  predicate HolderAlive(procs: map<Pid, Role>, name: Name) {
    name.Named? && name.pid in procs && Marked(procs[name.pid])
  }

  function Read(dir: Dir): Name { if dir.Held? then dir.name else Nobody }

  /** Writing the pid file: it lands in whatever directory has the name, or nowhere. */
  function Written(dir: Dir, p: Pid): Dir { if dir.Held? then Held(Named(p)) else Absent }

  /** Dropping the directory touches it only while it still names the owner. */
  function Dropped(dir: Dir, p: Pid): Dir { if Read(dir) == Named(p) then Absent else dir }

  // ----- one step

  function Gone(b: Box, p: Pid): Box { b.(procs := b.procs - {p}, flock := b.flock - {p}) }

  function At(b: Box, p: Pid, r: Role): Box { b.(procs := b.procs[p := r]) }

  function Next(b: Box, e: Event): Option<Box> {
    if e.Spawn? then
      if e.p !in b.procs && (e.role.Bystander? || e.role in {Old(OldBegin), Wrapper(Begin)})
      then Some(At(b, e.p, e.role)) else None
    else if e.p !in b.procs then None
    else match e
      case Kill(p) => Some(Gone(b, p))
      case Mkdir(p) => NextMkdir(b, p)
      case Write(p) => NextWrite(b, p)
      case Lock(p) => NextLock(b, p)
      case Judge(p) => NextJudge(b, p)
      case Move(p) =>
        if b.procs[p] == Wrapper(Judged) then Some(At(b, p, Wrapper(Cleared)).(dir := Absent))
        else if b.procs[p] == Old(OldJudged) then Some(At(b, p, Old(OldCleared)).(dir := Absent))
        else None
      case Launch(p) =>
        if b.procs[p] == Wrapper(Locked(true)) then Some(At(b, p, Wrapper(Owning))) else None
      case Hand(p, h) =>
        if b.procs[p] == Wrapper(Owning) && h !in b.procs
        then Some(b.(procs := b.procs[p := Wrapper(Handed(h))][h := Holder(p, false)], flock := b.flock + {h}))
        else None
      case Close(p) =>
        if b.procs[p].Wrapper? && (b.procs[p].wpc.Handed? || b.procs[p].wpc.Waiting?)
        then Some(b.(flock := b.flock - {p})) else None
      case Leave(p) => NextLeave(b, p)
  }

  /** mkdir makes the directory or says that somebody else did. */
  function NextMkdir(b: Box, p: Pid): Option<Box>
    requires p in b.procs
  {
    var made := b.(dir := Held(Nobody));
    match b.procs[p]
    case Wrapper(Begin) => Some(if b.dir.Absent? then At(made, p, Wrapper(Made)) else At(b, p, Wrapper(Asked(false))))
    case Wrapper(Cleared) => Some(if b.dir.Absent? then At(made, p, Wrapper(Remade)) else Gone(b, p))
    case Old(OldBegin) => Some(if b.dir.Absent? then At(made, p, Old(OldMade)) else At(b, p, Old(OldAsked)))
    case Old(OldCleared) => Some(if b.dir.Absent? then At(made, p, Old(OldMade)) else Gone(b, p))
    case _ => None
  }

  /** Naming the directory. A holder that names itself is from then on the one in charge. */
  function NextWrite(b: Box, p: Pid): Option<Box>
    requires p in b.procs
  {
    var named := b.(dir := Written(b.dir, p));
    match b.procs[p]
    case Wrapper(Made) => Some(At(named, p, Wrapper(Asked(true))))
    case Wrapper(Remade) => Some(At(named, p, Wrapper(Locked(true))))
    case Old(OldMade) => Some(if b.dir.Held? then At(named, p, Old(OldRunning)) else Gone(b, p))
    case Holder(w, false) =>
      var up := At(named, p, Holder(w, true));
      Some(if w in b.procs && b.procs[w] == Wrapper(Handed(p)) then At(up, w, Wrapper(Waiting)) else up)
    case _ => None
  }

  /** The flock is tried once; a run that finds it busy undoes the directory it made and is gone. */
  function NextLock(b: Box, p: Pid): Option<Box>
    requires p in b.procs
  {
    if b.procs[p].Wrapper? && b.procs[p].wpc.Asked? then
      var taken := b.procs[p].wpc.taken;
      Some(if b.flock == {} then At(b, p, Wrapper(Locked(taken))).(flock := {p})
           else if taken then Gone(b, p).(dir := Dropped(b.dir, p)) else Gone(b, p))
    else None
  }

  /** A directory that was there is judged: a live holder turns the run away. */
  function NextJudge(b: Box, p: Pid): Option<Box>
    requires p in b.procs
  {
    var alive := HolderAlive(b.procs, Read(b.dir));
    match b.procs[p]
    case Wrapper(Locked(taken)) =>
      if taken then None else Some(if alive then Gone(b, p) else At(b, p, Wrapper(Judged)))
    case Old(OldAsked) => Some(if alive then Gone(b, p) else At(b, p, Old(OldJudged)))
    case _ => None
  }

  /** Leaving of its own accord. A wrapper undoes only what it still owns; a holder drops the
      directory that still names it; an old checkout removes the name without looking. */
  function NextLeave(b: Box, p: Pid): Option<Box>
    requires p in b.procs
  {
    match b.procs[p]
    case Bystander(_) => Some(Gone(b, p))
    case Old(pc) => if pc.OldRunning? then Some(Gone(b, p).(dir := Absent)) else None
    case Wrapper(pc) =>
      if pc.Owning? || ((pc.Asked? || pc.Locked?) && pc.taken) then Some(Gone(b, p).(dir := Dropped(b.dir, p)))
      else if pc.Asked? || pc.Locked? || pc.Handed? || pc.Waiting? then Some(Gone(b, p))
      else None
    case Holder(_, named) => if named then Some(Gone(b, p).(dir := Dropped(b.dir, p))) else None
  }

  // ----- runs

  function Exec(b: Box, es: seq<Event>): Option<Box>
    decreases |es|
  {
    if es == [] then Some(b)
    else var n := Next(b, es[0]);
      if n.None? then None else Exec(n.value, es[1..])
  }

  /** A box nobody is using: whatever directory an earlier day left behind, the flock free, and
      no process of the scheme. */
  predicate Idle(b: Box) {
    b.flock == {} && forall p | p in b.procs :: b.procs[p].Bystander?
  }

  /** The process in charge of a running suite. */
  predicate Owner(r: Role) {
    r == Old(OldRunning) || r == Wrapper(Owning) || (r.Wrapper? && r.wpc.Handed?) || (r.Holder? && r.named)
  }

  /** A process that holds the directory by name, in charge or about to be. */
  predicate Claims(r: Role) {
    Owner(r) || (r.Wrapper? && (r.wpc == Asked(true) || r.wpc == Locked(true)))
  }

  /** A process between its mkdir and the write that names it. */
  predicate Making(r: Role) { r in {Wrapper(Made), Wrapper(Remade), Old(OldMade)} }

  /** Processes whose place in the program means they hold the flock. */
  predicate NeedsFlock(r: Role) {
    r.Holder? || (r.Wrapper? && (r.wpc.Locked? || r.wpc in {Judged, Cleared, Remade, Owning}))
  }

  /** A process that may share the locked descriptor. */
  predicate MayShare(r: Role) {
    NeedsFlock(r) || (r.Wrapper? && (r.wpc.Handed? || r.wpc.Waiting?))
  }

  /** A live holder of `w`'s that has not yet named itself. */
  ghost predicate FreshHolderOf(b: Box, w: Pid) {
    exists h :: h in b.procs && b.procs[h] == Holder(w, false)
  }

  /** No holder is still to name itself. */
  ghost predicate NoFreshHolder(b: Box) {
    forall h :: h in b.procs ==> !(b.procs[h].Holder? && !b.procs[h].named)
  }

  // ----- the two windows the several system calls leave open

  /** A move that carries off a directory somebody is holding or making by now. */
  ghost predicate MoveHitsClaim(b: Box, e: Event) {
    e.Move? && b.dir.Held? && exists q :: q in b.procs && (Claims(b.procs[q]) || Making(b.procs[q]))
  }

  /** A wrapper that goes before the holder it started has named itself. */
  ghost predicate GoesBeforeHolder(b: Box, e: Event) {
    (e.Kill? || e.Leave?) && FreshHolderOf(b, e.p)
  }

  /** A run on which the first window, the second, or both stay shut. */
  ghost predicate Shut(b: Box, es: seq<Event>, first: bool, second: bool)
    requires Exec(b, es).Some?
    decreases |es|
  {
    es == [] ||
    (&& (first ==> !MoveHitsClaim(b, es[0]))
     && (second ==> !GoesBeforeHolder(b, es[0]))
     && Shut(Next(b, es[0]).value, es[1..], first, second))
  }

  ghost predicate Undisturbed(b: Box, es: seq<Event>)
    requires Exec(b, es).Some?
  {
    Shut(b, es, true, true)
  }

  // ----- invariants

  /** At most one process is past the flock, and whoever must hold it does. */
  ghost predicate FlockOk(b: Box) {
    && (forall p :: p in b.flock ==> p in b.procs && MayShare(b.procs[p]))
    && (forall p :: p in b.procs && NeedsFlock(b.procs[p]) ==> p in b.flock)
    && (forall p, q :: p in b.procs && q in b.procs && NeedsFlock(b.procs[p]) && NeedsFlock(b.procs[q]) ==> p == q)
    && (forall p :: p in b.procs && b.procs[p].Wrapper? && NeedsFlock(b.procs[p]) ==> b.flock == {p})
  }

  /** Whoever holds the directory is the pid in it, and whoever is making it is alone. */
  ghost predicate DirOk(b: Box) {
    && (forall p :: p in b.procs && Claims(b.procs[p]) ==> b.dir == Held(Named(p)))
    && (forall p :: p in b.procs && Making(b.procs[p]) ==> b.dir == Held(Nobody))
    && (forall p, q :: p in b.procs && q in b.procs && Making(b.procs[p]) && Making(b.procs[q]) ==> p == q)
    && (forall h :: h in b.procs && b.procs[h].Holder? && !b.procs[h].named ==>
          b.procs[h].parent in b.procs && b.procs[b.procs[h].parent] == Wrapper(Handed(h)))
  }

  // A process that changes its place without gaining the flock, the directory moving or not.
  lemma FlockAt(b: Box, p: Pid, r: Role, dir: Dir)
    requires FlockOk(b) && p in b.procs
    requires NeedsFlock(r) ==> NeedsFlock(b.procs[p])
    requires NeedsFlock(r) && r.Wrapper? ==> b.procs[p].Wrapper?
    requires MayShare(b.procs[p]) ==> MayShare(r)
    ensures FlockOk(At(b, p, r).(dir := dir))
  {
  }

  lemma FlockGone(b: Box, p: Pid, dir: Dir)
    requires FlockOk(b)
    ensures FlockOk(Gone(b, p).(dir := dir))
  {
  }

  lemma FlockStep(b: Box, e: Event)
    requires FlockOk(b) && Next(b, e).Some?
    ensures FlockOk(Next(b, e).value)
  {
    var n := Next(b, e).value;
    if e.Hand? {
      FlockHand(b, e.p, e.h);
    } else if e.Spawn? || e.Close? || (e.Lock? && b.flock == {}) {
      FlockGiven(b, e);
    } else if e.p !in n.procs {
      FlockGone(b, e.p, n.dir);
    } else if e.Write? && b.procs[e.p].Holder? {
      FlockHolderWrites(b, e.p);
    } else {
      FlockAt(b, e.p, n.procs[e.p], n.dir);
    }
  }

  lemma FlockHand(b: Box, p: Pid, h: Pid)
    requires FlockOk(b) && Next(b, Hand(p, h)).Some?
    ensures FlockOk(Next(b, Hand(p, h)).value)
  {
  }

  lemma FlockGiven(b: Box, e: Event)
    requires FlockOk(b) && Next(b, e).Some?
    requires e.Spawn? || e.Close? || (e.Lock? && b.flock == {})
    ensures FlockOk(Next(b, e).value)
  {
  }

  lemma FlockHolderWrites(b: Box, h: Pid)
    requires FlockOk(b) && h in b.procs && b.procs[h].Holder? && NextWrite(b, h).Some?
    ensures FlockOk(NextWrite(b, h).value)
  {
    var w := b.procs[h].parent;
    var up := b.(procs := b.procs[h := Holder(w, true)], dir := Written(b.dir, h));
    FlockAt(b, h, Holder(w, true), Written(b.dir, h));
    if w in b.procs && b.procs[w] == Wrapper(Handed(h)) {
      FlockAt(up, w, Wrapper(Waiting), up.dir);
    }
  }

  // A process that changes its place and claims nothing it did not claim before.
  lemma DirAt(b: Box, p: Pid, r: Role)
    requires DirOk(b) && p in b.procs && !FreshHolderOf(b, p)
    requires Claims(r) ==> Claims(b.procs[p])
    requires !Making(r) && !r.Holder?
    ensures DirOk(At(b, p, r))
  {
  }

  lemma DirGone(b: Box, p: Pid)
    requires DirOk(b) && !FreshHolderOf(b, p)
    ensures DirOk(Gone(b, p))
  {
  }

  /** Dropping is safe beside everybody else: the directory changes only if it named the one who goes. */
  lemma DirDrop(b: Box, p: Pid)
    requires DirOk(b) && p in b.procs && !FreshHolderOf(b, p)
    ensures DirOk(Gone(b, p).(dir := Dropped(b.dir, p)))
  {
    DirGone(b, p);
  }

  // A process makes the directory where there was none.
  lemma DirMake(b: Box, p: Pid, r: Role)
    requires DirOk(b) && p in b.procs && b.dir.Absent? && Making(r)
    requires !(b.procs[p].Wrapper? && b.procs[p].wpc.Handed?) && !b.procs[p].Holder?
    ensures DirOk(At(b, p, r).(dir := Held(Nobody)))
  {
    NobodyThere(b);
  }

  lemma NobodyThere(b: Box)
    requires DirOk(b) && b.dir.Absent?
    ensures forall q :: q in b.procs ==> !Claims(b.procs[q]) && !Making(b.procs[q])
    ensures NoFreshHolder(b)
  {
  }

  // The maker writes its name.
  lemma DirName(b: Box, p: Pid, r: Role)
    requires DirOk(b) && p in b.procs && Making(b.procs[p]) && Claims(r) && !r.Holder?
    ensures DirOk(At(b, p, r).(dir := Held(Named(p))))
  {
  }

  // A directory nobody holds or makes is carried off.
  lemma DirMoved(b: Box, p: Pid, r: Role)
    requires DirOk(b) && p in b.procs && r in {Wrapper(Cleared), Old(OldCleared)}
    requires b.procs[p] in {Wrapper(Judged), Old(OldJudged)}
    requires b.dir.Held? ==> forall q :: q in b.procs ==> !Claims(b.procs[q]) && !Making(b.procs[q])
    ensures DirOk(At(b, p, r).(dir := Absent))
  {
  }

  lemma DirHand(b: Box, p: Pid, h: Pid)
    requires DirOk(b) && Next(b, Hand(p, h)).Some?
    ensures DirOk(Next(b, Hand(p, h)).value)
  {
  }

  lemma DirHolderWrites(b: Box, h: Pid)
    requires DirOk(b) && h in b.procs && b.procs[h].Holder? && !b.procs[h].named
    ensures NextWrite(b, h).Some? && DirOk(NextWrite(b, h).value)
  {
    var w := b.procs[h].parent;
    assert b.procs[w] == Wrapper(Handed(h)) && b.dir == Held(Named(w)) && w != h;
    assert NextWrite(b, h).value == Box(Held(Named(h)), b.flock, b.procs[h := Holder(w, true)][w := Wrapper(Waiting)]);
    OnlyClaimant(b, w);
    DirPassed(b, w, h);
  }

  lemma OnlyClaimant(b: Box, w: Pid)
    requires DirOk(b) && w in b.procs && Claims(b.procs[w])
    ensures forall q :: q in b.procs && q != w ==> !Claims(b.procs[q])
    ensures forall q :: q in b.procs ==> !Making(b.procs[q])
  {
  }

  // The directory passes from a wrapper to the holder it waits for.
  lemma DirPassed(b: Box, w: Pid, h: Pid)
    requires h in b.procs && w in b.procs && w != h && b.procs[w] == Wrapper(Handed(h))
    requires forall q :: q in b.procs && q != w ==> !Claims(b.procs[q])
    requires forall q :: q in b.procs ==> !Making(b.procs[q])
    requires forall q :: q in b.procs && q != h ==> !(b.procs[q].Holder? && !b.procs[q].named)
    ensures DirOk(Box(Held(Named(h)), b.flock, b.procs[h := Holder(w, true)][w := Wrapper(Waiting)]))
  {
  }

  lemma DirStep(b: Box, e: Event)
    requires DirOk(b) && Next(b, e).Some?
    requires !MoveHitsClaim(b, e) && !GoesBeforeHolder(b, e)
    ensures DirOk(Next(b, e).value)
  {
    match e
    case Spawn(p, role) => assert !FreshHolderOf(b, p);
    case Hand(p, h) => DirHand(b, p, h);
    case Close(p) =>
    case Write(p) =>
      if b.procs[p].Holder? {
        DirHolderWrites(b, p);
      } else {
        DirName(b, p, Next(b, e).value.procs[p]);
      }
    case Move(p) => DirMoved(b, p, Next(b, e).value.procs[p]);
    case _ => DirOther(b, e);
  }

  /** Only a wrapper that has handed over has a holder that is still to name itself. */
  lemma NoHolderYet(b: Box, p: Pid)
    requires DirOk(b) && p in b.procs && !(b.procs[p].Wrapper? && b.procs[p].wpc.Handed?)
    ensures !FreshHolderOf(b, p)
  {
    assert forall h :: h in b.procs && b.procs[h] == Holder(p, false) ==> b.procs[p] == Wrapper(Handed(h));
  }

  lemma DirOther(b: Box, e: Event)
    requires DirOk(b) && Next(b, e).Some? && !GoesBeforeHolder(b, e)
    requires e.Kill? || e.Mkdir? || e.Lock? || e.Judge? || e.Launch? || e.Leave?
    ensures DirOk(Next(b, e).value)
  {
    match e
    case Kill(p) => DirGone(b, p);
    case Leave(p) => DirLeaves(b, p);
    case Mkdir(p) => DirMkdirs(b, p);
    case Lock(p) => DirLocks(b, p);
    case Judge(p) => DirJudges(b, p);
    case Launch(p) => NoHolderYet(b, p); DirAt(b, p, Wrapper(Owning));
    case _ =>
  }

  lemma DirMkdirs(b: Box, p: Pid)
    requires DirOk(b) && p in b.procs && NextMkdir(b, p).Some?
    ensures DirOk(NextMkdir(b, p).value)
  {
    NoHolderYet(b, p);
    var n := NextMkdir(b, p).value;
    if b.dir.Absent? {
      DirMake(b, p, n.procs[p]);
    } else if p in n.procs {
      DirAt(b, p, n.procs[p]);
    } else {
      DirGone(b, p);
    }
  }

  lemma DirLocks(b: Box, p: Pid)
    requires DirOk(b) && p in b.procs && NextLock(b, p).Some?
    ensures DirOk(NextLock(b, p).value)
  {
    NoHolderYet(b, p);
    if b.flock == {} {
      DirAt(b, p, Wrapper(Locked(b.procs[p].wpc.taken)));
    } else {
      DirGone(b, p);
      DirDrop(b, p);
    }
  }

  lemma DirJudges(b: Box, p: Pid)
    requires DirOk(b) && p in b.procs && NextJudge(b, p).Some?
    ensures DirOk(NextJudge(b, p).value)
  {
    NoHolderYet(b, p);
    var n := NextJudge(b, p).value;
    if p in n.procs {
      DirAt(b, p, n.procs[p]);
    } else {
      DirGone(b, p);
    }
  }

  lemma DirLeaves(b: Box, p: Pid)
    requires DirOk(b) && p in b.procs && NextLeave(b, p).Some? && !FreshHolderOf(b, p)
    ensures DirOk(NextLeave(b, p).value)
  {
    DirDrop(b, p);
    DirGone(b, p);
    DirOldLeaves(b, p);
  }

  /** An old checkout removes the name without looking, and the name it removes is its own. */
  lemma DirOldLeaves(b: Box, p: Pid)
    requires DirOk(b) && p in b.procs
    ensures b.procs[p] == Old(OldRunning) ==> b.dir == Held(Named(p)) && DirOk(Gone(b, p).(dir := Absent))
  {
  }

  // ----- whole runs

  lemma {:induction false} FlockRun(b: Box, es: seq<Event>)
    requires FlockOk(b) && Exec(b, es).Some?
    ensures FlockOk(Exec(b, es).value)
    decreases |es|
  {
    if es != [] {
      FlockStep(b, es[0]);
      FlockRun(Next(b, es[0]).value, es[1..]);
    }
  }

  lemma {:induction false} DirRun(b: Box, es: seq<Event>)
    requires DirOk(b) && Exec(b, es).Some? && Undisturbed(b, es)
    ensures DirOk(Exec(b, es).value)
    decreases |es|
  {
    if es != [] {
      DirStep(b, es[0]);
      DirRun(Next(b, es[0]).value, es[1..]);
    }
  }

  /** EVERY RUN, DISTURBED OR NOT: at most one current tree is ever past the flock. */
  lemma OneCurrentTree(b: Box, es: seq<Event>, p: Pid, q: Pid)
    requires Idle(b) && Exec(b, es).Some?
    requires p in Exec(b, es).value.procs && q in Exec(b, es).value.procs
    requires NeedsFlock(Exec(b, es).value.procs[p]) && NeedsFlock(Exec(b, es).value.procs[q])
    ensures p == q
  {
    FlockRun(b, es);
  }

  /** EVERY RUN THAT LEAVES THE TWO WINDOWS ALONE: a process in charge is alive, carries the mark,
      is exactly the pid the directory names, and so is the only one in charge; if it is a current
      tree's holder, or a wrapper with no holder yet, it also holds the flock. */
  lemma OneOwner(b: Box, es: seq<Event>, p: Pid)
    requires Idle(b) && Exec(b, es).Some? && Undisturbed(b, es)
    requires p in Exec(b, es).value.procs && Owner(Exec(b, es).value.procs[p])
    ensures var n := Exec(b, es).value;
      && Marked(n.procs[p])
      && n.dir == Held(Named(p))
      && (forall q :: q in n.procs && Owner(n.procs[q]) ==> q == p)
      && (NeedsFlock(n.procs[p]) ==> p in n.flock)
  {
    FlockRun(b, es);
    DirRun(b, es);
  }

  // ----- the windows are real: each one alone lets two runs own the suite

  ghost predicate TwoOwners(b: Box) {
    exists p, q :: p in b.procs && q in b.procs && p != q && Owner(b.procs[p]) && Owner(b.procs[q])
  }

  lemma ExecStep(b: Box, e: Event, es: seq<Event>)
    requires Next(b, e).Some?
    ensures Exec(b, [e] + es) == Exec(Next(b, e).value, es)
  {
    assert ([e] + es)[1..] == es;
  }

  lemma {:induction false} ExecSplit(b: Box, xs: seq<Event>, ys: seq<Event>)
    requires Exec(b, xs).Some?
    ensures Exec(b, xs + ys) == Exec(Exec(b, xs).value, ys)
    decreases |xs|
  {
    if xs == [] {
      assert xs + ys == ys;
    } else {
      assert (xs + ys)[1..] == xs[1..] + ys && (xs + ys)[0] == xs[0];
      ExecSplit(Next(b, xs[0]).value, xs[1..], ys);
    }
  }

  lemma {:induction false} ShutSplit(b: Box, xs: seq<Event>, ys: seq<Event>, first: bool, second: bool)
    requires Exec(b, xs).Some? && Exec(Exec(b, xs).value, ys).Some?
    requires Shut(b, xs, first, second) && Shut(Exec(b, xs).value, ys, first, second)
    ensures Exec(b, xs + ys).Some? && Shut(b, xs + ys, first, second)
    decreases |xs|
  {
    ExecSplit(b, xs, ys);
    if xs == [] {
      assert xs + ys == ys;
    } else {
      assert (xs + ys)[1..] == xs[1..] + ys && (xs + ys)[0] == xs[0];
      ShutSplit(Next(b, xs[0]).value, xs[1..], ys, first, second);
    }
  }

  /** A window needs its event: a run without moves shuts the first, one without kills and leaves
      the second. */
  lemma {:induction false} ShutByEvents(b: Box, es: seq<Event>, first: bool, second: bool)
    requires Exec(b, es).Some?
    requires first ==> forall i :: 0 <= i < |es| ==> !es[i].Move?
    requires second ==> forall i :: 0 <= i < |es| ==> !es[i].Kill? && !es[i].Leave?
    ensures Shut(b, es, first, second)
    decreases |es|
  {
    if es != [] {
      ShutByEvents(Next(b, es[0]).value, es[1..], first, second);
    }
  }

  /** What an old checkout does when it finds a directory it judges dead, undisturbed. */
  function OldTakes(p: Pid): seq<Event> { [Mkdir(p), Judge(p)] + [Move(p), Mkdir(p), Write(p)] }

  lemma OldJudges(b: Box, p: Pid)
    requires p in b.procs && b.procs[p] == Old(OldBegin) && b.dir.Held? && !HolderAlive(b.procs, b.dir.name)
    ensures Exec(b, [Mkdir(p), Judge(p)]) == Some(At(b, p, Old(OldJudged)))
  {
    var b1 := At(b, p, Old(OldAsked));
    assert Next(b, Mkdir(p)) == Some(b1);
    assert Next(b1, Judge(p)).value.procs == b.procs[p := Old(OldJudged)];
    ExecStep(b1, Judge(p), []);
    ExecStep(b, Mkdir(p), [Judge(p)]);
  }

  lemma OldMoves(b: Box, p: Pid)
    requires p in b.procs && b.procs[p] == Old(OldJudged)
    ensures Exec(b, [Move(p), Mkdir(p), Write(p)]) == Some(At(b, p, Old(OldRunning)).(dir := Held(Named(p))))
    ensures !MoveHitsClaim(b, Move(p)) ==> Shut(b, [Move(p), Mkdir(p), Write(p)], true, true)
  {
    var b1 := Box(Absent, b.flock, b.procs[p := Old(OldCleared)]);
    var b2 := Box(Held(Nobody), b.flock, b.procs[p := Old(OldMade)]);
    assert Next(b, Move(p)) == Some(b1);
    assert Next(b1, Mkdir(p)).value.procs == b2.procs && Next(b1, Mkdir(p)) == Some(b2);
    assert Next(b2, Write(p)).value.procs == b.procs[p := Old(OldRunning)];
    ExecStep(b2, Write(p), []);
    ExecStep(b1, Mkdir(p), [Write(p)]);
    ExecStep(b, Move(p), [Mkdir(p), Write(p)]);
    ShutByEvents(b1, [Mkdir(p), Write(p)], true, true);
    assert [Move(p), Mkdir(p), Write(p)][1..] == [Mkdir(p), Write(p)];
  }

  lemma OldTakesOver(b: Box, p: Pid)
    requires p in b.procs && b.procs[p] == Old(OldBegin) && b.dir.Held? && !HolderAlive(b.procs, b.dir.name)
    ensures Exec(b, OldTakes(p)) == Some(At(b, p, Old(OldRunning)).(dir := Held(Named(p))))
    ensures (forall q :: q in b.procs ==> !Claims(b.procs[q]) && !Making(b.procs[q])) ==> Shut(b, OldTakes(p), true, false)
  {
    var b1 := At(b, p, Old(OldJudged));
    OldJudges(b, p);
    OldMoves(b1, p);
    ExecSplit(b, [Mkdir(p), Judge(p)], [Move(p), Mkdir(p), Write(p)]);
    assert At(b1, p, Old(OldRunning)).procs == At(b, p, Old(OldRunning)).procs;
    if forall q :: q in b.procs ==> !Claims(b.procs[q]) && !Making(b.procs[q]) {
      ShutByEvents(b, [Mkdir(p), Judge(p)], true, true);
      Weaken(b, [Mkdir(p), Judge(p)]);
      Weaken(b1, [Move(p), Mkdir(p), Write(p)]);
      ShutSplit(b, [Mkdir(p), Judge(p)], [Move(p), Mkdir(p), Write(p)], true, false);
    }
  }

  lemma {:induction false} Weaken(b: Box, es: seq<Event>)
    requires Exec(b, es).Some? && Shut(b, es, true, true)
    ensures Shut(b, es, true, false)
    decreases |es|
  {
    if es != [] {
      Weaken(Next(b, es[0]).value, es[1..]);
    }
  }

  /** The first window on any box: a dead directory and two old checkouts that both want it. */
  function LateMove(p: Pid, q: Pid): seq<Event> {
    [Mkdir(p), Judge(p)] + OldTakes(q) + [Move(p), Mkdir(p), Write(p)]
  }

  lemma LateMoveRuns(b: Box, p: Pid, q: Pid)
    requires p in b.procs && q in b.procs && p != q
    requires b.procs[p] == Old(OldBegin) && b.procs[q] == Old(OldBegin)
    requires b.dir.Held? && !HolderAlive(b.procs, b.dir.name)
    ensures Exec(b, LateMove(p, q)).Some? && TwoOwners(Exec(b, LateMove(p, q)).value)
  {
    OldJudges(b, p);
    var b1 := At(b, p, Old(OldJudged));
    OldTakesOver(b1, q);
    var b2 := At(b1, q, Old(OldRunning)).(dir := Held(Named(q)));
    OldMoves(b2, p);
    ExecSplit(b, [Mkdir(p), Judge(p)], OldTakes(q));
    ExecSplit(b, [Mkdir(p), Judge(p)] + OldTakes(q), [Move(p), Mkdir(p), Write(p)]);
    var b3 := At(b2, p, Old(OldRunning)).(dir := Held(Named(p)));
    assert Owner(b3.procs[p]) && Owner(b3.procs[q]);
  }

  /** Judging and moving are two calls. A run that takes the directory between another's two is
      carried off by the move, and both are in charge: the first window alone, the second shut. */
  lemma LateMoveBreaksExclusion()
    ensures exists b, es :: Idle(b) && Exec(b, es).Some? && Shut(b, es, false, true) && TwoOwners(Exec(b, es).value)
  {
    var b := Box(Held(Junk), {}, map[]);
    var b1 := Box(Held(Junk), {}, map[1 := Old(OldBegin)]);
    var b2 := Box(Held(Junk), {}, map[1 := Old(OldBegin), 2 := Old(OldBegin)]);
    var tail := LateMove(1, 2);
    LateMoveRuns(b2, 1, 2);
    assert Next(b1, Spawn(2, Old(OldBegin))) == Some(b2);
    ExecStep(b1, Spawn(2, Old(OldBegin)), tail);
    ExecStep(b, Spawn(1, Old(OldBegin)), [Spawn(2, Old(OldBegin))] + tail);
    var es := [Spawn(1, Old(OldBegin))] + ([Spawn(2, Old(OldBegin))] + tail);
    NoKillsIn(1, 2);
    ShutByEvents(b, es, false, true);
  }

  lemma NoKillsIn(p: Pid, q: Pid)
    ensures forall i :: 0 <= i < |LateMove(p, q)| ==> !LateMove(p, q)[i].Kill? && !LateMove(p, q)[i].Leave?
  {
  }

  /** The second window on any box where a wrapper is in charge: its holder starts, it is killed,
      and an old checkout comes before the holder has written its name. */
  function EarlyDeath(w: Pid, h: Pid, o: Pid): seq<Event> {
    [Hand(w, h), Kill(w), Spawn(o, Old(OldBegin))] + OldTakes(o) + [Write(h)]
  }

  lemma EarlyDeathRuns(b: Box, w: Pid, h: Pid, o: Pid)
    requires w in b.procs && h !in b.procs && o !in b.procs && h != o
    requires b.procs[w] == Wrapper(Owning) && b.dir == Held(Named(w))
    requires forall q :: q in b.procs && q != w ==> !Claims(b.procs[q]) && !Making(b.procs[q])
    ensures Exec(b, EarlyDeath(w, h, o)).Some? && Shut(b, EarlyDeath(w, h, o), true, false)
    ensures TwoOwners(Exec(b, EarlyDeath(w, h, o)).value)
  {
    var start := [Hand(w, h), Kill(w), Spawn(o, Old(OldBegin))];
    var b3 := EarlyDeathStart(b, w, h, o);
    ShutByEvents(b, start, true, false);
    OldTakesOver(b3, o);
    var b4 := At(b3, o, Old(OldRunning)).(dir := Held(Named(o)));
    ShutSplit(b, start, OldTakes(o), true, false);
    ExecSplit(b, start, OldTakes(o));
    assert b4.procs[h] == Holder(w, false) && w !in b4.procs;
    var b5 := At(b4, h, Holder(w, true)).(dir := Held(Named(h)));
    assert Next(b4, Write(h)) == Some(b5);
    ExecStep(b4, Write(h), []);
    ShutByEvents(b4, [Write(h)], true, false);
    ShutSplit(b, start + OldTakes(o), [Write(h)], true, false);
    ExecSplit(b, start + OldTakes(o), [Write(h)]);
    assert Owner(b5.procs[h]) && Owner(b5.procs[o]);
  }

  lemma EarlyDeathStart(b: Box, w: Pid, h: Pid, o: Pid) returns (n: Box)
    requires w in b.procs && h !in b.procs && o !in b.procs && h != o
    requires b.procs[w] == Wrapper(Owning) && b.dir == Held(Named(w))
    requires forall q :: q in b.procs && q != w ==> !Claims(b.procs[q]) && !Making(b.procs[q])
    ensures Exec(b, [Hand(w, h), Kill(w), Spawn(o, Old(OldBegin))]) == Some(n)
    ensures n.dir == b.dir && w !in n.procs && h in n.procs && n.procs[h] == Holder(w, false)
    ensures o in n.procs && n.procs[o] == Old(OldBegin)
    ensures forall q :: q in n.procs ==> !Claims(n.procs[q]) && !Making(n.procs[q])
  {
    var b1 := Next(b, Hand(w, h)).value;
    var b2 := Gone(b1, w);
    n := At(b2, o, Old(OldBegin));
    ExecStep(b2, Spawn(o, Old(OldBegin)), []);
    ExecStep(b1, Kill(w), [Spawn(o, Old(OldBegin))]);
    ExecStep(b, Hand(w, h), [Kill(w), Spawn(o, Old(OldBegin))]);
  }

  /** Until the holder names itself the directory names the wrapper. A wrapper killed in between
      leaves a directory that an old checkout takes, and the holder then writes its own pid over
      the old checkout's: the second window alone, the first shut. */
  lemma EarlyDeathBreaksExclusion()
    ensures exists b, es :: Idle(b) && Exec(b, es).Some? && Shut(b, es, true, false) && TwoOwners(Exec(b, es).value)
  {
    var b := Box(Absent, {}, map[]);
    SoloOutcome(b, 1);
    var b1 := Exec(b, Solo(b, 1)).value;
    EarlyDeathRuns(b1, 1, 2, 3);
    ShutByEvents(b, Solo(b, 1), true, false);
    ShutSplit(b, Solo(b, 1), EarlyDeath(1, 2, 3), true, false);
    ExecSplit(b, Solo(b, 1), EarlyDeath(1, 2, 3));
  }

  // ----- no sequence of kills leaves the box refused for ever

  /** What a newly started wrapper does on its own: claim, flock, and take a dead directory back. */
  function Solo(b: Box, w: Pid): seq<Event> {
    [Spawn(w, Wrapper(Begin))] +
    if b.dir.Absent? then [Mkdir(w), Write(w), Lock(w), Launch(w)]
    else [Mkdir(w)] + ([Lock(w)] + ([Judge(w)] + if Free(b, w) then [Move(w), Mkdir(w), Write(w), Launch(w)] else []))
  }

  /** No directory, or one whose name is nobody alive under the mark. The new wrapper is itself
      alive and marked, so a directory that remembers its reused pid is not free to it. */
  predicate Free(b: Box, w: Pid) {
    b.dir.Absent? || !HolderAlive(b.procs[w := Wrapper(Begin)], b.dir.name)
  }

  /** Undisturbed, a wrapper ends in charge exactly when the directory is free; otherwise it goes
      and the box is as it was. */
  lemma SoloOutcome(b: Box, w: Pid)
    requires b.flock == {} && w !in b.procs
    ensures Exec(b, Solo(b, w)) ==
      Some(if Free(b, w) then Box(Held(Named(w)), {w}, b.procs[w := Wrapper(Owning)]) else b)
  {
    var b1 := At(b, w, Wrapper(Begin));
    if b.dir.Absent? {
      SoloClaims(b, b1, w);
      ExecStep(b, Spawn(w, Wrapper(Begin)), [Mkdir(w), Write(w), Lock(w), Launch(w)]);
    } else {
      SoloFinds(b, b1, w);
      var tail := if Free(b, w) then [Move(w), Mkdir(w), Write(w), Launch(w)] else [];
      ExecStep(b, Spawn(w, Wrapper(Begin)), [Mkdir(w)] + ([Lock(w)] + ([Judge(w)] + tail)));
    }
  }

  /** The wrapper finds a directory, takes the flock and judges. */
  lemma SoloFinds(b: Box, b1: Box, w: Pid)
    requires b.flock == {} && w !in b.procs && b.dir.Held? && b1 == At(b, w, Wrapper(Begin))
    ensures var tail := if Free(b, w) then [Move(w), Mkdir(w), Write(w), Launch(w)] else [];
      Exec(b1, [Mkdir(w)] + ([Lock(w)] + ([Judge(w)] + tail)))
      == Some(if Free(b, w) then Box(Held(Named(w)), {w}, b.procs[w := Wrapper(Owning)]) else b)
  {
    var b2 := At(b, w, Wrapper(Asked(false)));
    var b3 := At(b, w, Wrapper(Locked(false))).(flock := {w});
    assert At(b1, w, Wrapper(Asked(false))) == b2 && Next(b1, Mkdir(w)) == Some(b2);
    assert Next(b2, Lock(w)).value.procs == b3.procs && Next(b2, Lock(w)) == Some(b3);
    var tail := if Free(b, w) then [Move(w), Mkdir(w), Write(w), Launch(w)] else [];
    ExecStep(b1, Mkdir(w), [Lock(w)] + ([Judge(w)] + tail));
    ExecStep(b2, Lock(w), [Judge(w)] + tail);
    SoloJudged(b, b3, w, tail);
  }

  lemma SoloJudged(b: Box, b3: Box, w: Pid, tail: seq<Event>)
    requires w !in b.procs && b.dir.Held? && b.flock == {}
    requires b3 == Box(b.dir, {w}, b.procs[w := Wrapper(Locked(false))])
    requires tail == if Free(b, w) then [Move(w), Mkdir(w), Write(w), Launch(w)] else []
    ensures Exec(b3, [Judge(w)] + tail)
      == Some(if Free(b, w) then Box(Held(Named(w)), {w}, b.procs[w := Wrapper(Owning)]) else b)
  {
    if Free(b, w) {
      SoloReclaims(b, b3, w);
    } else {
      assert Gone(b3, w) == b && Next(b3, Judge(w)) == Some(b);
    }
    ExecStep(b3, Judge(w), tail);
  }

  lemma SoloClaims(b: Box, b1: Box, w: Pid)
    requires b.flock == {} && w !in b.procs && b.dir.Absent? && b1 == At(b, w, Wrapper(Begin))
    ensures Exec(b1, [Mkdir(w), Write(w), Lock(w), Launch(w)])
         == Some(Box(Held(Named(w)), {w}, b.procs[w := Wrapper(Owning)]))
  {
    var b2 := Box(Held(Nobody), {}, b.procs[w := Wrapper(Made)]);
    var b3 := Box(Held(Named(w)), {}, b.procs[w := Wrapper(Asked(true))]);
    assert Next(b1, Mkdir(w)).value.procs == b2.procs && Next(b1, Mkdir(w)) == Some(b2);
    assert Next(b2, Write(w)).value.procs == b3.procs && Next(b2, Write(w)) == Some(b3);
    SoloLocks(b.procs, b3, w);
    ExecStep(b2, Write(w), [Lock(w), Launch(w)]);
    ExecStep(b1, Mkdir(w), [Write(w), Lock(w), Launch(w)]);
  }

  lemma SoloLocks(procs: map<Pid, Role>, b3: Box, w: Pid)
    requires b3 == Box(Held(Named(w)), {}, procs[w := Wrapper(Asked(true))])
    ensures Exec(b3, [Lock(w), Launch(w)]) == Some(Box(Held(Named(w)), {w}, procs[w := Wrapper(Owning)]))
  {
    var b4 := Box(Held(Named(w)), {w}, procs[w := Wrapper(Locked(true))]);
    var b5 := Box(Held(Named(w)), {w}, procs[w := Wrapper(Owning)]);
    assert Next(b3, Lock(w)).value.procs == b4.procs && Next(b3, Lock(w)) == Some(b4);
    assert Next(b4, Launch(w)).value.procs == b5.procs && Next(b4, Launch(w)) == Some(b5);
    ExecStep(b4, Launch(w), []);
    ExecStep(b3, Lock(w), [Launch(w)]);
  }

  lemma SoloReclaims(b: Box, b3: Box, w: Pid)
    requires w !in b.procs && b.dir.Held? && Free(b, w)
    requires b3 == Box(b.dir, {w}, b.procs[w := Wrapper(Locked(false))])
    ensures Next(b3, Judge(w)).Some?
    ensures Exec(Next(b3, Judge(w)).value, [Move(w), Mkdir(w), Write(w), Launch(w)])
         == Some(Box(Held(Named(w)), {w}, b.procs[w := Wrapper(Owning)]))
  {
    var b4 := Box(b.dir, {w}, b.procs[w := Wrapper(Judged)]);
    var b5 := Box(Absent, {w}, b.procs[w := Wrapper(Cleared)]);
    var b6 := Box(Held(Nobody), {w}, b.procs[w := Wrapper(Remade)]);
    SoloJudges(b, b3, w);
    assert Next(b4, Move(w)).value.procs == b5.procs && Next(b4, Move(w)) == Some(b5);
    assert Next(b5, Mkdir(w)).value.procs == b6.procs && Next(b5, Mkdir(w)) == Some(b6);
    SoloNames(b, w);
    ExecStep(b5, Mkdir(w), [Write(w), Launch(w)]);
    ExecStep(b4, Move(w), [Mkdir(w), Write(w), Launch(w)]);
  }

  lemma SoloJudges(b: Box, b3: Box, w: Pid)
    requires w !in b.procs && b.dir.Held? && Free(b, w)
    requires b3 == Box(b.dir, {w}, b.procs[w := Wrapper(Locked(false))])
    ensures Next(b3, Judge(w)) == Some(Box(b.dir, {w}, b.procs[w := Wrapper(Judged)]))
  {
    assert Next(b3, Judge(w)).value.procs == b.procs[w := Wrapper(Judged)];
  }

  lemma SoloNames(b: Box, w: Pid)
    ensures Exec(Box(Held(Nobody), {w}, b.procs[w := Wrapper(Remade)]), [Write(w), Launch(w)])
         == Some(Box(Held(Named(w)), {w}, b.procs[w := Wrapper(Owning)]))
  {
    var b6 := Box(Held(Nobody), {w}, b.procs[w := Wrapper(Remade)]);
    var b7 := Box(Held(Named(w)), {w}, b.procs[w := Wrapper(Locked(true))]);
    var b8 := Box(Held(Named(w)), {w}, b.procs[w := Wrapper(Owning)]);
    assert Next(b6, Write(w)).value.procs == b7.procs && Next(b6, Write(w)) == Some(b7);
    assert Next(b7, Launch(w)).value.procs == b8.procs && Next(b7, Launch(w)) == Some(b8);
    ExecStep(b7, Launch(w), []);
    ExecStep(b6, Write(w), [Launch(w)]);
  }

  /** However a run went, and whoever was killed where: once no process of the scheme is left, the
      next wrapper gets the suite unless the directory names a live process under the mark that is
      not of the scheme, or remembers the wrapper's own pid. */
  lemma NeverRefusedForEver(b: Box, es: seq<Event>, w: Pid)
    requires Idle(b) && Exec(b, es).Some?
    requires forall p :: p in Exec(b, es).value.procs ==> Exec(b, es).value.procs[p].Bystander?
    requires w !in Exec(b, es).value.procs
    ensures var n := Exec(b, es).value;
      var after := Exec(b, es + Solo(n, w));
      && after.Some?
      && ((w in after.value.procs && Owner(after.value.procs[w]) && after.value.dir == Held(Named(w))) <==>
          !(n.dir.Held? && n.dir.name.Named? &&
            (n.dir.name.pid == w || (n.dir.name.pid in n.procs && n.procs[n.dir.name.pid].mark))))
  {
    var n := Exec(b, es).value;
    FlockRun(b, es);
    assert n.flock == {};
    SoloOutcome(n, w);
    ExecSplit(b, es, Solo(n, w));
  }

  /** A current tree that goes, whether it drops or is turned away, never changes a directory that
      names anybody else. */
  lemma DropSparesOthers(b: Box, p: Pid, e: Event)
    requires p in b.procs && (b.procs[p].Wrapper? || b.procs[p].Holder?)
    requires e.p == p && Next(b, e).Some? && p !in Next(b, e).value.procs
    ensures Read(b.dir) != Named(p) ==> Next(b, e).value.dir == b.dir
    ensures Next(b, e).value.dir in {b.dir, Absent}
  {
  }

  // ----- the windows are exact: an event is in one of them exactly when it lets two runs in

  /** From here, a run that keeps clear of both windows ends with two owners. */
  ghost predicate Broken(b: Box) {
    exists es :: Exec(b, es).Some? && Undisturbed(b, es) && TwoOwners(Exec(b, es).value)
  }

  lemma {:induction false} PidAbove(pids: set<Pid>) returns (p: Pid)
    ensures forall q :: q in pids ==> q < p
    decreases |pids|
  {
    if pids == {} {
      p := 1;
    } else {
      var x :| x in pids;
      var y := PidAbove(pids - {x});
      assert forall q :: q in pids ==> q == x || q in pids - {x};
      p := if x < y then y else x + 1;
    }
  }

  lemma FreshPid(b: Box) returns (p: Pid)
    ensures p !in b.procs
  {
    p := PidAbove(b.procs.Keys);
  }

  /** A step outside the windows, and a run from there that breaks exclusion. */
  lemma BrokenAfter(b: Box, e: Event)
    requires Next(b, e).Some? && !MoveHitsClaim(b, e) && !GoesBeforeHolder(b, e) && Broken(Next(b, e).value)
    ensures Broken(b)
  {
    var n := Next(b, e).value;
    var es :| Exec(n, es).Some? && Undisturbed(n, es) && TwoOwners(Exec(n, es).value);
    ExecStep(b, e, es);
    assert ([e] + es)[1..] == es;
    assert Undisturbed(b, [e] + es);
  }

  lemma BrokenAfterRun(b: Box, xs: seq<Event>)
    requires Exec(b, xs).Some? && Undisturbed(b, xs) && Broken(Exec(b, xs).value)
    ensures Broken(b)
  {
    var n := Exec(b, xs).value;
    var es :| Exec(n, es).Some? && Undisturbed(n, es) && TwoOwners(Exec(n, es).value);
    ExecSplit(b, xs, es);
    ShutSplit(b, xs, es, true, true);
  }

  /** A run without kills and leaves that shuts the first window shuts both. */
  lemma {:induction false} ShutBoth(b: Box, es: seq<Event>)
    requires Exec(b, es).Some? && Shut(b, es, true, false)
    requires forall i :: 0 <= i < |es| ==> !es[i].Kill? && !es[i].Leave?
    ensures Undisturbed(b, es)
    decreases |es|
  {
    if es != [] {
      ShutBoth(Next(b, es[0]).value, es[1..]);
    }
  }

  lemma BrokenNow(b: Box)
    requires TwoOwners(b)
    ensures Broken(b)
  {
    assert Undisturbed(b, []) && Exec(b, []) == Some(b);
  }

  /** Where nobody holds the directory, an old checkout that comes is in charge beside any owner. */
  lemma OwnerIsJoined(b: Box, q: Pid)
    requires b.dir.Absent? && q in b.procs && Owner(b.procs[q])
    ensures Broken(b)
  {
    var o := FreshPid(b);
    var b1 := At(b, o, Old(OldBegin));
    var b2 := At(b1, o, Old(OldMade)).(dir := Held(Nobody));
    var b3 := At(b2, o, Old(OldRunning)).(dir := Held(Named(o)));
    assert Next(b, Spawn(o, Old(OldBegin))) == Some(b1);
    assert Next(b1, Mkdir(o)) == Some(b2);
    assert Next(b2, Write(o)) == Some(b3);
    assert Owner(b3.procs[o]) && Owner(b3.procs[q]);
    BrokenNow(b3);
    BrokenAfter(b2, Write(o));
    BrokenAfter(b1, Mkdir(o));
    BrokenAfter(b, Spawn(o, Old(OldBegin)));
  }

  lemma LockedIsJoined(b: Box, q: Pid)
    requires b.dir.Absent? && q in b.procs && b.procs[q] == Wrapper(Locked(true))
    ensures Broken(b)
  {
    OwnerIsJoined(At(b, q, Wrapper(Owning)), q);
    BrokenAfter(b, Launch(q));
  }

  /** Whoever keeps the flock from q can be killed: without an unnamed holder no kill is in a window. */
  lemma {:induction false} AskerIsJoined(b: Box, q: Pid)
    requires b.dir.Absent? && q in b.procs && b.procs[q] == Wrapper(Asked(true))
    requires FlockOk(b) && NoFreshHolder(b)
    ensures Broken(b)
    decreases |b.flock|
  {
    if b.flock == {} {
      LockedIsJoined(At(b, q, Wrapper(Locked(true))).(flock := {q}), q);
      BrokenAfter(b, Lock(q));
    } else {
      var r :| r in b.flock;
      assert r in b.procs && MayShare(b.procs[r]) && r != q;
      FlockGone(b, r, b.dir);
      AskerIsJoined(Gone(b, r), q);
      BrokenAfter(b, Kill(r));
    }
  }

  /** An old checkout that has made its directory and lost it names whatever directory is there. */
  lemma OldMakerIsJoined(b: Box, q: Pid)
    requires b.dir.Absent? && q in b.procs && b.procs[q] == Old(OldMade)
    ensures Broken(b)
  {
    var o := FreshPid(b);
    var b1 := At(b, o, Old(OldBegin));
    var b2 := At(b1, o, Old(OldMade)).(dir := Held(Nobody));
    TwoMakers(b2, q, o);
    assert Next(b1, Mkdir(o)) == Some(b2);
    BrokenAfter(b1, Mkdir(o));
    BrokenAfter(b, Spawn(o, Old(OldBegin)));
  }

  lemma TwoMakers(b: Box, q: Pid, o: Pid)
    requires b.dir.Held? && q in b.procs && o in b.procs && q != o
    requires b.procs[q] == Old(OldMade) && b.procs[o] == Old(OldMade)
    ensures Broken(b)
  {
    var b1 := At(b, q, Old(OldRunning)).(dir := Held(Named(q)));
    var b2 := At(b1, o, Old(OldRunning)).(dir := Held(Named(o)));
    assert Next(b, Write(q)) == Some(b1);
    assert Next(b1, Write(o)) == Some(b2);
    assert Owner(b2.procs[o]) && Owner(b2.procs[q]);
    BrokenNow(b2);
    BrokenAfter(b1, Write(o));
    BrokenAfter(b, Write(q));
  }

  /** Whoever holds or makes the directory when it is carried off comes to be in charge beside another. */
  lemma ClaimIsJoined(b: Box, q: Pid)
    requires b.dir.Absent? && q in b.procs && (Claims(b.procs[q]) || Making(b.procs[q]))
    requires FlockOk(b) && (Owner(b.procs[q]) || NoFreshHolder(b))
    ensures Broken(b)
  {
    var r := b.procs[q];
    if Owner(r) {
      OwnerIsJoined(b, q);
    } else if r == Old(OldMade) {
      OldMakerIsJoined(b, q);
    } else if r == Wrapper(Locked(true)) {
      LockedIsJoined(b, q);
    } else if r == Wrapper(Asked(true)) {
      AskerIsJoined(b, q);
    } else if r == Wrapper(Made) {
      FlockAt(b, q, Wrapper(Asked(true)), Absent);
      AskerIsJoined(At(b, q, Wrapper(Asked(true))), q);
      BrokenAfter(b, Write(q));
    } else {
      LockedIsJoined(At(b, q, Wrapper(Locked(true))), q);
      BrokenAfter(b, Write(q));
    }
  }

  /** Beside a claimant that is not yet in charge, or a maker, no holder is waiting to name itself. */
  lemma NoHolderBeside(b: Box, q: Pid)
    requires DirOk(b) && q in b.procs && !Owner(b.procs[q]) && (Claims(b.procs[q]) || Making(b.procs[q]))
    ensures NoFreshHolder(b)
  {
  }

  lemma AfterMove(b: Box, e: Event, q: Pid)
    requires e.Move? && Next(b, e).Some? && q in b.procs && (Claims(b.procs[q]) || Making(b.procs[q]))
    ensures var n := Next(b, e).value;
      n.dir.Absent? && q in n.procs && n.procs[q] == b.procs[q] && (NoFreshHolder(b) ==> NoFreshHolder(n))
  {
  }

  /** Every move in the first window lets two runs in, whoever moves and whoever is hit. */
  lemma MoveWindowBreaks(b: Box, e: Event)
    requires FlockOk(b) && DirOk(b) && Next(b, e).Some? && MoveHitsClaim(b, e)
    ensures Broken(Next(b, e).value)
  {
    var q :| q in b.procs && (Claims(b.procs[q]) || Making(b.procs[q]));
    AfterMove(b, e, q);
    FlockStep(b, e);
    if !Owner(b.procs[q]) {
      NoHolderBeside(b, q);
    }
    ClaimIsJoined(Next(b, e).value, q);
  }

  /** Every way out in the second window lets two runs in. */
  lemma HolderWindowBreaks(b: Box, e: Event)
    requires DirOk(b) && Next(b, e).Some? && GoesBeforeHolder(b, e)
    ensures Broken(Next(b, e).value)
  {
    var w := e.p;
    var h :| h in b.procs && b.procs[h] == Holder(w, false);
    assert b.procs[w] == Wrapper(Handed(h)) && b.dir == Held(Named(w));
    assert Next(b, e).value == Gone(b, w);
    OrphanIsJoined(Gone(b, w), w, h);
  }

  /** A directory naming a process that is gone, while its holder has yet to write. */
  lemma OrphanIsJoined(b: Box, w: Pid, h: Pid)
    requires w !in b.procs && h in b.procs && b.procs[h] == Holder(w, false) && b.dir == Held(Named(w))
    requires forall q :: q in b.procs ==> !Claims(b.procs[q]) && !Making(b.procs[q])
    ensures Broken(b)
  {
    var o := PidAbove(b.procs.Keys + {w});
    assert w in b.procs.Keys + {w} && forall q :: q in b.procs ==> q in b.procs.Keys + {w};
    var b1 := At(b, o, Old(OldBegin));
    OldTakesOver(b1, o);
    HolderWritesLate(At(b1, o, Old(OldRunning)).(dir := Held(Named(o))), w, h, o);
    ShutBoth(b1, OldTakes(o));
    BrokenAfterRun(b1, OldTakes(o));
    BrokenAfter(b, Spawn(o, Old(OldBegin)));
  }

  /** The holder writes its own pid over the one of whoever runs by then. */
  lemma HolderWritesLate(b: Box, w: Pid, h: Pid, o: Pid)
    requires w !in b.procs && h in b.procs && b.procs[h] == Holder(w, false)
    requires o in b.procs && b.procs[o] == Old(OldRunning)
    ensures Broken(b)
  {
    var n := Next(b, Write(h)).value;
    assert n.procs == b.procs[h := Holder(w, true)];
    assert Owner(n.procs[h]) && Owner(n.procs[o]);
    BrokenNow(n);
    BrokenAfter(b, Write(h));
  }

  lemma SoundIsNotBroken(b: Box)
    requires DirOk(b)
    ensures !Broken(b)
  {
    if Broken(b) {
      var es :| Exec(b, es).Some? && Undisturbed(b, es) && TwoOwners(Exec(b, es).value);
      DirRun(b, es);
    }
  }

  /** THE WINDOWS ARE EXACTLY WHAT BREAKS EXCLUSION: an event is in one of them if and only if a run that
      goes on from it, clear of both, can end with two owners. */
  lemma WindowsAreExact(b: Box, e: Event)
    requires FlockOk(b) && DirOk(b) && Next(b, e).Some?
    ensures MoveHitsClaim(b, e) || GoesBeforeHolder(b, e) <==> Broken(Next(b, e).value)
  {
    if GoesBeforeHolder(b, e) {
      HolderWindowBreaks(b, e);
    } else if MoveHitsClaim(b, e) {
      MoveWindowBreaks(b, e);
    } else {
      DirStep(b, e);
      SoundIsNotBroken(Next(b, e).value);
    }
  }

  /** Some box on the way of a run, first and last included, is broken. */
  ghost predicate ComesToBreak(b: Box, es: seq<Event>)
    requires Exec(b, es).Some?
    decreases |es|
  {
    Broken(b) || (es != [] && ComesToBreak(Next(b, es[0]).value, es[1..]))
  }

  lemma {:induction false} SafeRun(b: Box, es: seq<Event>)
    requires FlockOk(b) && DirOk(b) && Exec(b, es).Some?
    ensures Undisturbed(b, es) <==> !ComesToBreak(b, es)
    decreases |es|
  {
    SoundIsNotBroken(b);
    if es != [] {
      var n := Next(b, es[0]).value;
      WindowsAreExact(b, es[0]);
      if Broken(n) {
        assert ComesToBreak(n, es[1..]);
      } else {
        FlockStep(b, es[0]);
        DirStep(b, es[0]);
        SafeRun(n, es[1..]);
      }
    }
  }

  /** EVERY RUN FROM AN IDLE BOX: exclusion is safe all along it exactly when it keeps clear of the two
      windows. */
  lemma ExclusionExactlyWhenUndisturbed(b: Box, es: seq<Event>)
    requires Idle(b) && Exec(b, es).Some?
    ensures Undisturbed(b, es) <==> !ComesToBreak(b, es)
  {
    SafeRun(b, es);
  }

  // ----- the directory as the program's own functions change it

  const GRACE := 500
  const POLL := 50

  /** Of the successive readings, the first that names anybody, or nobody. */
  function FirstNamed(looks: seq<Name>): (r: Name)
    ensures r == Nobody <==> forall i :: 0 <= i < |looks| ==> looks[i] == Nobody
    ensures r != Nobody ==> exists i :: 0 <= i < |looks| && looks[i] == r && forall k :: 0 <= k < i ==> looks[k] == Nobody
  {
    if looks == [] then Nobody
    else if looks[0] != Nobody then looks[0]
    else
      var rest := FirstNamed(looks[1..]);
      assert rest != Nobody ==> exists i :: 0 <= i < |looks| && looks[i] == rest && forall k :: 0 <= k < i ==> looks[k] == Nobody by {
        if rest != Nobody {
          var j :| 0 <= j < |looks[1..]| && looks[1..][j] == rest && forall k :: 0 <= k < j ==> looks[1..][k] == Nobody;
          assert looks[j + 1] == rest;
          assert forall k :: 1 <= k < j + 1 ==> looks[k] == looks[1..][k - 1];
        }
      }
      assert rest == Nobody ==> forall i :: 1 <= i < |looks| ==> looks[i] == looks[1..][i - 1];
      rest
  }

  predicate AliveIn(marked: set<Pid>, name: Name) { name.Named? && name.pid in marked }

  class LockDirectory {
    var dir: Dir

    constructor (left: Dir)
      ensures dir == left
    {
      dir := left;
    }

    /** Claim by making: taken exactly when there was no directory, and then it names the taker unless
        the write was lost. `refused` is a mkdir that fails for another reason than that it exists. */
    method Take(me: Pid, refused: bool, writes: bool) returns (taken: bool, held: Name, failed: bool)
      modifies this
      ensures failed <==> refused
      ensures taken <==> !refused && old(dir) == Absent
      ensures dir == if taken then Held(if writes then Named(me) else Nobody) else old(dir)
      ensures held == if taken || failed then Nobody else Read(old(dir))
    {
      if refused {
        return false, Nobody, true;
      }
      if dir.Held? {
        return false, Read(dir), false;
      }
      dir := Held(Nobody);
      NameHolder(me, writes);
      return true, Nobody, false;
    }

    /** Best effort: a write that is lost leaves what was there. */
    method NameHolder(holder: Pid, writes: bool)
      modifies this
      ensures dir.Held? <==> old(dir).Held?
      ensures writes && dir.Held? ==> dir.name == Named(holder)
      ensures !writes ==> dir == old(dir)
    {
      if writes && dir.Held? {
        dir := Held(Named(holder));
      }
    }

    /** The directory goes exactly when it still names the owner. */
    method Drop(owner: Pid)
      modifies this
      ensures dir == Absent <==> old(dir) in {Absent, Held(Named(owner))}
      ensures dir != Absent ==> dir == old(dir)
    {
      if Read(dir) != Named(owner) {
        return;
      }
      dir := Absent;
    }

    /** Take back a directory whose holder is dead. `looks` is what the pid file says at each look,
        `marked` the live pids under the mark, `moveFails` whether the rename is refused, and `meantime`
        what somebody else has made under the name between the rename and this run's own mkdir. A
        directory nobody has named is given every look of the grace period first. */
    method Reclaim(me: Pid, looks: seq<Name>, marked: set<Pid>, moveFails: bool, meantime: Dir, refused: bool, writes: bool)
      returns (taken: bool, held: Name, failed: bool)
      requires |looks| == 11
      modifies this
      ensures AliveIn(marked, FirstNamed(looks)) ==> !taken && !failed && held == FirstNamed(looks) && dir == old(dir)
      ensures failed <==> !AliveIn(marked, FirstNamed(looks)) && ((moveFails && old(dir).Held?) || refused)
      ensures failed && moveFails && old(dir).Held? ==> !taken && held == FirstNamed(looks) && dir == old(dir)
      ensures failed && !(moveFails && old(dir).Held?) ==> !taken && held == Nobody && dir == meantime
      ensures taken <==> !failed && !AliveIn(marked, FirstNamed(looks)) && meantime == Absent
      ensures taken ==> dir == Held(if writes then Named(me) else Nobody)
      ensures !taken && !failed && !AliveIn(marked, FirstNamed(looks)) ==> held == Read(meantime) && dir == meantime
    {
      var named := looks[0];
      var waited, look := 0, 0;
      while named == Nobody && waited < GRACE
        invariant waited == look * POLL && 0 <= look < |looks|
        invariant named == looks[look]
        invariant forall k :: 0 <= k < look ==> looks[k] == Nobody
      {
        waited := waited + POLL;
        look := look + 1;
        named := looks[look];
      }
      if named == Nobody {
        assert forall i :: 0 <= i < |looks| ==> looks[i] == Nobody;
      } else {
        assert FirstNamed(looks) == named by { FirstNamedAt(looks, look); }
      }
      if AliveIn(marked, named) {
        return false, named, false;
      }
      if dir.Held? && moveFails {
        return false, named, true;
      }
      dir := meantime;
      taken, held, failed := Take(me, refused, writes);
    }
  }

  lemma FirstNamedAt(looks: seq<Name>, look: nat)
    requires look < |looks| && looks[look] != Nobody && forall k :: 0 <= k < look ==> looks[k] == Nobody
    ensures FirstNamed(looks) == looks[look]
  {
    assert FirstNamed(looks) != Nobody;
    var i :| 0 <= i < |looks| && looks[i] == FirstNamed(looks) && forall k :: 0 <= k < i ==> looks[k] == Nobody;
    assert !(i < look) && !(look < i);
  }

  ghost function MarkedPids(b: Box): (m: set<Pid>)
    ensures forall n :: AliveIn(m, n) <==> HolderAlive(b.procs, n)
  {
    set p | p in b.procs && Marked(b.procs[p])
  }

  /** The program's reclaim and the step system agree: when every look looks what is there and
      nobody else moves, the wrapper's judge, move, mkdir and write leave the directory as the
      reclaim leaves it, with the run in hand exactly when the reclaim says it was taken. */
  lemma ReclaimIsTheRun(b: Box, w: Pid, looks: seq<Name>)
    requires w in b.procs && b.procs[w] == Wrapper(Locked(false)) && b.dir.Held?
    requires |looks| > 0 && forall i :: 0 <= i < |looks| ==> looks[i] == b.dir.name
    ensures var taken := !AliveIn(MarkedPids(b), FirstNamed(looks));
      var after := Exec(b, [Judge(w)] + if taken then [Move(w), Mkdir(w), Write(w)] else []);
      after == Some(if taken then Box(Held(Named(w)), b.flock, b.procs[w := Wrapper(Locked(true))]) else Gone(b, w))
  {
    assert FirstNamed(looks) == looks[0];
    var taken := !HolderAlive(b.procs, b.dir.name);
    ExecStep(b, Judge(w), if taken then [Move(w), Mkdir(w), Write(w)] else []);
    if taken {
      Remakes(b, At(b, w, Wrapper(Judged)), w);
    }
  }

  // A wrapper that has judged makes the directory anew, undisturbed.
  lemma Remakes(b: Box, b1: Box, w: Pid)
    requires w in b.procs && b1 == At(b, w, Wrapper(Judged))
    ensures Exec(b1, [Move(w), Mkdir(w), Write(w)]) == Some(Box(Held(Named(w)), b.flock, b.procs[w := Wrapper(Locked(true))]))
  {
    var b2 := Box(Absent, b.flock, b.procs[w := Wrapper(Cleared)]);
    var b3 := Box(Held(Nobody), b.flock, b.procs[w := Wrapper(Remade)]);
    assert Next(b1, Move(w)).value.procs == b2.procs && Next(b1, Move(w)) == Some(b2);
    assert Next(b2, Mkdir(w)).value.procs == b3.procs && Next(b2, Mkdir(w)) == Some(b3);
    assert Next(b3, Write(w)).value.procs == b.procs[w := Wrapper(Locked(true))];
    ExecStep(b3, Write(w), []);
    ExecStep(b2, Mkdir(w), [Write(w)]);
    ExecStep(b1, Move(w), [Mkdir(w), Write(w)]);
  }
}
