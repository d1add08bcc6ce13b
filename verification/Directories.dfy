/** Checkpoint directories under interleaving: adopt's scan and its insert are two steps, and a stale update can bring a
    terminal job back, so active jobs can come to share a directory. This module says exactly when they do. */
module Directories {
  import opened Numerals
  import opened Lifecycle
  import opened JobTable
  import opened Requests
  import opened WholeRequests
  import opened Machine
  import opened MachineSafety
  import opened Freshness

  /** No two active jobs share a directory, but for jobs whose default directory is still to be filled in. */
  ghost predicate Separate(t: Table) {
    forall i, k :: i in t.rows && k in t.rows && i != k && t.rows[i].dir == t.rows[k].dir ==>
      t.rows[i].dir == [] || IsTerminal(t.rows[i].status) || IsTerminal(t.rows[k].status)
  }

  /** Registrations take the default directory, adopted checkpoints lie outside the base directory. */
  predicate UsualArrival(base: Path, a: Action) {
    a.Arrive? ==> (a.r.Register? ==> a.r.dir == []) && (a.r.Adopt? ==> !(base <= a.r.dir))
  }

  /** An adopt inserts a directory that an active job has by then. */
  ghost predicate LateAdopt(t: Table, pc: Pc) {
    pc.AdoptInsert? && t.Occupied(pc.job.dir)
  }

  /** An update brings a terminal job back whose directory an active job has by then. */
  ghost predicate Revival(t: Table, pc: Pc) {
    && pc.Commit? && pc.id in t.rows && IsTerminal(t.rows[pc.id].status) && !IsTerminal(pc.u.To())
    && t.rows[pc.id].dir != [] && t.Occupied(t.rows[pc.id].dir)
  }

  ghost predicate Clashes(s: State, a: Action) {
    && a.Run? && a.p in s.threads && Plausible(a.c)
    && (LateAdopt(s.t, s.threads[a.p].pc) || Revival(s.t, s.threads[a.p].pc))
  }

  ghost predicate NeverClashes(s: State, acts: seq<Action>) {
    acts == [] ||
    var front := acts[..|acts| - 1];
    NeverClashes(s, front) && !Clashes(Exec(s, front), acts[|acts| - 1])
  }

  ghost predicate AlwaysSeparate(s: State, acts: seq<Action>) {
    Separate(Exec(s, acts).t) && (acts == [] || AlwaysSeparate(s, acts[..|acts| - 1]))
  }

  // ---------------------------------------------------------------- where directories come from

  predicate PcDir(base: Path, pc: Pc) {
    match pc
    case RegisterLatch(j) => j.dir == []
    case RegisterInsert(j) => j.dir == []
    case AdoptLatch(j) => !(base <= j.dir)
    case AdoptScan(j) => !(base <= j.dir) && j.dir != []
    case AdoptInsert(j) => !(base <= j.dir) && j.dir != []
    case _ => true
  }

  ghost predicate RowDirs(base: Path, t: Table) {
    forall id :: id in t.rows ==>
      t.rows[id].dir == [] || t.rows[id].dir == DefaultDir(base, id) || !(base <= t.rows[id].dir)
  }

  ghost predicate DirsOk(s: State) {
    RowDirs(s.base, s.t) && forall p :: p in s.threads ==> PcDir(s.base, s.threads[p].pc)
  }

  lemma PcDirStep(s: State, th: Thread, c: Choice)
    requires PcDir(s.base, th.pc)
    ensures PcDir(s.base, NextPc(s, th, c))
  {
  }

  lemma RowDirsStep(s: State, pc: Pc)
    requires RowDirs(s.base, s.t) && PcDir(s.base, pc)
    ensures RowDirs(s.base, NextTable(s, pc))
  {
  }

  lemma DirsOkStep(s: State, a: Action)
    requires DirsOk(s) && UsualArrival(s.base, a)
    ensures DirsOk(Step(s, a)) && Step(s, a).base == s.base
  {
    if a.Run? && a.p in s.threads && Plausible(a.c) {
      PcDirStep(s, s.threads[a.p], a.c);
      RowDirsStep(s, s.threads[a.p].pc);
    } else {
      Quiet(s, a);
      ArrivalDirs(s, a);
    }
  }

  lemma ArrivalDirs(s: State, a: Action)
    requires (forall p :: p in s.threads ==> PcDir(s.base, s.threads[p].pc)) && UsualArrival(s.base, a)
    requires !(a.Run? && a.p in s.threads && Plausible(a.c))
    ensures Step(s, a).base == s.base
    ensures forall p :: p in Step(s, a).threads ==> PcDir(s.base, Step(s, a).threads[p].pc)
  {
  }

  // ---------------------------------------------------------------- one step

  /** A default directory is nobody else's. */
  lemma DefaultIsOwn(base: Path, t: Table, id: int, k: int)
    requires RowDirs(base, t) && k in t.rows && 0 <= k && 0 <= id && k != id
    ensures t.rows[k].dir != DefaultDir(base, id)
  {
    if t.rows[k].dir == DefaultDir(base, k) {
      assert DefaultDir(base, k)[|base|] == FormatInt(k) && DefaultDir(base, id)[|base|] == FormatInt(id);
      if FormatInt(k) == FormatInt(id) {
        FormatInjective(k, id);
      }
    }
    assert base <= DefaultDir(base, id);
  }

  lemma SeparateDefault(base: Path, t: Table, id: int)
    requires t.Valid() && RowDirs(base, t) && Separate(t)
    ensures Separate(t.WithDir(id, DefaultDir(base, id)))
  {
    if id in t.rows {
      forall k | k in t.rows && k != id
        ensures t.rows[k].dir != DefaultDir(base, id)
      {
        DefaultIsOwn(base, t, id, k);
      }
    }
  }

  lemma SeparateInsert(t: Table, j: Job)
    requires t.Valid() && Separate(t) && !IsTerminal(j.status)
    ensures Separate(t.Insert(j)) <==> j.dir == [] || !t.Occupied(j.dir)
  {
    var t', n := t.Insert(j), t.lastId + 1;
    if j.dir != [] && t.Occupied(j.dir) {
      var id :| id in t.rows && !IsTerminal(t.rows[id].status) && t.rows[id].dir == j.dir;
      assert t'.rows[id].dir == t'.rows[n].dir;
    }
  }

  lemma SeparateCommit(t: Table, pc: Pc)
    requires Separate(t) && pc.Commit?
    ensures Separate(t.Commit(pc.id, pc.from, pc.u, pc.actor)) <==> !Revival(t, pc)
  {
    var t' := t.Commit(pc.id, pc.from, pc.u, pc.actor);
    if Revival(t, pc) {
      var id :| id in t.rows && !IsTerminal(t.rows[id].status) && t.rows[id].dir == t.rows[pc.id].dir;
      assert id != pc.id && t'.rows[id].dir == t'.rows[pc.id].dir;
    }
  }

  lemma SeparateRun(s: State, pc: Pc)
    requires s.t.Valid() && RowDirs(s.base, s.t) && Separate(s.t) && PcDir(s.base, pc) && PcOk(s.t, pc)
    ensures Separate(NextTable(s, pc)) <==> !LateAdopt(s.t, pc) && !Revival(s.t, pc)
  {
    match pc
    case RegisterInsert(j) => SeparateInsert(s.t, j);
    case AdoptInsert(j) => SeparateInsert(s.t, j);
    case RegisterDir(id) => SeparateDefault(s.base, s.t, id);
    case Commit(_, _, _, _, _) => SeparateCommit(s.t, pc);
    case _ =>
  }

  lemma SeparateStep(s: State, a: Action)
    requires Safe(s) && DirsOk(s) && Separate(s.t)
    ensures Separate(Step(s, a).t) <==> !Clashes(s, a)
  {
    if a.Run? && a.p in s.threads && Plausible(a.c) {
      assert PcOk(s.t, s.threads[a.p].pc);
      SeparateRun(s, s.threads[a.p].pc);
    } else {
      Quiet(s, a);
    }
  }

  // ---------------------------------------------------------------- every schedule

  lemma {:induction false} DirsOkExec(base: Path, max: nat, acts: seq<Action>)
    requires forall i :: 0 <= i < |acts| ==> UsualArrival(base, acts[i])
    ensures DirsOk(Exec(Init(base, max), acts)) && Exec(Init(base, max), acts).base == base
  {
    if acts == [] {
    } else {
      DirsOkExec(base, max, acts[..|acts| - 1]);
      DirsOkStep(Exec(Init(base, max), acts[..|acts| - 1]), acts[|acts| - 1]);
    }
  }

  /** For every schedule with the usual directories: active jobs' directories stay apart all along exactly when no adopt
      inserts a directory that was taken after its scan and no update brings back a terminal job whose directory was
      taken since. */
  lemma {:induction false} DirectoriesApartIff(base: Path, max: nat, acts: seq<Action>)
    requires forall i :: 0 <= i < |acts| ==> UsualArrival(base, acts[i])
    ensures AlwaysSeparate(Init(base, max), acts) <==> NeverClashes(Init(base, max), acts)
  {
    var s0 := Init(base, max);
    if acts == [] {
    } else {
      var front, a := acts[..|acts| - 1], acts[|acts| - 1];
      DirectoriesApartIff(base, max, front);
      DirsOkExec(base, max, front);
      SafeExec(s0, front);
      if Separate(Exec(s0, front).t) {
        SeparateStep(Exec(s0, front), a);
      }
    }
  }

  // ---------------------------------------------------------------- schedules without a clash

  /** A scan and its insert are one step. */
  ghost predicate ScansPrompt(s: State, acts: seq<Action>) {
    acts == [] ||
    var front, a := acts[..|acts| - 1], acts[|acts| - 1];
    && ScansPrompt(s, front)
    && forall p :: p in Exec(s, front).threads && Exec(s, front).threads[p].pc.AdoptInsert? ==>
         a.Run? && a.p == p && Plausible(a.c)
  }

  ghost predicate ScansCurrent(s: State) {
    forall p :: p in s.threads && s.threads[p].pc.AdoptInsert? ==> !s.t.Occupied(s.threads[p].pc.job.dir)
  }

  lemma ScanStep(s: State, a: Action)
    requires forall p :: p in s.threads && s.threads[p].pc.AdoptInsert? ==> a.Run? && a.p == p && Plausible(a.c)
    ensures ScansCurrent(Step(s, a))
  {
    if a.Run? && a.p in s.threads && Plausible(a.c) && NextPc(s, s.threads[a.p], a.c).AdoptInsert? {
      ScanRun(s, s.threads[a.p], a.c);
    }
  }

  lemma ScanRun(s: State, th: Thread, c: Choice)
    requires NextPc(s, th, c).AdoptInsert?
    ensures NextTable(s, th.pc) == s.t && !s.t.Occupied(NextPc(s, th, c).job.dir)
  {
  }

  /** If scan and insert are one step and every job's commits are fresh, nothing clashes: the two races of adopt and of
      the split updates are all there is. */
  lemma {:induction false} PromptScansDoNotClash(base: Path, max: nat, acts: seq<Action>)
    requires ScansPrompt(Init(base, max), acts) && forall id :: Fresh(Init(base, max), acts, id)
    ensures ScansCurrent(Exec(Init(base, max), acts)) && NeverClashes(Init(base, max), acts)
  {
    var s0 := Init(base, max);
    if acts == [] {
    } else {
      var front, a := acts[..|acts| - 1], acts[|acts| - 1];
      forall id
        ensures Fresh(s0, front, id) && !Stale(Exec(s0, front), a, id)
      {
        assert Fresh(s0, acts, id);
      }
      PromptScansDoNotClash(base, max, front);
      SafeExec(s0, front);
      var s := Exec(s0, front);
      ScanStep(s, a);
      if a.Run? && a.p in s.threads && Plausible(a.c) && s.threads[a.p].pc.Commit? {
        FreshIsNoRevival(s, a);
      }
    }
  }

  lemma FreshIsNoRevival(s: State, a: Action)
    requires Safe(s) && a.Run? && a.p in s.threads && Plausible(a.c) && s.threads[a.p].pc.Commit?
    requires !Stale(s, a, s.threads[a.p].pc.id)
    ensures !Revival(s.t, s.threads[a.p].pc)
  {
    assert PcOk(s.t, s.threads[a.p].pc);
  }
}
