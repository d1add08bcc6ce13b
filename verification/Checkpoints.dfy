/** Checkpoints on disk: what a resume will find there, and what a prune takes away. */
module Checkpoints {
  import opened Wrappers
  import opened Lifecycle
  import opened JobTable
  import opened Requests
  import opened WholeRequests
  import opened World
  import opened WorldSafety

  /** No job's directory is, or contains, another job's. */
  ghost predicate Apart(t: Table) {
    forall i, k :: i in t.rows && k in t.rows && i != k ==> !(t.rows[i].dir <= t.rows[k].dir)
  }

  /** The job's directory holds what its last successful dump, or its adopt, left there. */
  predicate Kept(w: World, id: int)
    requires id in w.t.rows
  {
    id in w.saved && w.t.rows[id].dir in w.disk && w.disk[w.t.rows[id].dir] == w.saved[id]
  }

  ghost predicate Restorable(w: World) {
    forall id :: id in w.t.rows && Resumable(w.t.rows[id].status) ==> Kept(w, id)
  }

  /** Rows are never removed and keep their directories. */
  ghost predicate Grows(t: Table, t': Table) {
    forall id :: id in t.rows ==> id in t'.rows && t'.rows[id].dir == t.rows[id].dir
  }

  lemma ApartBefore(t: Table, t': Table)
    requires Grows(t, t') && Apart(t')
    ensures Apart(t)
  {
  }

  lemma ServeGrows(w: World, r: Request, c: Choice)
    requires Settled(w.t)
    ensures Grows(w.t, Serve(w, r, c).t)
  {
    ServeTable(w, r, c);
    if r.Register? {
      RegisterRow(w.t, w.base, r);
    } else if Named(w, r).Some? {
      var _ := NamedEffect(w.t, r, Named(w, r).value, c);
    }
  }

  lemma {:induction false} EachGrows(w: World, ids: seq<int>, out: int -> Choice)
    requires AllRunning(w.t, ids)
    ensures Grows(w.t, CheckpointEach(w, ids, out).t)
  {
    if ids == [] {
    } else {
      EachGrows(w, ids[..|ids| - 1], out);
      EachStage(w, ids, out);
    }
  }

  /** A checkpoint of one job leaves that job restorable if it succeeds and the others as they were. */
  lemma CheckpointKeeps(w: World, id: int, c: Choice, w': World, es: seq<Entry>)
    requires id in w.t.rows && w.t.rows[id].status == Running && Plausible(c)
    requires Restorable(w) && Apart(w.t) && OneRow(w.t, w'.t, id, es) && w'.t.rows[id] == CheckpointedRow(w.t.rows[id], c)
    requires w' == Dumped(w, id, c).(t := w'.t)
    ensures Restorable(w')
  {
    forall k | k in w'.t.rows && Resumable(w'.t.rows[k].status)
      ensures Kept(w', k)
    {
      if k != id {
        assert Kept(w, k);
        assert w.t.rows[k].dir != w.t.rows[id].dir;
      }
    }
  }

  lemma {:induction false} EachKeeps(w: World, ids: seq<int>, out: int -> Choice)
    requires AllRunning(w.t, ids) && Restorable(w) && Apart(w.t)
    requires forall id :: id in w.t.rows ==> Plausible(out(id))
    ensures Restorable(CheckpointEach(w, ids, out))
  {
    if ids == [] {
    } else {
      var front, id := ids[..|ids| - 1], ids[|ids| - 1];
      EachKeeps(w, front, out);
      EachStage(w, ids, out);
      EachTable(w, front, out);
      CheckpointAllEffect(w.t, front, out, id);
      var w1 := CheckpointEach(w, front, out);
      forall i | i in w1.t.rows
        ensures i in w.t.rows && w1.t.rows[i].dir == w.t.rows[i].dir
      {
        CheckpointAllEffect(w.t, front, out, i);
      }
      CheckpointKeeps(w1, id, out(id), CheckpointEach(w, ids, out), CheckpointEntries(id, DAEMON_ACTOR, out(id)));
    }
  }

  lemma ServeKeeps(w: World, r: Request, c: Choice)
    requires Settled(w.t) && Restorable(w) && Apart(w.t) && Possible(w, Asked(r, c))
    ensures Restorable(Serve(w, r, c))
  {
    ServeTable(w, r, c);
    var w' := Serve(w, r, c);
    if r.Register? {
      RegisterRow(w.t, w.base, r);
    } else if Named(w, r).Some? {
      var id := Named(w, r).value;
      var es := NamedEffect(w.t, r, id, c);
      if r.Pause? && es != [] {
        CheckpointKeeps(w, id, c, w', es);
      }
    }
  }

  lemma PruneKeeps(w: World, dir: Path, end: Removal)
    requires Restorable(w)
    requires forall k :: k in w.t.rows && Resumable(w.t.rows[k].status) ==> !Under(w.t.rows[k].dir, dir)
    ensures Restorable(w.(disk := Remove(w.disk, dir, end)))
  {
    forall k | k in w.t.rows && Resumable(w.t.rows[k].status)
      ensures Kept(w.(disk := Remove(w.disk, dir, end)), k)
    {
      assert Kept(w, k);
    }
  }

  lemma {:induction false} PruneEachKeeps(w: World, jobs: seq<Row>, ends: int -> Removal)
    requires Restorable(w) && Apart(w.t)
    requires forall i :: 0 <= i < |jobs| ==> w.t.IsRow(jobs[i], true)
    ensures Restorable(w.(disk := PruneEach(w.disk, jobs, ends)))
  {
    if jobs == [] {
    } else {
      var front, last := jobs[..|jobs| - 1], jobs[|jobs| - 1];
      PruneEachKeeps(w, front, ends);
      assert w.t.IsRow(last, true);
      PruneKeeps(w.(disk := PruneEach(w.disk, front, ends)), last.job.dir, ends(last.id));
    }
  }

  lemma HappensKeeps(w: World, e: Event)
    requires Settled(w.t) && Restorable(w) && Apart(w.t) && Possible(w, e)
    ensures Restorable(Happens(w, e))
  {
    match e
    case Asked(r, c) => ServeKeeps(w, r, c);
    case Interrupted(jobs, out) =>
      RunningIdsAll(w.t, jobs);
      EachKeeps(w.(latch := true), RunningIds(jobs), out);
    case PruneOne(name, end) =>
      if w.t.Find(name).Some? && IsTerminal(w.t.rows[w.t.Find(name).value].status) {
        PruneKeeps(w, w.t.rows[w.t.Find(name).value].dir, end);
      }
    case PruneAll(jobs, ends) => PruneEachKeeps(w, jobs, ends);
  }

  lemma HappensGrows(w: World, e: Event)
    requires Settled(w.t) && Possible(w, e)
    ensures Grows(w.t, Happens(w, e).t)
  {
    match e
    case Asked(r, c) => ServeGrows(w, r, c);
    case Interrupted(jobs, out) =>
      RunningIdsAll(w.t, jobs);
      EachGrows(w.(latch := true), RunningIds(jobs), out);
    case _ =>
  }

  /** Resumable means restorable: in every run whose jobs' directories are apart, every job in CHECKPOINT_CREATED or
      RESTORE_FAILED still has, in its directory, the checkpoint its last successful dump or its adopt left there,
      whatever was paused, resumed, cancelled, adopted, interrupted or pruned in between. */
  lemma {:induction false} ResumableIsRestorable(base: Path, disk: Disk, es: seq<Event>)
    requires Apart(AfterAll(Start(base, disk), es).t)
    ensures Restorable(AfterAll(Start(base, disk), es))
  {
    if es == [] {
    } else {
      var w, e := AfterAll(Start(base, disk), es[..|es| - 1]), es[|es| - 1];
      Quiescence(base, disk, es[..|es| - 1]);
      if Possible(w, e) {
        HappensGrows(w, e);
        ApartBefore(w.t, Happens(w, e).t);
        ResumableIsRestorable(base, disk, es[..|es| - 1]);
        HappensKeeps(w, e);
      } else {
        ResumableIsRestorable(base, disk, es[..|es| - 1]);
      }
    }
  }

  /** Pruning a terminal job spares another job's checkpoint exactly when that does not lie in the terminal job's
      directory. */
  lemma PruneKeepsIff(w: World, name: string, k: int)
    requires w.t.Find(name).Some? && IsTerminal(w.t.rows[w.t.Find(name).value].status)
    requires k in w.t.rows && Kept(w, k)
    ensures var w' := Happens(w, PruneOne(name, Removed));
            var dir := w.t.rows[w.t.Find(name).value].dir;
            && w'.t == w.t
            && (Kept(w', k) <==> dir == [] || !(dir <= w.t.rows[k].dir))
  {
  }

  /** A finished job's directory can be adopted, since the scan looks at active jobs only, and pruning the finished job
      then deletes the adopted checkpoint. */
  lemma PruneTakesAdopted(w: World, name: string, at: int, meta: Meta, c: Choice)
    requires !w.latch && Plausible(c) && c.ok
    requires w.t.Find(name).Some? && w.t.Find(name).value != w.t.lastId + 1
    requires var j := w.t.rows[w.t.Find(name).value];
             IsTerminal(j.status) && j.dir != [] && j.dir in w.disk && !w.t.Occupied(j.dir)
    ensures var dir := w.t.rows[w.t.Find(name).value].dir;
            var w1 := Serve(w, Adopt(dir, at, meta), c);
            var w2, n := Happens(w1, PruneOne(name, Removed)), w.t.lastId + 1;
            && Possible(w, Asked(Adopt(dir, at, meta), c))
            && n in w2.t.rows && w2.t.rows[n].status == CheckpointCreated && !Kept(w2, n)
  {
    var dir := w.t.rows[w.t.Find(name).value].dir;
    var w1 := Serve(w, Adopt(dir, at, meta), c);
    assert w1.t == w.t.Insert(AdoptedJob(Adopt(dir, at, meta)));
    assert w1.t.Find(name) == w.t.Find(name);
  }

  lemma OneEvent(w: World, es: seq<Event>, e: Event)
    requires Possible(AfterAll(w, es), e)
    ensures AfterAll(w, es + [e]) == Happens(AfterAll(w, es), e)
  {
    assert (es + [e])[..|es|] == es;
  }

  /** The only job so far is "1" in directory d, in the given status. */
  ghost predicate OnlyJob(w: World, status: Status) {
    && !w.latch && w.t.lastId == 1 && w.t.rows.Keys == {1} && w.t.rows[1].status == status && w.t.rows[1].dir == ["d"]
    && w.t.Find("1") == Some(1)
  }

  lemma OnlyJobServed(w: World, r: Request, c: Choice, status: Status, to: Status)
    requires OnlyJob(w, status) && Plausible(c)
    requires || (r == Pause("1", "u") && c.ok && status == Running && to == CheckpointCreated)
             || (r == Cancel("1", "u") && status == CheckpointCreated && to == Canceled)
    ensures Possible(w, Asked(r, c)) && OnlyJob(Serve(w, r, c), to)
    ensures r.Pause? || ["d"] in w.disk ==> ["d"] in Serve(w, r, c).disk
  {
    var _ := NamedEffect(w.t, r, 1, c);
  }

  const ORIGIN := Start([], map[])
  const PAUSE := Asked(Pause("1", "u"), YES)
  const CANCEL := Asked(Cancel("1", "u"), YES)
  const ADOPT := Asked(Adopt(["d"], 1, Meta([], "", "", "", "", "")), YES)

  /** A job registered in d is paused and then cancelled. */
  lemma Finished()
    ensures OnlyJob(AfterAll(ORIGIN, [FIRST] + [PAUSE] + [CANCEL]), Canceled)
    ensures ["d"] in AfterAll(ORIGIN, [FIRST] + [PAUSE] + [CANCEL]).disk
  {
    Registered();
    RegisterRow(ORIGIN.t, ORIGIN.base, FIRST.r);
    OneEvent(ORIGIN, [], FIRST);
    assert [] + [FIRST] == [FIRST];
    var w1 := AfterAll(ORIGIN, [FIRST]);
    OnlyJobServed(w1, PAUSE.r, YES, Running, CheckpointCreated);
    OneEvent(ORIGIN, [FIRST], PAUSE);
    OnlyJobServed(Serve(w1, PAUSE.r, YES), CANCEL.r, YES, CheckpointCreated, Canceled);
    OneEvent(ORIGIN, [FIRST] + [PAUSE], CANCEL);
  }

  /** The condition is needed: register a job in d, pause it, cancel it, adopt d, prune the cancelled job. The adopted job
      is then CHECKPOINT_CREATED and its checkpoint gone. */
  lemma AdoptedThenPruned()
    ensures var w := AfterAll(ORIGIN, [FIRST] + [PAUSE] + [CANCEL] + [ADOPT] + [PruneOne("1", Removed)]);
            2 in w.t.rows && w.t.rows[2].status == CheckpointCreated && !Kept(w, 2)
  {
    var es := [FIRST] + [PAUSE] + [CANCEL];
    Finished();
    PruneTakesAdopted(AfterAll(ORIGIN, es), "1", 1, ADOPT.r.meta, YES);
    OneEvent(ORIGIN, es, ADOPT);
    OneEvent(ORIGIN, es + [ADOPT], PruneOne("1", Removed));
  }

  // ---------------------------------------------------------------- prune, exactly

  /** The removal takes p, if p is in its way. */
  predicate Takes(r: Removal, p: Path) {
    r.Removed? || p in r.gone
  }

  /** The removal of some listed job's directory takes p. */
  ghost predicate Doomed(jobs: seq<Row>, ends: int -> Removal, p: Path) {
    exists i :: 0 <= i < |jobs| && jobs[i].job.dir != [] && jobs[i].job.dir <= p && Takes(ends(jobs[i].id), p)
  }

  lemma DoomedMore(jobs: seq<Row>, ends: int -> Removal, last: Row, p: Path)
    ensures Doomed(jobs + [last], ends, p) <==>
            Doomed(jobs, ends, p) || (last.job.dir != [] && last.job.dir <= p && Takes(ends(last.id), p))
  {
    var all := jobs + [last];
    if Doomed(jobs, ends, p) {
      var i :| 0 <= i < |jobs| && jobs[i].job.dir != [] && jobs[i].job.dir <= p && Takes(ends(jobs[i].id), p);
      assert all[i] == jobs[i];
    }
    if Doomed(all, ends, p) {
      var i :| 0 <= i < |all| && all[i].job.dir != [] && all[i].job.dir <= p && Takes(ends(all[i].id), p);
      assert i < |jobs| ==> jobs[i] == all[i];
    }
    assert all[|jobs|] == last;
  }

  /** A prune of everything, failures included: exactly what the removals of listed directories take is gone, and the rest
      is as it was. */
  lemma {:induction false} PruneExactly(disk: Disk, jobs: seq<Row>, ends: int -> Removal)
    ensures var disk' := PruneEach(disk, jobs, ends);
            && (forall p :: p in disk' <==> p in disk && !Doomed(jobs, ends, p))
            && (forall p :: p in disk' ==> disk'[p] == disk[p])
  {
    if jobs == [] {
    } else {
      var front, last := jobs[..|jobs| - 1], jobs[|jobs| - 1];
      PruneExactly(disk, front, ends);
      assert jobs == front + [last];
      forall p
        ensures Doomed(jobs, ends, p) <==>
                Doomed(front, ends, p) || (last.job.dir != [] && last.job.dir <= p && Takes(ends(last.id), p))
      {
        DoomedMore(front, ends, last, p);
      }
    }
  }

  /** The removal of some terminal job's directory takes p, which is that directory or lies below it. */
  ghost predicate Swept(t: Table, ends: int -> Removal, p: Path) {
    exists i :: i in t.rows && t.rows[i].status in {Failed, Canceled, Completed}
                && t.rows[i].dir != [] && t.rows[i].dir <= p && Takes(ends(i), p)
  }

  lemma DoomedIffSwept(t: Table, jobs: seq<Row>, ends: int -> Removal, p: Path)
    requires t.Listing(jobs, true)
    ensures Doomed(jobs, ends, p) <==> Swept(t, ends, p)
  {
    if Doomed(jobs, ends, p) {
      var i :| 0 <= i < |jobs| && jobs[i].job.dir != [] && jobs[i].job.dir <= p && Takes(ends(jobs[i].id), p);
      assert t.IsRow(jobs[i], true);
      TerminalIff(jobs[i].job.status);
    }
    if Swept(t, ends, p) {
      var id :| id in t.rows && t.rows[id].status in {Failed, Canceled, Completed}
                && t.rows[id].dir != [] && t.rows[id].dir <= p && Takes(ends(id), p);
      TerminalIff(t.rows[id].status);
      assert Row(id, t.rows[id]) in jobs;
      var i :| 0 <= i < |jobs| && jobs[i] == Row(id, t.rows[id]);
    }
  }

  /** Pruning everything spares a job's checkpoint exactly when no terminal job's directory contains it whose removal
      succeeds or takes it before it fails. */
  lemma PruneAllKeepsIff(w: World, jobs: seq<Row>, ends: int -> Removal, k: int)
    requires w.t.Listing(jobs, true) && k in w.t.rows && Kept(w, k)
    ensures Kept(Happens(w, PruneAll(jobs, ends)), k) <==> !Swept(w.t, ends, w.t.rows[k].dir)
  {
    PruneExactly(w.disk, jobs, ends);
    DoomedIffSwept(w.t, jobs, ends, w.t.rows[k].dir);
  }

  /** A repeat after a prune without failures changes nothing on disk, whatever order its own listing comes in and however
      its removals end. */
  lemma PruneTwice(w: World, jobs: seq<Row>, ends: int -> Removal, jobs': seq<Row>, ends': int -> Removal)
    requires w.t.Listing(jobs, true) && w.t.Listing(jobs', true) && forall id :: ends(id).Removed?
    ensures var w1 := Happens(w, PruneAll(jobs, ends));
            var w2 := Happens(w1, PruneAll(jobs', ends'));
            && w1.t == w2.t == w.t && Possible(w1, PruneAll(jobs', ends'))
            && w2.disk.Keys == w1.disk.Keys && forall p :: p in w1.disk ==> w2.disk[p] == w1.disk[p]
  {
    var disk1 := PruneEach(w.disk, jobs, ends);
    PruneExactly(w.disk, jobs, ends);
    PruneExactly(disk1, jobs', ends');
    forall p | p in disk1
      ensures p in PruneEach(disk1, jobs', ends')
    {
      DoomedIffSwept(w.t, jobs, ends, p);
      DoomedIffSwept(w.t, jobs', ends', p);
    }
  }
}
