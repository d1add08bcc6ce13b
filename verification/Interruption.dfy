/** The interruption latch and the fan-out against concurrent requests: who is turned away, and which jobs can still
    be RUNNING when the fan-out returns. */
module Interruption {
  import opened Lifecycle
  import opened JobTable
  import opened Requests
  import opened Machine
  import opened MachineSafety
  import opened Freshness
  import FanOut

  /** A register, adopt or pause that has not checked the latch by the time it is set ends without touching the
      store: along every schedule it stays where it is or at its end, and none of its steps changes a table. */
  lemma {:induction false} LateHandlerIsTurnedAway(s: State, acts: seq<Action>, p: nat, c: Choice)
    requires s.latch && p in s.threads && !s.threads[p].worker && !PastLatch(s.threads[p].pc)
    ensures var s' := Exec(s, acts);
            && s'.latch && p in s'.threads
            && (s'.threads[p] == s.threads[p] || s'.threads[p] == Thread(false, End))
            && Step(s', Run(p, c)).t == s'.t
  {
    if acts == [] {
    } else {
      LateHandlerIsTurnedAway(s, acts[..|acts| - 1], p, c);
      TurnedAwayStep(Exec(s, acts[..|acts| - 1]), acts[|acts| - 1], p);
    }
  }

  lemma TurnedAwayStep(s: State, a: Action, p: nat)
    requires s.latch && p in s.threads && !s.threads[p].worker
    requires !PastLatch(s.threads[p].pc) || s.threads[p].pc == End
    ensures var s' := Step(s, a);
            s'.latch && p in s'.threads && (s'.threads[p] == s.threads[p] || s'.threads[p] == Thread(false, End))
  {
  }

  /** Past its latch check, but before the store call the check guards. */
  predicate Admitted(pc: Pc) {
    pc.RegisterInsert? || pc.AdoptScan? || pc.AdoptInsert? || pc.PauseGet?
  }

  /** Once the latch is set, only threads that had passed it by then are on their way to the store. */
  ghost predicate LatchOk(s: State) {
    && (s.fan.pc != Idle ==> s.latch)
    && (s.latch ==> forall p :: p in s.threads && Admitted(s.threads[p].pc) ==> p in s.past.early)
  }

  lemma LatchOkStep(s: State, a: Action)
    requires LatchOk(s)
    ensures LatchOk(Step(s, a))
  {
    if s.latch && a.Run? && a.p in s.threads && Plausible(a.c) {
      AdmittedBefore(s, s.threads[a.p], a.c);
    }
  }

  lemma AdmittedBefore(s: State, th: Thread, c: Choice)
    requires s.latch
    ensures Admitted(NextPc(s, th, c)) ==> Admitted(th.pc)
  {
  }

  /** The job re-entered RUNNING by a recorded restore after the snapshot. */
  ghost predicate Revived(h: seq<Entry>, mark: nat, id: int) {
    exists k :: mark <= k < |h| && h[k].id == id && IsRestore(h[k])
  }

  predicate Marks(pc: Pc) {
    (pc.Read? || pc.Commit?) && pc.next == ThenDump
  }

  /** The fan-out has yet to try to move the job out of RUNNING. */
  ghost predicate Unmarked(plan: seq<int>, workers: seq<nat>, threads: map<nat, Thread>, id: int) {
    exists i :: 0 <= i < |plan| && plan[i] == id && (i < |workers| ==> WillMark(workers[i], threads))
  }

  predicate WillMark(p: nat, threads: map<nat, Thread>) {
    p in threads && Marks(threads[p].pc)
  }

  ghost predicate Covered(s: State, id: int)
    requires id in s.t.rows
  {
    || s.t.rows[id].status != Running
    || Revived(s.t.history, s.fan.mark, id)
    || Unmarked(s.fan.plan, s.fan.workers, s.threads, id)
  }

  predicate Taken(fan: Fan) {
    fan.pc != Idle && fan.pc != Latched
  }

  ghost predicate ShieldOk(s: State)
    requires s.past.maker.Keys == s.t.rows.Keys
  {
    Taken(s.fan) ==>
      && s.fan.mark <= |s.t.history|
      && (forall k :: 0 <= k < s.fan.mark ==> s.t.history[k].id in s.fan.known)
      && (forall id :: id in s.fan.known ==> id in s.t.rows && Covered(s, id))
      && (forall id :: id in s.t.rows && id !in s.fan.known ==> s.past.maker[id] in s.past.early)
  }

  lemma HistoryGrows(s: State, a: Action)
    ensures s.t.history <= Step(s, a).t.history
  {
    if !(a.Run? && a.p in s.threads && Plausible(a.c)) {
      Quiet(s, a);
    }
  }

  /** Trying to mark a RUNNING job either leads to the commit or finds the job not RUNNING after all. */
  lemma MarkingStep(s: State, th: Thread, c: Choice, id: int)
    requires id in s.t.rows && s.t.rows[id].status == Running
    requires FanOut.WorkerAt(th.pc, id) && Marks(th.pc) && !th.pc.Commit?
    ensures Marks(NextPc(s, th, c))
  {
  }

  lemma UnmarkedRun(s: State, p: nat, c: Choice, id: int)
    requires FanOut.FanOk(s) && p in s.threads && id in s.t.rows && s.t.rows[id].status == Running
    requires Unmarked(s.fan.plan, s.fan.workers, s.threads, id) && !(s.threads[p].pc.Commit? && s.threads[p].pc.id == id)
    ensures Unmarked(s.fan.plan, s.fan.workers, Advance(s, p, c).threads, id)
  {
    var i :| 0 <= i < |s.fan.plan| && s.fan.plan[i] == id &&
             (i < |s.fan.workers| ==> WillMark(s.fan.workers[i], s.threads));
    if i < |s.fan.workers| && s.fan.workers[i] == p {
      assert FanOut.OnDuty(p, id, s.threads);
      MarkingStep(s, s.threads[p], c, id);
    }
    assert i < |s.fan.workers| ==> WillMark(s.fan.workers[i], Advance(s, p, c).threads);
  }

  lemma RevivedGrows(h: seq<Entry>, h': seq<Entry>, mark: nat, id: int)
    requires h <= h' && Revived(h, mark, id)
    ensures Revived(h', mark, id)
  {
    var k :| mark <= k < |h| && h[k].id == id && IsRestore(h[k]);
    assert h'[k] == h[k];
  }

  /** Whatever is committed to the job, it is then either not RUNNING or restored after the snapshot. */
  lemma CoveredCommit(s: State, a: Action, id: int)
    requires Safe(s) && id in s.t.rows && Commits(s, a, id) && s.fan.mark <= |s.t.history|
    ensures var s' := Step(s, a);
            id in s'.t.rows && (s'.t.rows[id].status == Running ==> Revived(s'.t.history, s.fan.mark, id))
  {
    var pc := s.threads[a.p].pc;
    Touched(s, a, id);
    var e := Entry(id, pc.from, pc.u.To(), pc.actor);
    assert Step(s, a).t.history == s.t.history + [e];
    RevivedNow(s.t.history, e, s.fan.mark);
  }

  lemma RevivedNow(h: seq<Entry>, e: Entry, mark: nat)
    requires mark <= |h|
    ensures IsRestore(e) ==> Revived(h + [e], mark, e.id)
  {
    assert (h + [e])[|h|] == e;
  }

  lemma SnapshotFixed(s: State, p: nat, c: Choice)
    requires p in s.threads
    ensures var s' := Step(s, Run(p, c));
            && s'.fan == s.fan.(tokens := s'.fan.tokens, waiting := s'.fan.waiting)
            && s'.past.early == s.past.early && s'.latch == s.latch
  {
  }

  lemma CoveredRun(s: State, p: nat, c: Choice, id: int)
    requires Safe(s) && FanOut.FanOk(s) && p in s.threads && Plausible(c)
    requires id in s.t.rows && Covered(s, id) && s.fan.mark <= |s.t.history|
    ensures id in Step(s, Run(p, c)).t.rows && Covered(Step(s, Run(p, c)), id)
  {
    var s' := Step(s, Run(p, c));
    SnapshotFixed(s, p, c);
    if Commits(s, Run(p, c), id) {
      CoveredCommit(s, Run(p, c), id);
    } else {
      Untouched(s, Run(p, c), id);
      if s.t.rows[id].status == Running {
        if Revived(s.t.history, s.fan.mark, id) {
          HistoryGrows(s, Run(p, c));
          RevivedGrows(s.t.history, s'.t.history, s.fan.mark, id);
        } else {
          UnmarkedRun(s, p, c, id);
        }
      }
    }
  }

  /** A row that appears while the latch is set was inserted by a thread that had passed it before. */
  lemma MakerIsEarly(s: State, p: nat, pc: Pc, id: int)
    requires s.past.maker.Keys == s.t.rows.Keys && id in NextTable(s, pc).rows
    requires pc.Commit? ==> pc.id in s.t.rows
    ensures id in NextPast(s, p, pc).maker
    ensures if id in s.t.rows && id <= s.t.lastId then NextPast(s, p, pc).maker[id] == s.past.maker[id]
            else id !in s.t.rows ==> NextPast(s, p, pc).maker[id] == p && Admitted(pc)
  {
  }

  lemma NewcomersRun(s: State, p: nat, c: Choice, id: int)
    requires Safe(s) && LatchOk(s) && ShieldOk(s) && Taken(s.fan) && p in s.threads && Plausible(c)
    requires id in Step(s, Run(p, c)).t.rows && id !in s.fan.known
    ensures id in Step(s, Run(p, c)).past.maker && Step(s, Run(p, c)).past.maker[id] in s.past.early
  {
    assert PcOk(s.t, s.threads[p].pc);
    MakerIsEarly(s, p, s.threads[p].pc, id);
  }

  lemma MarkFixed(s: State, s': State)
    requires s.past.maker.Keys == s.t.rows.Keys && s'.past.maker.Keys == s'.t.rows.Keys
    requires s'.fan == s.fan.(tokens := s'.fan.tokens, waiting := s'.fan.waiting)
    requires ShieldOk(s) && s.t.history <= s'.t.history && s'.past.early == s.past.early
    requires Taken(s.fan) ==> forall id :: id in s.fan.known ==> id in s'.t.rows && Covered(s', id)
    requires Taken(s.fan) ==>
               forall id :: id in s'.t.rows && id !in s.fan.known ==> s'.past.maker[id] in s.past.early
    ensures ShieldOk(s')
  {
    assert s'.fan.known == s.fan.known && Taken(s'.fan) == Taken(s.fan);
  }

  lemma ShieldRun(s: State, p: nat, c: Choice)
    requires Safe(s) && FanOut.FanOk(s) && LatchOk(s) && ShieldOk(s) && p in s.threads && Plausible(c)
    ensures var s' := Step(s, Run(p, c)); s'.past.maker.Keys == s'.t.rows.Keys && ShieldOk(s')
  {
    var s' := Step(s, Run(p, c));
    SafeStep(s, Run(p, c));
    SnapshotFixed(s, p, c);
    HistoryGrows(s, Run(p, c));
    forall id | Taken(s.fan) && id in s.fan.known
      ensures id in s'.t.rows && Covered(s', id)
    {
      CoveredRun(s, p, c, id);
    }
    forall id | Taken(s.fan) && id in s'.t.rows && id !in s.fan.known
      ensures s'.past.maker[id] in s.past.early
    {
      NewcomersRun(s, p, c, id);
    }
    MarkFixed(s, s');
  }

  lemma ShieldSnapshot(s: State, jobs: seq<Row>)
    requires Safe(s) && ShieldOk(s) && s.fan.pc == Latched && s.t.Listing(jobs, false)
    ensures ShieldOk(Step(s, Snapshot(jobs)))
  {
    var s' := Step(s, Snapshot(jobs));
    forall id | id in s.t.rows && s.t.rows[id].status == Running
      ensures Unmarked(s'.fan.plan, s'.fan.workers, s'.threads, id)
    {
      assert Row(id, s.t.rows[id]) in jobs;
      RunningIdsSound(jobs, id);
      var i :| 0 <= i < |s'.fan.plan| && s'.fan.plan[i] == id;
    }
  }

  lemma UnmarkedSpawn(s: State, p: nat, id: int)
    requires FanOut.FanOk(s) && s.fan.pc == Spawning && p !in s.threads
    requires Unmarked(s.fan.plan, s.fan.workers, s.threads, id)
    ensures var s' := FanStep(s, p); Unmarked(s'.fan.plan, s'.fan.workers, s'.threads, id)
  {
    var s' := FanStep(s, p);
    var i :| 0 <= i < |s.fan.plan| && s.fan.plan[i] == id &&
             (i < |s.fan.workers| ==> WillMark(s.fan.workers[i], s.threads));
    assert i < |s'.fan.workers| ==> WillMark(s'.fan.workers[i], s'.threads);
  }

  lemma ShieldFanStep(s: State, p: nat)
    requires Safe(s) && FanOut.FanOk(s) && ShieldOk(s)
    ensures ShieldOk(FanStep(s, p))
  {
    if s.fan.pc == Spawning && p !in s.threads {
      forall id | id in s.fan.known && Unmarked(s.fan.plan, s.fan.workers, s.threads, id)
        ensures Unmarked(FanStep(s, p).fan.plan, FanStep(s, p).fan.workers, FanStep(s, p).threads, id)
      {
        UnmarkedSpawn(s, p, id);
      }
    }
  }

  lemma ShieldArrive(s: State, p: nat, th: Thread)
    requires Safe(s) && ShieldOk(s) && p !in s.threads
    ensures ShieldOk(s.(threads := s.threads[p := th]))
  {
    var s' := s.(threads := s.threads[p := th]);
    forall id | Taken(s.fan) && id in s.fan.known
      ensures Covered(s', id)
    {
      if Unmarked(s.fan.plan, s.fan.workers, s.threads, id) {
        var i :| 0 <= i < |s.fan.plan| && s.fan.plan[i] == id &&
                 (i < |s.fan.workers| ==> WillMark(s.fan.workers[i], s.threads));
        assert i < |s.fan.workers| ==> WillMark(s.fan.workers[i], s'.threads);
      }
    }
  }

  lemma ShieldStep(s: State, a: Action)
    requires Safe(s) && FanOut.FanOk(s) && LatchOk(s) && ShieldOk(s)
    ensures var s' := Step(s, a); s'.past.maker.Keys == s'.t.rows.Keys && ShieldOk(s')
  {
    match a
    case Run(p, c) =>
      if p in s.threads && Plausible(c) {
        ShieldRun(s, p, c);
      }
    case Arrive(p, r) =>
      if p !in s.threads {
        ShieldArrive(s, p, Thread(false, Begin(r)));
      }
    case Signal =>
    case Snapshot(jobs) =>
      if s.fan.pc == Latched && s.t.Listing(jobs, false) {
        ShieldSnapshot(s, jobs);
      }
    case FanOut(p) => ShieldFanStep(s, p);
  }

  lemma {:induction false} ShieldExec(base: Path, max: nat, acts: seq<Action>)
    ensures var s := Exec(Init(base, max), acts);
            Safe(s) && FanOut.FanOk(s) && LatchOk(s) && ShieldOk(s)
  {
    SafeExec(Init(base, max), acts);
    FanOut.FanOkExec(base, max, acts);
    if acts == [] {
    } else {
      ShieldExec(base, max, acts[..|acts| - 1]);
      var s := Exec(Init(base, max), acts[..|acts| - 1]);
      LatchOkStep(s, acts[|acts| - 1]);
      ShieldStep(s, acts[|acts| - 1]);
    }
  }

  lemma KnownJob(s: State, id: int)
    requires FanOut.FanOk(s) && s.fan.pc == Returned && id in s.t.rows && Covered(s, id)
    requires s.t.rows[id].status == Running
    ensures Revived(s.t.history, s.fan.mark, id)
  {
    FanOut.AllGone(s);
    forall i | 0 <= i < |s.fan.workers|
      ensures !WillMark(s.fan.workers[i], s.threads)
    {
      assert FanOut.OnDuty(s.fan.workers[i], s.fan.plan[i], s.threads);
    }
  }

  lemma AdoptedWasRestored(t: Table, past: Past, id: int) returns (k: nat)
    requires TableOk(t, past) && id in t.rows && t.rows[id].status == Running && !IsRegistered(past.born[id])
    ensures k < |t.history| && t.history[k].id == id && IsRestore(t.history[k])
  {
    var es := Of(t.history, id);
    assert RowOk(t.rows[id], es, past.born[id], past.pids[id]);
    var at := OfSource(t.history, id);
    k := at[|es| - 1];
  }

  lemma Newcomer(s: State, id: int)
    requires TableOk(s.t, s.past) && ShieldOk(s) && Taken(s.fan) && id in s.t.rows && id !in s.fan.known
    requires s.t.rows[id].status == Running && !IsRegistered(s.past.born[id])
    ensures Revived(s.t.history, s.fan.mark, id)
  {
    var k := AdoptedWasRestored(s.t, s.past, id);
  }

  /** For every interleaving of requests with a fan-out: a job that is RUNNING when the fan-out returns was restored,
      on record, after the fan-out's snapshot, or it was registered after the snapshot by a request that had
      passed the latch before the latch was set. */
  lemma NoJobSlipsThrough(base: Path, max: nat, acts: seq<Action>, id: int)
    requires Exec(Init(base, max), acts).fan.pc == Returned
    requires id in Exec(Init(base, max), acts).t.rows && Exec(Init(base, max), acts).t.rows[id].status == Running
    ensures var s := Exec(Init(base, max), acts);
            && id in s.past.born && id in s.past.maker
            && (Revived(s.t.history, s.fan.mark, id) ||
                (id !in s.fan.known && IsRegistered(s.past.born[id]) && s.past.maker[id] in s.past.early))
  {
    ShieldExec(base, max, acts);
    var s := Exec(Init(base, max), acts);
    if id in s.fan.known {
      KnownJob(s, id);
    } else if !IsRegistered(s.past.born[id]) {
      Newcomer(s, id);
    }
  }
}
