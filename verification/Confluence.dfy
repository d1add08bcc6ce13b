/** A fan-out with nothing else in flight: whatever the bound and however its workers are scheduled, it leaves what
    checkpointing the RUNNING jobs one at a time would leave. */
module Confluence {
  import opened Lifecycle
  import opened JobTable
  import opened Requests
  import opened Machine
  import opened FanOut
  import opened WholeRequests
  import World
  import WorldSafety

  /** Every thread has finished. */
  ghost predicate AllIdle(s: State) {
    forall p :: p in s.threads ==> s.threads[p] == Thread(false, End) || s.threads[p] == Thread(true, Gone)
  }

  /** Only the fan-out and its workers move, and the dump of a job turns out as out says. */
  ghost predicate OwnStep(s: State, a: Action, out: int -> Choice) {
    match a
    case FanOut(_) => true
    case Run(p, c) =>
      p in s.threads && s.threads[p].pc.Dump? ==> DumpUpdate(c) == DumpUpdate(out(s.threads[p].pc.id))
    case _ => false
  }

  ghost predicate OwnSteps(s: State, acts: seq<Action>, out: int -> Choice) {
    acts == [] ||
    var front := acts[..|acts| - 1];
    OwnSteps(s, front, out) && OwnStep(Exec(s, front), acts[|acts| - 1], out)
  }

  /** How far a worker has brought its job. */
  function Stage(pc: Pc): nat {
    match pc
    case Read(_, _, _, ThenDump) => 0
    case Commit(_, _, _, _, ThenDump) => 0
    case Dump(_, _) => 1
    case Read(_, _, _, _) => 1
    case Commit(_, _, _, _, _) => 1
    case _ => 2
  }

  function StageRow(j: Job, stage: nat, c: Choice): Job {
    if stage == 0 then j
    else if stage == 1 then j.(status := CheckpointInProgress, reason := "")
    else CheckpointedRow(j, c)
  }

  function StageEntries(id: int, stage: nat, c: Choice): seq<Entry> {
    if stage == 0 then []
    else if stage == 1 then [CheckpointEntries(id, DAEMON_ACTOR, c)[0]]
    else CheckpointEntries(id, DAEMON_ACTOR, c)
  }

  /** What a worker carries agrees with its job's stage. */
  predicate InStep(pc: Pc, c: Choice) {
    match pc
    case Commit(_, from, _, _, ThenDump) => from == Running
    case Read(_, u, _, ThenEnd) => u == DumpUpdate(c)
    case Commit(_, from, u, _, ThenEnd) => from == CheckpointInProgress && u == DumpUpdate(c)
    case _ => true
  }

  /** The job's record in t is its record in t0 brought to the given stage. */
  ghost predicate AtStage(t0: Table, t: Table, id: int, stage: nat, c: Choice)
    requires id in t0.rows
  {
    && id in t.rows
    && t.rows[id] == StageRow(t0.rows[id], stage, c)
    && Of(t.history, id) == Of(t0.history, id) + StageEntries(id, stage, c)
  }

  ghost predicate Worked(t0: Table, t: Table, id: int, p: nat, threads: map<nat, Thread>, c: Choice) {
    && OnDuty(p, id, threads) && id in t0.rows && t0.rows[id].status == Running
    && InStep(threads[p].pc, c) && AtStage(t0, t, id, Stage(threads[p].pc), c)
  }

  /** Every worker's job is at its worker's stage, and every other record is as it was. */
  ghost predicate Records(
    t0: Table, t: Table, plan: seq<int>, workers: seq<nat>, threads: map<nat, Thread>, out: int -> Choice)
    requires |workers| <= |plan|
  {
    && (forall i :: 0 <= i < |workers| ==> Worked(t0, t, plan[i], workers[i], threads, out(plan[i])))
    && (forall id :: id in t0.rows && id !in plan[..|workers|] ==> AtStage(t0, t, id, 0, out(id)))
  }

  ghost predicate HandlersDone(threads: map<nat, Thread>) {
    forall p :: p in threads && !threads[p].worker ==> threads[p].pc == End
  }

  ghost predicate Progress(t0: Table, s: State, out: int -> Choice) {
    && (Active(s.fan) || s.fan.pc == Returned) && AllRunning(t0, s.fan.plan) && |s.fan.workers| <= |s.fan.plan|
    && s.t.rows.Keys == t0.rows.Keys && s.t.lastId == t0.lastId
    && HandlersDone(s.threads)
    && Records(t0, s.t, s.fan.plan, s.fan.workers, s.threads, out)
  }

  lemma StageForward(t0: Table, t: Table, id: int, e: Entry, u: Update, stage: nat, c: Choice)
    requires id in t0.rows && AtStage(t0, t, id, stage, c) && stage < 2 && e.id == id && e.to == u.To()
    requires e == CheckpointEntries(id, DAEMON_ACTOR, c)[stage]
    requires u == if stage == 0 then SetStatus(CheckpointInProgress, "") else DumpUpdate(c)
    ensures AtStage(t0, t.Commit(id, e.from, u, e.actor), id, stage + 1, c)
  {
    var es := Of(t0.history, id);
    var e1, e2 := CheckpointEntries(id, DAEMON_ACTOR, c)[0], CheckpointEntries(id, DAEMON_ACTOR, c)[1];
    assert es + [] == es && es + [e1] + [e2] == es + [e1, e2];
    OfAppend(t.history, e, id);
  }

  /** A step of a worker takes its own job's record along. */
  lemma WorkerRecord(t0: Table, s: State, th: Thread, id: int, c: Choice, c0: Choice)
    requires id in t0.rows && t0.rows[id].status == Running
    requires WorkerAt(th.pc, id) && InStep(th.pc, c0) && AtStage(t0, s.t, id, Stage(th.pc), c0)
    requires th.pc.Dump? ==> DumpUpdate(c) == DumpUpdate(c0)
    ensures InStep(NextPc(s, th, c), c0)
    ensures AtStage(t0, NextTable(s, th.pc), id, Stage(NextPc(s, th, c)), c0)
  {
    if th.pc.Commit? {
      WorkerCommit(t0, s, th, id, c, c0);
    } else {
      WorkerMove(t0, s, th, id, c, c0);
    }
  }

  lemma WorkerCommit(t0: Table, s: State, th: Thread, id: int, c: Choice, c0: Choice)
    requires id in t0.rows && t0.rows[id].status == Running && th.pc.Commit?
    requires WorkerAt(th.pc, id) && InStep(th.pc, c0) && AtStage(t0, s.t, id, Stage(th.pc), c0)
    ensures InStep(NextPc(s, th, c), c0)
    ensures AtStage(t0, NextTable(s, th.pc), id, Stage(NextPc(s, th, c)), c0)
  {
    var pc := th.pc;
    StageForward(t0, s.t, id, Entry(id, pc.from, pc.u.To(), pc.actor), pc.u, Stage(pc), c0);
  }

  lemma WorkerMove(t0: Table, s: State, th: Thread, id: int, c: Choice, c0: Choice)
    requires id in t0.rows && t0.rows[id].status == Running && !th.pc.Commit?
    requires WorkerAt(th.pc, id) && InStep(th.pc, c0) && AtStage(t0, s.t, id, Stage(th.pc), c0)
    requires th.pc.Dump? ==> DumpUpdate(c) == DumpUpdate(c0)
    ensures InStep(NextPc(s, th, c), c0)
    ensures NextTable(s, th.pc) == s.t && Stage(NextPc(s, th, c)) == Stage(th.pc)
  {
  }

  ghost predicate RecordKept(t: Table, t': Table, id: int) {
    id in t.rows ==> id in t'.rows && t'.rows[id] == t.rows[id] && Of(t'.history, id) == Of(t.history, id)
  }

  /** ... and leaves every other record alone. */
  lemma OtherRecord(s: State, pc: Pc, id: int, other: int)
    requires other != id && WorkerAt(pc, id)
    ensures RecordKept(s.t, NextTable(s, pc), other)
  {
    if pc.Commit? {
      OfAppend(s.t.history, Entry(id, pc.from, pc.u.To(), pc.actor), other);
    }
  }

  lemma RecordsMove(t0: Table, t: Table, t': Table, plan: seq<int>, workers: seq<nat>,
                    threads: map<nat, Thread>, out: int -> Choice, i: nat, th: Thread)
    requires i < |workers| <= |plan| && Distinct(workers) && AllRunning(t0, plan)
    requires Records(t0, t, plan, workers, threads, out)
    requires Worked(t0, t', plan[i], workers[i], threads[workers[i] := th], out(plan[i]))
    requires forall other :: other != plan[i] ==> RecordKept(t, t', other)
    ensures Records(t0, t', plan, workers, threads[workers[i] := th], out)
  {
    forall k | 0 <= k < |workers|
      ensures Worked(t0, t', plan[k], workers[k], threads[workers[i] := th], out(plan[k]))
    {
      if k != i {
        assert Worked(t0, t, plan[k], workers[k], threads, out(plan[k]));
        assert RecordKept(t, t', plan[k]);
      }
    }
    forall other | other in t0.rows && other !in plan[..|workers|]
      ensures AtStage(t0, t', other, 0, out(other))
    {
      assert plan[i] == plan[..|workers|][i];
      assert RecordKept(t, t', other);
    }
  }

  lemma RecordsSpawn(
    t0: Table, t: Table, plan: seq<int>, workers: seq<nat>, threads: map<nat, Thread>, out: int -> Choice, p: nat)
    requires |workers| < |plan| && AllRunning(t0, plan) && p !in threads
    requires Records(t0, t, plan, workers, threads, out)
    ensures Records(t0, t, plan, workers + [p], threads[p := Thread(true, Marking(plan[|workers|]))], out)
  {
    var n := |workers|;
    var threads' := threads[p := Thread(true, Marking(plan[n]))];
    assert plan[..n + 1] == plan[..n] + [plan[n]];
    forall k | 0 <= k < n + 1
      ensures Worked(t0, t, plan[k], (workers + [p])[k], threads', out(plan[k]))
    {
      if k < n {
        assert Worked(t0, t, plan[k], workers[k], threads, out(plan[k]));
      } else {
        assert AtStage(t0, t, plan[n], 0, out(plan[n]));
      }
    }
  }

  /** A worker's step on its own job adds no row. */
  lemma KeysFixed(s: State, pc: Pc, id: int)
    requires WorkerAt(pc, id)
    ensures NextTable(s, pc).rows.Keys == s.t.rows.Keys && NextTable(s, pc).lastId == s.t.lastId
  {
  }

  lemma RecordsWorker(t0: Table, s: State, out: int -> Choice, i: nat, c: Choice)
    requires FanOk(s) && Progress(t0, s, out) && i < |s.fan.workers|
    requires OwnStep(s, Run(s.fan.workers[i], c), out)
    ensures var th := s.threads[s.fan.workers[i]];
            Records(t0, NextTable(s, th.pc), s.fan.plan, s.fan.workers,
                    s.threads[s.fan.workers[i] := th.(pc := NextPc(s, th, c))], out)
  {
    var p, id := s.fan.workers[i], s.fan.plan[i];
    var th := s.threads[p];
    assert Worked(t0, s.t, id, p, s.threads, out(id));
    WorkerMoves(s, i, c);
    WorkerRecord(t0, s, th, id, c, out(id));
    forall other | other != id
      ensures RecordKept(s.t, NextTable(s, th.pc), other)
    {
      OtherRecord(s, th.pc, id, other);
    }
    RecordsMove(t0, s.t, NextTable(s, th.pc), s.fan.plan, s.fan.workers, s.threads, out, i,
                th.(pc := NextPc(s, th, c)));
  }

  lemma ProgressWorker(t0: Table, s: State, out: int -> Choice, i: nat, c: Choice)
    requires FanOk(s) && Progress(t0, s, out) && i < |s.fan.workers|
    requires OwnStep(s, Run(s.fan.workers[i], c), out)
    ensures Progress(t0, Advance(s, s.fan.workers[i], c), out)
  {
    var th := s.threads[s.fan.workers[i]];
    RecordsWorker(t0, s, out, i, c);
    assert OnDuty(s.fan.workers[i], s.fan.plan[i], s.threads);
    KeysFixed(s, th.pc, s.fan.plan[i]);
    ProgressMoved(t0, s, Advance(s, s.fan.workers[i], c), out, s.fan.workers[i]);
  }

  lemma ProgressMoved(t0: Table, s: State, s': State, out: int -> Choice, p: nat)
    requires Progress(t0, s, out)
    requires s'.fan == s.fan.(tokens := s'.fan.tokens, waiting := s'.fan.waiting)
    requires s'.t.rows.Keys == s.t.rows.Keys && s'.t.lastId == s.t.lastId
    requires p in s'.threads && s'.threads == s.threads[p := s'.threads[p]] && s'.threads[p].worker
    requires Records(t0, s'.t, s.fan.plan, s.fan.workers, s'.threads, out)
    ensures Progress(t0, s', out)
  {
  }

  lemma ProgressLoop(t0: Table, s: State, out: int -> Choice, p: nat)
    requires FanOk(s) && Progress(t0, s, out)
    ensures Progress(t0, FanStep(s, p), out)
  {
    if s.fan.pc == Spawning && p !in s.threads {
      RecordsSpawn(t0, s.t, s.fan.plan, s.fan.workers, s.threads, out, p);
    }
  }

  lemma FinishedStays(s: State, p: nat, c: Choice)
    requires p in s.threads && (s.threads[p] == Thread(false, End) || s.threads[p] == Thread(true, Gone))
    ensures Advance(s, p, c) == s
  {
    assert Advance(s, p, c).threads == s.threads;
  }

  lemma ProgressStep(t0: Table, s: State, out: int -> Choice, a: Action)
    requires FanOk(s) && Progress(t0, s, out) && OwnStep(s, a, out)
    ensures Progress(t0, Step(s, a), out)
  {
    match a
    case Run(p, c) =>
      if p in s.threads && Plausible(c) {
        if p in s.fan.workers {
          var i :| 0 <= i < |s.fan.workers| && s.fan.workers[i] == p;
          ProgressWorker(t0, s, out, i, c);
        } else {
          assert OffDuty(s.threads[p]);
          FinishedStays(s, p, c);
        }
      }
    case FanOut(p) => ProgressLoop(t0, s, out, p);
  }

  lemma {:induction false} ProgressExec(t0: Table, s: State, out: int -> Choice, acts: seq<Action>)
    requires FanOk(s) && Progress(t0, s, out) && OwnSteps(s, acts, out)
    ensures FanOk(Exec(s, acts)) && Progress(t0, Exec(s, acts), out)
  {
    if acts == [] {
    } else {
      ProgressExec(t0, s, out, acts[..|acts| - 1]);
      FanOkStep(Exec(s, acts[..|acts| - 1]), acts[|acts| - 1]);
      ProgressStep(t0, Exec(s, acts[..|acts| - 1]), out, acts[|acts| - 1]);
    }
  }

  lemma ProgressStarts(s: State, jobs: seq<Row>, out: int -> Choice)
    requires FanOk(s) && s.fan.pc == Latched && AllIdle(s) && s.t.Listing(jobs, false)
    ensures FanOk(Step(s, Snapshot(jobs))) && Progress(s.t, Step(s, Snapshot(jobs)), out)
    ensures Step(s, Snapshot(jobs)).fan.plan == RunningIds(jobs)
  {
    FanOkStep(s, Snapshot(jobs));
    RunningIdsAll(s.t, jobs);
    forall id | id in s.t.rows
      ensures AtStage(s.t, s.t, id, 0, out(id))
    {
      assert Of(s.t.history, id) + [] == Of(s.t.history, id);
    }
  }

  /** With no request in flight, for every store, listing order, bound, dump outcome and worker schedule: when the
      fan-out returns, the rows and every job's history are those of checkpointing the RUNNING jobs one at a time.
      CheckpointAllEffect says job by job what that is. */
  lemma {:induction false} FanOutIsSequential(s: State, jobs: seq<Row>, acts: seq<Action>, out: int -> Choice)
    requires FanOk(s) && s.fan.pc == Latched && AllIdle(s) && s.t.Listing(jobs, false)
    requires OwnSteps(Step(s, Snapshot(jobs)), acts, out)
    requires Exec(Step(s, Snapshot(jobs)), acts).fan.pc == Returned
    ensures var s', t' := Exec(Step(s, Snapshot(jobs)), acts), CheckpointAll(s.t, RunningIds(jobs), out);
            && s'.t.rows.Keys == t'.rows.Keys == s.t.rows.Keys && s'.t.lastId == t'.lastId
            && forall id :: id in s.t.rows ==>
                 s'.t.rows[id] == t'.rows[id] && Of(s'.t.history, id) == Of(t'.history, id)
  {
    var s1 := Step(s, Snapshot(jobs));
    ProgressStarts(s, jobs, out);
    ProgressExec(s.t, s1, out, acts);
    PlanFixed(s1, acts, out);
    SequentialEnd(s.t, Exec(s1, acts), out);
  }

  /** In other words, the interruption event of a run of whole requests is what every schedule of the fan-out amounts to. */
  lemma {:induction false} FanOutIsOneEvent(s: State, jobs: seq<Row>, acts: seq<Action>, out: int -> Choice, w: World.World)
    requires FanOk(s) && s.fan.pc == Latched && AllIdle(s) && s.t.Listing(jobs, false)
    requires OwnSteps(Step(s, Snapshot(jobs)), acts, out)
    requires Exec(Step(s, Snapshot(jobs)), acts).fan.pc == Returned
    requires w.t == s.t
    ensures var s', t' := Exec(Step(s, Snapshot(jobs)), acts), World.Happens(w, World.Interrupted(jobs, out)).t;
            && s'.t.rows.Keys == t'.rows.Keys && s'.t.lastId == t'.lastId
            && forall id :: id in s.t.rows ==>
                 id in t'.rows && id in s'.t.rows && s'.t.rows[id] == t'.rows[id] && Of(s'.t.history, id) == Of(t'.history, id)
  {
    FanOutIsSequential(s, jobs, acts, out);
    RunningIdsAll(s.t, jobs);
    WorldSafety.EachTable(w.(latch := true), RunningIds(jobs), out);
  }

  lemma SequentialEnd(t0: Table, s: State, out: int -> Choice)
    requires FanOk(s) && Progress(t0, s, out) && s.fan.pc == Returned
    ensures var t' := CheckpointAll(t0, s.fan.plan, out);
            && s.t.rows.Keys == t'.rows.Keys == t0.rows.Keys && s.t.lastId == t'.lastId
            && forall id :: id in t0.rows ==>
                 s.t.rows[id] == t'.rows[id] && Of(s.t.history, id) == Of(t'.history, id)
  {
    var t' := CheckpointAll(t0, s.fan.plan, out);
    AllGone(s);
    CheckpointAllEffect(t0, s.fan.plan, out, 0);
    forall id | id in t0.rows
      ensures s.t.rows[id] == t'.rows[id] && Of(s.t.history, id) == Of(t'.history, id)
    {
      SequentialRecord(t0, s, out, id);
    }
  }

  lemma SequentialRecord(t0: Table, s: State, out: int -> Choice, id: int)
    requires FanOk(s) && Progress(t0, s, out) && s.fan.pc == Returned && id in t0.rows
    requires forall p :: p in s.threads && s.threads[p].worker ==> s.threads[p].pc == Gone
    ensures id in s.t.rows && id in CheckpointAll(t0, s.fan.plan, out).rows
    ensures s.t.rows[id] == CheckpointAll(t0, s.fan.plan, out).rows[id]
    ensures Of(s.t.history, id) == Of(CheckpointAll(t0, s.fan.plan, out).history, id)
  {
    FinalRecord(t0, s, out, id);
    RecordInSequence(t0, s.t, s.fan.plan, out, id);
  }

  lemma RecordInSequence(t0: Table, t: Table, plan: seq<int>, out: int -> Choice, id: int)
    requires AllRunning(t0, plan) && id in t0.rows
    requires AtStage(t0, t, id, if id in plan then 2 else 0, out(id))
    ensures id in CheckpointAll(t0, plan, out).rows
    ensures t.rows[id] == CheckpointAll(t0, plan, out).rows[id]
    ensures Of(t.history, id) == Of(CheckpointAll(t0, plan, out).history, id)
  {
    CheckpointAllEffect(t0, plan, out, id);
    assert Of(t0.history, id) + [] == Of(t0.history, id);
  }

  lemma FinalRecord(t0: Table, s: State, out: int -> Choice, id: int)
    requires FanOk(s) && Progress(t0, s, out) && s.fan.pc == Returned && id in t0.rows
    requires forall p :: p in s.threads && s.threads[p].worker ==> s.threads[p].pc == Gone
    ensures AtStage(t0, s.t, id, if id in s.fan.plan then 2 else 0, out(id))
  {
    assert s.fan.plan[..|s.fan.workers|] == s.fan.plan;
    if id in s.fan.plan {
      var i :| 0 <= i < |s.fan.plan| && s.fan.plan[i] == id;
      assert Worked(t0, s.t, id, s.fan.workers[i], s.threads, out(id));
    }
  }

  lemma {:induction false} PlanFixed(s: State, acts: seq<Action>, out: int -> Choice)
    requires OwnSteps(s, acts, out)
    ensures Exec(s, acts).fan.plan == s.fan.plan
  {
    if acts == [] {
    } else {
      PlanFixed(s, acts[..|acts| - 1], out);
      PlanFixedStep(Exec(s, acts[..|acts| - 1]), acts[|acts| - 1]);
    }
  }

  lemma PlanFixedStep(s: State, a: Action)
    requires a.Run? || a.FanOut?
    ensures Step(s, a).fan.plan == s.fan.plan
  {
  }
}
