/** What the tables guarantee under every interleaving. */
module MachineSafety {
  import opened Numerals
  import opened Lifecycle
  import opened JobTable
  import opened Requests
  import opened Machine

  /** The status a history leads to, going by its last entry alone. */
  function Target(s0: Status, es: seq<Entry>): Status {
    if es == [] then s0 else es[|es| - 1].to
  }

  function RestoreCount(es: seq<Entry>): nat {
    if es == [] then 0 else RestoreCount(es[..|es| - 1]) + (if IsRestore(es[|es| - 1]) then 1 else 0)
  }

  /** The pid of the latest restore, or else the one the job came with. */
  function LatestPid(pid: int, pids: seq<int>): int {
    if pids == [] then pid else pids[|pids| - 1]
  }

  ghost predicate PcOk(t: Table, pc: Pc) {
    match pc
    case RegisterLatch(j) => IsRegistered(j)
    case RegisterInsert(j) => IsRegistered(j)
    case RegisterDir(id) => id in t.rows
    case AdoptLatch(j) => IsAdopted(j)
    case AdoptScan(j) => IsAdopted(j)
    case AdoptInsert(j) => IsAdopted(j)
    case CancelKill(id, pgid, _) => id in t.rows && pgid > 0
    case Read(id, u, _, _) => id in t.rows && WellFormed(u)
    case Commit(id, from, u, _, _) => id in t.rows && WellFormed(u) && ValidTransition(from, u.To())
    case Dump(id, _) => id in t.rows
    case Restore(id, _) => id in t.rows
    case _ => true
  }

  /** One job's row against its own history es, the job as inserted, and the pids its restores brought. */
  ghost predicate RowOk(j: Job, es: seq<Entry>, born: Job, pids: seq<int>) {
    && (IsRegistered(born) || IsAdopted(born))
    && j.status == Target(born.status, es)
    && j.pid == j.pgid == LatestPid(born.pid, pids)
    && |pids| == RestoreCount(es)
    && (pids != [] ==> j.pid > 0)
    && j.meta == born.meta && j.registeredAt == born.registeredAt
  }

  ghost predicate RowsOk(t: Table, past: Past) {
    && past.born.Keys == past.maker.Keys == past.pids.Keys == t.rows.Keys
    && forall id :: id in t.rows ==> RowOk(t.rows[id], Of(t.history, id), past.born[id], past.pids[id])
  }

  ghost predicate EdgesOk(t: Table) {
    forall i :: 0 <= i < |t.history| ==> ValidTransition(t.history[i].from, t.history[i].to)
  }

  ghost predicate ThreadsOk(s: State) {
    forall p :: p in s.threads ==> PcOk(s.t, s.threads[p].pc)
  }

  ghost predicate SignalsOk(s: State) {
    forall i :: 0 <= i < |s.past.signalled| ==> s.past.signalled[i] > 0
  }

  ghost predicate TableOk(t: Table, past: Past) {
    t.Valid() && EdgesOk(t) && RowsOk(t, past)
  }

  ghost predicate PlanOk(s: State) {
    forall i :: 0 <= i < |s.fan.plan| ==> s.fan.plan[i] in s.t.rows
  }

  ghost predicate Safe(s: State) {
    TableOk(s.t, s.past) && ThreadsOk(s) && SignalsOk(s) && PlanOk(s)
  }

  lemma {:induction false} OfAbsent(h: seq<Entry>, id: int)
    requires forall i :: 0 <= i < |h| ==> h[i].id != id
    ensures Of(h, id) == []
  {
    if h == [] {
    } else {
      OfAbsent(h[..|h| - 1], id);
    }
  }

  lemma RestoreCountAppend(es: seq<Entry>, e: Entry)
    ensures RestoreCount(es + [e]) == RestoreCount(es) + if IsRestore(e) then 1 else 0
  {
    assert (es + [e])[..|es|] == es;
  }

  lemma InsertTableOk(t: Table, past: Past, p: nat, j: Job)
    requires TableOk(t, past) && (IsRegistered(j) || IsAdopted(j))
    ensures TableOk(t.Insert(j), Recorded(past, p, t.lastId + 1, j))
  {
    OfAbsent(t.history, t.lastId + 1);
    assert RowOk(j, [], j, []);
  }

  lemma DirTableOk(t: Table, past: Past, id: int, dir: Path)
    requires TableOk(t, past)
    ensures TableOk(t.WithDir(id, dir), past)
  {
    if id in t.rows {
      assert RowOk(t.rows[id], Of(t.history, id), past.born[id], past.pids[id]);
    }
  }

  lemma CommitRowOk(j: Job, es: seq<Entry>, born: Job, pids: seq<int>, e: Entry, u: Update)
    requires RowOk(j, es, born, pids)
    requires WellFormed(u) && ValidTransition(e.from, e.to) && e.to == u.To()
    ensures RowOk(u.Apply(j), es + [e], born, if u.SetPid? then pids + [u.pid] else pids)
  {
    RestoreCountAppend(es, e);
    assert IsRestore(e) <==> u.SetPid?;
  }

  lemma CommitRowsOk(t: Table, past: Past, id: int, from: Status, u: Update, actor: string)
    requires RowsOk(t, past) && id in t.rows && WellFormed(u) && ValidTransition(from, u.To())
    ensures RowsOk(t.Commit(id, from, u, actor), Restored(past, id, u))
  {
    var e := Entry(id, from, u.To(), actor);
    forall i
      ensures Of(t.history + [e], i) == if i == id then Of(t.history, i) + [e] else Of(t.history, i)
    {
      OfAppend(t.history, e, i);
    }
    CommitRowOk(t.rows[id], Of(t.history, id), past.born[id], past.pids[id], e, u);
  }

  lemma CommitPlain(t: Table, id: int, from: Status, u: Update, actor: string)
    requires t.Valid() && EdgesOk(t) && id in t.rows && ValidTransition(from, u.To())
    ensures t.Commit(id, from, u, actor).Valid() && EdgesOk(t.Commit(id, from, u, actor))
  {
    assert t.Commit(id, from, u, actor).rows.Keys == t.rows.Keys;
  }

  lemma CommitTableOk(t: Table, past: Past, id: int, from: Status, u: Update, actor: string)
    requires TableOk(t, past)
    requires id in t.rows && WellFormed(u) && ValidTransition(from, u.To())
    ensures TableOk(t.Commit(id, from, u, actor), Restored(past, id, u))
  {
    CommitPlain(t, id, from, u, actor);
    CommitRowsOk(t, past, id, from, u, actor);
  }

  lemma {:induction false} RestoredIffEntry(es: seq<Entry>)
    ensures RestoreCount(es) > 0 <==> exists e :: e in es && IsRestore(e)
  {
    if es == [] {
    } else {
      var front, last := es[..|es| - 1], es[|es| - 1];
      RestoredIffEntry(front);
      assert forall e :: e in es <==> e in front || e == last;
    }
  }

  /** A RUNNING job always has a process behind it: it was registered with one or the restore brought one. */
  lemma RunningHasProcess(s: State, id: int)
    requires Safe(s) && id in s.t.rows && s.t.rows[id].status == Running
    ensures s.t.rows[id].pgid > 0
  {
    var es := Of(s.t.history, id);
    var born, pids := s.past.born[id], s.past.pids[id];
    assert RowOk(s.t.rows[id], es, born, pids);
    if es != [] {
      var at := OfSource(s.t.history, id);
      assert ValidTransition(es[|es| - 1].from, es[|es| - 1].to);
      assert IsRestore(es[|es| - 1]);
    }
  }

  lemma NextPcOk(s: State, th: Thread, c: Choice)
    requires PcOk(s.t, th.pc) && Plausible(c)
    requires forall id :: id in s.t.rows && s.t.rows[id].status == Running ==> s.t.rows[id].pgid > 0
    ensures PcOk(NextTable(s, th.pc), NextPc(s, th, c))
  {
  }

  lemma NextTableOk(s: State, p: nat, pc: Pc)
    requires Safe(s) && PcOk(s.t, pc)
    ensures TableOk(NextTable(s, pc), NextPast(s, p, pc))
    ensures s.t.rows.Keys <= NextTable(s, pc).rows.Keys
  {
    match pc
    case RegisterInsert(j) => InsertTableOk(s.t, s.past, p, j);
    case AdoptInsert(j) => InsertTableOk(s.t, s.past, p, j);
    case RegisterDir(id) => DirTableOk(s.t, s.past, id, s.base + [FormatInt(id)]);
    case Commit(id, from, u, actor, _) => CommitTableOk(s.t, s.past, id, from, u, actor);
    case _ =>
  }

  lemma NextPcSafe(s: State, th: Thread, c: Choice)
    requires Safe(s) && PcOk(s.t, th.pc) && Plausible(c)
    ensures PcOk(NextTable(s, th.pc), NextPc(s, th, c))
  {
    forall id | id in s.t.rows && s.t.rows[id].status == Running
      ensures s.t.rows[id].pgid > 0
    {
      RunningHasProcess(s, id);
    }
    NextPcOk(s, th, c);
  }

  lemma SafeRun(s: State, p: nat, c: Choice)
    requires Safe(s) && p in s.threads && Plausible(c)
    ensures Safe(Advance(s, p, c))
  {
    var th := s.threads[p];
    NextTableOk(s, p, th.pc);
    NextPcSafe(s, th, c);
    MonotoneThreads(s.t, NextTable(s, th.pc), s.threads);
  }

  lemma MonotoneThreads(t: Table, t': Table, threads: map<nat, Thread>)
    requires t.rows.Keys <= t'.rows.Keys
    requires forall p :: p in threads ==> PcOk(t, threads[p].pc)
    ensures forall p :: p in threads ==> PcOk(t', threads[p].pc)
  {
  }

  lemma SafeArrive(s: State, p: nat, pc: Pc, worker: bool)
    requires Safe(s) && PcOk(s.t, pc)
    ensures ThreadsOk(s.(threads := s.threads[p := Thread(worker, pc)]))
  {
  }

  lemma SafeFanStep(s: State, p: nat)
    requires Safe(s)
    ensures Safe(FanStep(s, p))
  {
    if s.fan.pc == Spawning && |s.fan.workers| < |s.fan.plan| {
      SafeArrive(s, p, Marking(s.fan.plan[|s.fan.workers|]), true);
    }
  }

  lemma SafeSnapshot(s: State, jobs: seq<Row>)
    requires Safe(s)
    ensures Safe(Step(s, Snapshot(jobs)))
  {
    if s.t.Listing(jobs, false) {
      var plan := RunningIds(jobs);
      forall i | 0 <= i < |plan|
        ensures plan[i] in s.t.rows
      {
        RunningIdsSound(jobs, plan[i]);
      }
    }
  }

  lemma SafeStep(s: State, a: Action)
    requires Safe(s)
    ensures Safe(Step(s, a))
  {
    match a
    case Run(p, c) =>
      if p in s.threads && Plausible(c) {
        SafeRun(s, p, c);
      }
    case Arrive(p, r) =>
      if Sane(r) {
        SafeArrive(s, p, Begin(r), false);
      }
    case Signal =>
    case Snapshot(jobs) => SafeSnapshot(s, jobs);
    case FanOut(p) => SafeFanStep(s, p);
  }

  lemma {:induction false} SafeExec(s: State, acts: seq<Action>)
    requires Safe(s)
    ensures Safe(Exec(s, acts))
  {
    if acts == [] {
    } else {
      SafeExec(s, acts[..|acts| - 1]);
      SafeStep(Exec(s, acts[..|acts| - 1]), acts[|acts| - 1]);
    }
  }

  /** For every schedule, with every update split into its read and its commit: each recorded entry is an edge of
      the transition table and belongs to a job, and a job's last entry, or else the status it was inserted with,
      is the status of its row. */
  lemma {:induction false} SplitUpdatesStayOnTable(base: Path, max: nat, acts: seq<Action>, id: int)
    ensures var s := Exec(Init(base, max), acts);
            && (forall e :: e in s.t.history ==> ValidTransition(e.from, e.to) && e.id in s.t.rows)
            && (id in s.t.rows ==>
                  && id in s.past.born
                  && s.t.rows[id].status == Target(s.past.born[id].status, Of(s.t.history, id)))
  {
    SafeExec(Init(base, max), acts);
  }

  /** For every schedule: a job's pid leads its process group and is the one its latest recorded restore brought, or
      else the registered one. It is 0 exactly for an adopted job that has no restore on record, a RUNNING job
      always has a process, and no cancel ever signals group 0. */
  lemma {:induction false} PidProvenance(base: Path, max: nat, acts: seq<Action>, id: int)
    requires id in Exec(Init(base, max), acts).t.rows
    ensures var s := Exec(Init(base, max), acts);
            var j, es := s.t.rows[id], Of(s.t.history, id);
            && id in s.past.born && id in s.past.pids
            && j.pid == j.pgid == LatestPid(s.past.born[id].pid, s.past.pids[id])
            && |s.past.pids[id]| == RestoreCount(es)
            && (j.pid == 0 <==> IsAdopted(s.past.born[id]) && !exists e :: e in es && IsRestore(e))
            && (j.status == Running ==> j.pid > 0)
            && (forall g :: g in s.past.signalled ==> g > 0)
  {
    SafeExec(Init(base, max), acts);
    var s := Exec(Init(base, max), acts);
    RestoredIffEntry(Of(s.t.history, id));
    assert RowOk(s.t.rows[id], Of(s.t.history, id), s.past.born[id], s.past.pids[id]);
    if s.t.rows[id].status == Running {
      RunningHasProcess(s, id);
    }
  }
}
