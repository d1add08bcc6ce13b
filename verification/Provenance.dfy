/** Where everything on record comes from, under every interleaving. Each row, pid, failure reason, history entry and signal
    is traced back to the request that came in, to what its handler found in the table and to what the outside world
    answered. Updates and rows are written out here column by column, as a client would expect them. */
module Provenance {
  import opened Wrappers
  import opened Numerals
  import opened Lifecycle
  import opened JobTable
  import opened Requests
  import opened Machine
  import opened MachineSafety

  // ---------------------------------------------------------------- what happens along a schedule

  /** Action n brings request r in on goroutine p. */
  ghost predicate ArrivesAt(s0: State, acts: seq<Action>, n: nat, p: nat, r: Request) {
    n < |acts| && acts[n] == Arrive(p, r) && Sane(r) && p !in Exec(s0, acts[..n]).threads
  }

  /** Action n is a step of thread p from pc, answered c. */
  ghost predicate StepsAt(s0: State, acts: seq<Action>, n: nat, p: nat, pc: Pc, c: Choice) {
    && n < |acts| && acts[n] == Run(p, c) && Plausible(c)
    && var s := Exec(s0, acts[..n]); p in s.threads && s.threads[p].pc == pc
  }

  /** Action n is a Get of thread p that finds job id with row j. */
  ghost predicate FindsAt(s0: State, acts: seq<Action>, n: nat, p: nat, pc: Pc, id: int, j: Job) {
    && (pc.PauseGet? || pc.ResumeGet? || pc.CancelGet? || pc.CompleteGet?)
    && (exists c :: StepsAt(s0, acts, n, p, pc, c))
    && var t := Exec(s0, acts[..n]).t; t.Find(pc.name) == Some(id) && t.rows[id] == j
  }

  /** Action n starts thread p as the fan-out's worker for job id. */
  ghost predicate SpawnsAt(s0: State, acts: seq<Action>, n: nat, p: nat, id: int) {
    && n < |acts| && acts[n] == FanOut(p)
    && var s := Exec(s0, acts[..n]);
       && s.fan.pc == Spawning && p !in s.threads
       && |s.fan.workers| < |s.fan.plan| && s.fan.plan[|s.fan.workers|] == id
  }

  ghost predicate Came(s0: State, acts: seq<Action>, p: nat, r: Request) {
    exists n: nat :: ArrivesAt(s0, acts, n, p, r)
  }

  ghost predicate Told(s0: State, acts: seq<Action>, p: nat, pc: Pc, c: Choice) {
    exists n: nat :: StepsAt(s0, acts, n, p, pc, c)
  }

  ghost predicate Found(s0: State, acts: seq<Action>, p: nat, pc: Pc, id: int, j: Job) {
    exists n: nat :: FindsAt(s0, acts, n, p, pc, id, j)
  }

  ghost predicate Spawned(s0: State, acts: seq<Action>, p: nat, id: int) {
    exists n: nat :: SpawnsAt(s0, acts, n, p, id)
  }

  // ---------------------------------------------------------------- who works on a job

  /** A pause that named the job and found it RUNNING, or a worker of the fan-out. */
  ghost predicate Dumper(s0: State, acts: seq<Action>, p: nat, id: int, actor: string) {
    || (actor == "daemon" && Spawned(s0, acts, p, id))
    || exists name, j ::
         && Came(s0, acts, p, Pause(name, actor)) && Found(s0, acts, p, PauseGet(name, actor), id, j)
         && j.status == Running
  }

  /** A resume that named the job and found it resumable. */
  ghost predicate Restorer(s0: State, acts: seq<Action>, p: nat, id: int, actor: string) {
    exists name, j ::
      && Came(s0, acts, p, Resume(name, actor)) && Found(s0, acts, p, ResumeGet(name, actor), id, j)
      && (j.status == CheckpointCreated || j.status == RestoreFailed)
  }

  /** A cancel that named the job, found it RUNNING and went for its process group. */
  ghost predicate Killer(s0: State, acts: seq<Action>, p: nat, id: int, pgid: int, actor: string) {
    exists name, j ::
      && Came(s0, acts, p, Cancel(name, actor)) && Found(s0, acts, p, CancelGet(name, actor), id, j)
      && j.status == Running && j.pgid == pgid
  }

  /** A cancel that named the job and found it not RUNNING, or signalled its process group. */
  ghost predicate Canceller(s0: State, acts: seq<Action>, p: nat, id: int, actor: string) {
    || (exists name, j ::
          && Came(s0, acts, p, Cancel(name, actor)) && Found(s0, acts, p, CancelGet(name, actor), id, j)
          && j.status != Running)
    || exists pgid, c ::
         Killer(s0, acts, p, id, pgid, actor) && Told(s0, acts, p, CancelKill(id, pgid, actor), c) && c.ok
  }

  /** A completion report that named the job and found it RUNNING. */
  ghost predicate Reporter(s0: State, acts: seq<Action>, p: nat, id: int, code: int, msg: string, actor: string) {
    exists name, j ::
      && Came(s0, acts, p, Complete(name, code, msg, actor))
      && Found(s0, acts, p, CompleteGet(name, code, msg, actor), id, j) && j.status == Running
  }

  // ---------------------------------------------------------------- what they write

  ghost predicate DumpWrote(s0: State, acts: seq<Action>, p: nat, id: int, u: Update, actor: string) {
    && Dumper(s0, acts, p, id, actor)
    && (u == SetStatus(CheckpointInProgress, "") ||
        exists c :: Told(s0, acts, p, Dump(id, actor), c) &&
          u == if c.ok then SetStatus(CheckpointCreated, "") else SetStatus(CheckpointCreationFailed, c.err))
  }

  ghost predicate RestoreWrote(s0: State, acts: seq<Action>, p: nat, id: int, u: Update, actor: string) {
    && Restorer(s0, acts, p, id, actor)
    && (u == SetStatus(RestorePending, "") ||
        exists c :: Told(s0, acts, p, Restore(id, actor), c) &&
          u == if c.ok then SetPid(c.pid, c.pid) else SetStatus(RestoreFailed, c.err))
  }

  ghost predicate CancelWrote(s0: State, acts: seq<Action>, p: nat, id: int, u: Update, actor: string) {
    Canceller(s0, acts, p, id, actor) && u == SetStatus(Canceled, "")
  }

  ghost predicate ReportWrote(s0: State, acts: seq<Action>, p: nat, id: int, u: Update, actor: string) {
    exists code, msg :: Reporter(s0, acts, p, id, code, msg, actor) &&
      u == if code == 0 then SetStatus(Completed, "")
           else if msg == "" then SetStatus(Failed, "exited with code " + FormatInt(code))
           else SetStatus(Failed, msg)
  }

  /** Thread p has good reason to write u to job id on behalf of actor. */
  ghost predicate Wrote(s0: State, acts: seq<Action>, p: nat, id: int, u: Update, actor: string) {
    || DumpWrote(s0, acts, p, id, u, actor)
    || RestoreWrote(s0, acts, p, id, u, actor)
    || CancelWrote(s0, acts, p, id, u, actor)
    || ReportWrote(s0, acts, p, id, u, actor)
  }

  /** j is the job that r describes: the registered process RUNNING, or a checkpoint without a process. */
  predicate Describes(r: Request, j: Job) {
    match r
    case Register(pid, pgid, dir, at, meta) =>
      j.pid == pid && j.pgid == pgid && j.dir == dir && j.status == Running && j.reason == "" && j.registeredAt == at
      && j.meta == meta
    case Adopt(dir, at, meta) =>
      j.pid == 0 && j.pgid == 0 && j.dir == dir && j.status == CheckpointCreated && j.reason == "" && j.registeredAt == at
      && j.meta == meta
    case _ => false
  }

  // ---------------------------------------------------------------- the invariant

  ghost predicate Asked(s0: State, acts: seq<Action>, p: nat, j: Job) {
    exists r :: Came(s0, acts, p, r) && Describes(r, j)
  }

  ghost predicate UpdateTraced(
    s0: State, acts: seq<Action>, p: nat, id: int, u: Update, actor: string, next: Then)
  {
    match next
    case ThenDump => u == SetStatus(CheckpointInProgress, "") && Dumper(s0, acts, p, id, actor)
    case ThenRestore => u == SetStatus(RestorePending, "") && Restorer(s0, acts, p, id, actor)
    case ThenEnd => Wrote(s0, acts, p, id, u, actor)
  }

  ghost predicate PcTraced(s0: State, acts: seq<Action>, p: nat, pc: Pc) {
    match pc
    case RegisterLatch(j) => Asked(s0, acts, p, j)
    case RegisterInsert(j) => Asked(s0, acts, p, j)
    case AdoptLatch(j) => Asked(s0, acts, p, j)
    case AdoptScan(j) => Asked(s0, acts, p, j)
    case AdoptInsert(j) => Asked(s0, acts, p, j)
    case PauseLatch(name, actor) => Came(s0, acts, p, Pause(name, actor))
    case PauseGet(name, actor) => Came(s0, acts, p, Pause(name, actor))
    case ResumeGet(name, actor) => Came(s0, acts, p, Resume(name, actor))
    case CancelGet(name, actor) => Came(s0, acts, p, Cancel(name, actor))
    case CancelKill(id, pgid, actor) => Killer(s0, acts, p, id, pgid, actor)
    case CompleteGet(name, code, msg, actor) => Came(s0, acts, p, Complete(name, code, msg, actor))
    case Read(id, u, actor, next) => UpdateTraced(s0, acts, p, id, u, actor, next)
    case Commit(id, _, u, actor, next) => UpdateTraced(s0, acts, p, id, u, actor, next)
    case Dump(id, actor) => Dumper(s0, acts, p, id, actor)
    case Restore(id, actor) => Restorer(s0, acts, p, id, actor)
    case _ => true
  }

  /** The pid is what a successful restore of the job answered. */
  ghost predicate PidTraced(s0: State, acts: seq<Action>, id: int, pid: int) {
    exists p, actor, c ::
      Restorer(s0, acts, p, id, actor) && Told(s0, acts, p, Restore(id, actor), c) && c.ok && c.pid == pid
  }

  /** The text is one that somebody had reason to write. */
  ghost predicate ReasonTraced(s0: State, acts: seq<Action>, id: int, reason: string) {
    exists p, to, actor :: Wrote(s0, acts, p, id, SetStatus(to, reason), actor)
  }

  ghost predicate SignalTraced(s0: State, acts: seq<Action>, pgid: int) {
    exists p, id, actor, c ::
      Killer(s0, acts, p, id, pgid, actor) && Told(s0, acts, p, CancelKill(id, pgid, actor), c)
  }

  /** Action n is thread p's commit of u, which becomes entry i of the history. */
  ghost predicate CommitsAt(s0: State, acts: seq<Action>, n: nat, p: nat, u: Update, i: nat, e: Entry) {
    && (exists next, c :: StepsAt(s0, acts, n, p, Commit(e.id, e.from, u, e.actor, next), c))
    && |Exec(s0, acts[..n]).t.history| == i && u.To() == e.to
  }

  ghost predicate EntryTraced(s0: State, acts: seq<Action>, i: nat, e: Entry) {
    exists n, p, u :: CommitsAt(s0, acts, n, p, u, i, e) && Wrote(s0, acts, p, e.id, u, e.actor)
  }

  ghost predicate RowTraced(
    s0: State, acts: seq<Action>, base: Path, id: int, j: Job, born: Job, maker: nat, pids: seq<int>)
  {
    && Asked(s0, acts, maker, born)
    && (forall i :: 0 <= i < |pids| ==> PidTraced(s0, acts, id, pids[i]))
    && (j.reason == "" || ReasonTraced(s0, acts, id, j.reason))
    && (j.dir == born.dir || (born.dir == [] && j.dir == base + [FormatInt(id)]))
  }

  type RowRule = (int, Job, Job, nat, seq<int>) -> bool

  /** Each row, with the job as inserted, who inserted it and the pids it had, keeps the rule. */
  ghost predicate RowsKeep(t: Table, past: Past, rule: RowRule) {
    && past.born.Keys == past.maker.Keys == past.pids.Keys == t.rows.Keys
    && forall id :: id in t.rows ==> rule(id, t.rows[id], past.born[id], past.maker[id], past.pids[id])
  }

  ghost function TraceRule(s0: State, acts: seq<Action>, base: Path): RowRule {
    (id: int, j: Job, born: Job, maker: nat, pids: seq<int>) => RowTraced(s0, acts, base, id, j, born, maker, pids)
  }

  ghost predicate RowsTraced(s0: State, acts: seq<Action>, s: State) {
    RowsKeep(s.t, s.past, TraceRule(s0, acts, s.base))
  }

  ghost predicate DirThreads(s: State) {
    forall p :: p in s.threads && s.threads[p].pc.RegisterDir? ==>
      s.threads[p].pc.id in s.past.born && s.past.born[s.threads[p].pc.id].dir == []
  }

  ghost predicate ThreadsTraced(s0: State, acts: seq<Action>, s: State) {
    forall p :: p in s.threads ==> PcTraced(s0, acts, p, s.threads[p].pc)
  }

  ghost predicate EntriesTraced(s0: State, acts: seq<Action>, h: seq<Entry>) {
    forall i :: 0 <= i < |h| ==> EntryTraced(s0, acts, i, h[i])
  }

  ghost predicate SignalsTraced(s0: State, acts: seq<Action>, signalled: seq<int>) {
    forall i :: 0 <= i < |signalled| ==> SignalTraced(s0, acts, signalled[i])
  }

  ghost predicate Traced(s0: State, acts: seq<Action>, s: State) {
    && ThreadsTraced(s0, acts, s) && DirThreads(s) && RowsTraced(s0, acts, s)
    && EntriesTraced(s0, acts, s.t.history) && SignalsTraced(s0, acts, s.past.signalled)
  }

  // ---------------------------------------------------------------- what is known stays known

  lemma More(s0: State, acts: seq<Action>, a: Action)
    ensures forall p, r :: Came(s0, acts, p, r) ==> Came(s0, acts + [a], p, r)
    ensures forall p, pc, c :: Told(s0, acts, p, pc, c) ==> Told(s0, acts + [a], p, pc, c)
    ensures forall p, pc, id, j :: Found(s0, acts, p, pc, id, j) ==> Found(s0, acts + [a], p, pc, id, j)
    ensures forall p, id :: Spawned(s0, acts, p, id) ==> Spawned(s0, acts + [a], p, id)
  {
    var more := acts + [a];
    assert forall n: nat :: n < |acts| ==> more[n] == acts[n] && more[..n] == acts[..n];
    forall p, r | Came(s0, acts, p, r)
      ensures Came(s0, more, p, r)
    {
      var n: nat :| ArrivesAt(s0, acts, n, p, r);
      assert ArrivesAt(s0, more, n, p, r);
    }
    forall p, pc, c | Told(s0, acts, p, pc, c)
      ensures Told(s0, more, p, pc, c)
    {
      var n: nat :| StepsAt(s0, acts, n, p, pc, c);
      assert StepsAt(s0, more, n, p, pc, c);
    }
    forall p, pc, id, j | Found(s0, acts, p, pc, id, j)
      ensures Found(s0, more, p, pc, id, j)
    {
      var n: nat :| FindsAt(s0, acts, n, p, pc, id, j);
      var c :| StepsAt(s0, acts, n, p, pc, c);
      assert StepsAt(s0, more, n, p, pc, c);
      assert FindsAt(s0, more, n, p, pc, id, j);
    }
    forall p, id | Spawned(s0, acts, p, id)
      ensures Spawned(s0, more, p, id)
    {
      var n: nat :| SpawnsAt(s0, acts, n, p, id);
      assert SpawnsAt(s0, more, n, p, id);
    }
  }

  lemma MoreWork(s0: State, acts: seq<Action>, a: Action, p: nat, id: int, actor: string)
    ensures Dumper(s0, acts, p, id, actor) ==> Dumper(s0, acts + [a], p, id, actor)
    ensures Restorer(s0, acts, p, id, actor) ==> Restorer(s0, acts + [a], p, id, actor)
    ensures Canceller(s0, acts, p, id, actor) ==> Canceller(s0, acts + [a], p, id, actor)
    ensures forall pgid :: Killer(s0, acts, p, id, pgid, actor) ==> Killer(s0, acts + [a], p, id, pgid, actor)
    ensures forall code, msg ::
              Reporter(s0, acts, p, id, code, msg, actor) ==> Reporter(s0, acts + [a], p, id, code, msg, actor)
  {
    More(s0, acts, a);
  }

  lemma MoreWritten(s0: State, acts: seq<Action>, a: Action, p: nat, id: int, u: Update, actor: string)
    requires Wrote(s0, acts, p, id, u, actor)
    ensures Wrote(s0, acts + [a], p, id, u, actor)
  {
    More(s0, acts, a);
    MoreWork(s0, acts, a, p, id, actor);
  }

  lemma MorePc(s0: State, acts: seq<Action>, a: Action, p: nat, pc: Pc)
    requires PcTraced(s0, acts, p, pc)
    ensures PcTraced(s0, acts + [a], p, pc)
  {
    More(s0, acts, a);
    match pc
    case Read(id, u, actor, next) =>
      MoreWork(s0, acts, a, p, id, actor);
      if next == ThenEnd {
        MoreWritten(s0, acts, a, p, id, u, actor);
      }
    case Commit(id, _, u, actor, next) =>
      MoreWork(s0, acts, a, p, id, actor);
      if next == ThenEnd {
        MoreWritten(s0, acts, a, p, id, u, actor);
      }
    case Dump(id, actor) => MoreWork(s0, acts, a, p, id, actor);
    case Restore(id, actor) => MoreWork(s0, acts, a, p, id, actor);
    case CancelKill(id, _, actor) => MoreWork(s0, acts, a, p, id, actor);
    case _ =>
  }

  lemma MoreRow(
    s0: State, acts: seq<Action>, a: Action, base: Path, id: int, j: Job, born: Job, maker: nat, pids: seq<int>)
    requires RowTraced(s0, acts, base, id, j, born, maker, pids)
    ensures RowTraced(s0, acts + [a], base, id, j, born, maker, pids)
  {
    More(s0, acts, a);
    forall i | 0 <= i < |pids|
      ensures PidTraced(s0, acts + [a], id, pids[i])
    {
      MorePid(s0, acts, a, id, pids[i]);
    }
    if j.reason != "" {
      MoreReason(s0, acts, a, id, j.reason);
    }
  }

  lemma MorePid(s0: State, acts: seq<Action>, a: Action, id: int, pid: int)
    requires PidTraced(s0, acts, id, pid)
    ensures PidTraced(s0, acts + [a], id, pid)
  {
    var p, actor, c :|
      Restorer(s0, acts, p, id, actor) && Told(s0, acts, p, Restore(id, actor), c) && c.ok && c.pid == pid;
    More(s0, acts, a);
    MoreWork(s0, acts, a, p, id, actor);
  }

  lemma MoreReason(s0: State, acts: seq<Action>, a: Action, id: int, reason: string)
    requires ReasonTraced(s0, acts, id, reason)
    ensures ReasonTraced(s0, acts + [a], id, reason)
  {
    var p, to, actor :| Wrote(s0, acts, p, id, SetStatus(to, reason), actor);
    MoreWritten(s0, acts, a, p, id, SetStatus(to, reason), actor);
  }

  lemma MoreSignal(s0: State, acts: seq<Action>, a: Action, pgid: int)
    requires SignalTraced(s0, acts, pgid)
    ensures SignalTraced(s0, acts + [a], pgid)
  {
    var p, id, actor, c :| Killer(s0, acts, p, id, pgid, actor) && Told(s0, acts, p, CancelKill(id, pgid, actor), c);
    More(s0, acts, a);
    MoreWork(s0, acts, a, p, id, actor);
  }

  lemma MoreCommit(s0: State, acts: seq<Action>, a: Action, n: nat, p: nat, u: Update, i: nat, e: Entry)
    requires CommitsAt(s0, acts, n, p, u, i, e)
    ensures CommitsAt(s0, acts + [a], n, p, u, i, e)
  {
    var next, c :| StepsAt(s0, acts, n, p, Commit(e.id, e.from, u, e.actor, next), c);
    assert (acts + [a])[n] == acts[n] && (acts + [a])[..n] == acts[..n];
    assert StepsAt(s0, acts + [a], n, p, Commit(e.id, e.from, u, e.actor, next), c);
  }

  lemma MoreEntry(s0: State, acts: seq<Action>, a: Action, i: nat, e: Entry)
    requires EntryTraced(s0, acts, i, e)
    ensures EntryTraced(s0, acts + [a], i, e)
  {
    var n, p, u :| CommitsAt(s0, acts, n, p, u, i, e) && Wrote(s0, acts, p, e.id, u, e.actor);
    MoreCommit(s0, acts, a, n, p, u, i, e);
    MoreWritten(s0, acts, a, p, e.id, u, e.actor);
  }

  lemma MoreEntries(s0: State, acts: seq<Action>, a: Action, h: seq<Entry>)
    requires EntriesTraced(s0, acts, h)
    ensures EntriesTraced(s0, acts + [a], h)
  {
    forall i | 0 <= i < |h|
      ensures EntryTraced(s0, acts + [a], i, h[i])
    {
      MoreEntry(s0, acts, a, i, h[i]);
    }
  }

  lemma MoreSignals(s0: State, acts: seq<Action>, a: Action, signalled: seq<int>)
    requires SignalsTraced(s0, acts, signalled)
    ensures SignalsTraced(s0, acts + [a], signalled)
  {
    forall i | 0 <= i < |signalled|
      ensures SignalTraced(s0, acts + [a], signalled[i])
    {
      MoreSignal(s0, acts, a, signalled[i]);
    }
  }

  lemma MoreRows(s0: State, acts: seq<Action>, a: Action, s: State)
    requires RowsTraced(s0, acts, s)
    ensures RowsTraced(s0, acts + [a], s)
  {
    forall id | id in s.t.rows
      ensures TraceRule(s0, acts + [a], s.base)(id, s.t.rows[id], s.past.born[id], s.past.maker[id], s.past.pids[id])
    {
      assert TraceRule(s0, acts, s.base)(id, s.t.rows[id], s.past.born[id], s.past.maker[id], s.past.pids[id]);
      MoreRow(s0, acts, a, s.base, id, s.t.rows[id], s.past.born[id], s.past.maker[id], s.past.pids[id]);
    }
  }

  // ---------------------------------------------------------------- one step of a thread

  /** What the step at the end of a schedule adds to what is known. */
  lemma Learns(s0: State, acts: seq<Action>, p: nat, c: Choice)
    requires p in Exec(s0, acts).threads && Plausible(c)
    ensures var s := Exec(s0, acts);
            StepsAt(s0, acts + [Run(p, c)], |acts|, p, s.threads[p].pc, c) && (acts + [Run(p, c)])[..|acts|] == acts
    ensures Told(s0, acts + [Run(p, c)], p, Exec(s0, acts).threads[p].pc, c)
  {
    assert (acts + [Run(p, c)])[..|acts|] == acts;
    assert StepsAt(s0, acts + [Run(p, c)], |acts|, p, Exec(s0, acts).threads[p].pc, c);
  }

  lemma GetTraced(s0: State, acts: seq<Action>, p: nat, c: Choice)
    requires p in Exec(s0, acts).threads && Plausible(c)
    requires var pc := Exec(s0, acts).threads[p].pc;
             (pc.PauseGet? || pc.ResumeGet? || pc.CancelGet? || pc.CompleteGet?) && PcTraced(s0, acts, p, pc)
    ensures var s := Exec(s0, acts); PcTraced(s0, acts + [Run(p, c)], p, AfterGet(s.t, s.threads[p].pc))
  {
    var s, more := Exec(s0, acts), acts + [Run(p, c)];
    var pc := s.threads[p].pc;
    More(s0, acts, Run(p, c));
    if s.t.Find(pc.name).Some? {
      var id := s.t.Find(pc.name).value;
      Learns(s0, acts, p, c);
      assert FindsAt(s0, more, |acts|, p, pc, id, s.t.rows[id]);
      assert Found(s0, more, p, pc, id, s.t.rows[id]);
      FoundTraced(s0, more, p, pc, id, s.t.rows[id], s.t);
    }
  }

  lemma FoundTraced(s0: State, acts: seq<Action>, p: nat, pc: Pc, id: int, j: Job, t: Table)
    requires (pc.PauseGet? || pc.ResumeGet? || pc.CancelGet? || pc.CompleteGet?) && PcTraced(s0, acts, p, pc)
    requires t.Find(pc.name) == Some(id) && t.rows[id] == j && Found(s0, acts, p, pc, id, j)
    ensures PcTraced(s0, acts, p, AfterGet(t, pc))
  {
    match pc
    case PauseGet(name, actor) =>
    case ResumeGet(name, actor) =>
    case CancelGet(name, actor) =>
      if j.status != Running {
        assert Canceller(s0, acts, p, id, actor);
        assert CancelWrote(s0, acts, p, id, SetStatus(Canceled, ""), actor);
      }
    case CompleteGet(name, code, msg, actor) =>
      if j.status == Running {
        assert Reporter(s0, acts, p, id, code, msg, actor);
        assert ReportWrote(s0, acts, p, id, ExitUpdate(code, msg), actor);
      }
  }

  lemma CallTraced(s0: State, acts: seq<Action>, p: nat, pc: Pc, c: Choice)
    requires PcTraced(s0, acts, p, pc) && Told(s0, acts, p, pc, c)
    ensures pc.Dump? ==> Wrote(s0, acts, p, pc.id, DumpUpdate(c), pc.actor)
    ensures pc.Restore? ==> Wrote(s0, acts, p, pc.id, RestoreUpdate(c), pc.actor)
    ensures pc.CancelKill? && c.ok ==> Wrote(s0, acts, p, pc.id, SetStatus(Canceled, ""), pc.actor)
  {
    if pc.Dump? {
      assert DumpWrote(s0, acts, p, pc.id, DumpUpdate(c), pc.actor);
    } else if pc.Restore? {
      assert RestoreWrote(s0, acts, p, pc.id, RestoreUpdate(c), pc.actor);
    } else if pc.CancelKill? && c.ok {
      assert Canceller(s0, acts, p, pc.id, pc.actor);
      assert CancelWrote(s0, acts, p, pc.id, SetStatus(Canceled, ""), pc.actor);
    }
  }

  lemma StepTraced(s0: State, acts: seq<Action>, p: nat, c: Choice)
    requires p in Exec(s0, acts).threads && Plausible(c) && PcTraced(s0, acts, p, Exec(s0, acts).threads[p].pc)
    ensures var s := Exec(s0, acts); PcTraced(s0, acts + [Run(p, c)], p, NextPc(s, s.threads[p], c))
  {
    var s := Exec(s0, acts);
    var pc := s.threads[p].pc;
    if pc.PauseGet? || pc.ResumeGet? || pc.CancelGet? || pc.CompleteGet? {
      GetTraced(s0, acts, p, c);
    } else {
      MorePc(s0, acts, Run(p, c), p, pc);
      Learns(s0, acts, p, c);
      CallTraced(s0, acts + [Run(p, c)], p, pc, c);
    }
  }

  // ---------------------------------------------------------------- one step, all of the state

  lemma InsertKeeps(t: Table, past: Past, rule: RowRule, p: nat, j: Job)
    requires RowsKeep(t, past, rule) && t.Valid() && rule(t.lastId + 1, j, j, p, [])
    ensures RowsKeep(t.Insert(j), Recorded(past, p, t.lastId + 1, j), rule)
  {
  }

  lemma DirKeeps(t: Table, past: Past, rule: RowRule, id: int, dir: Path)
    requires RowsKeep(t, past, rule) && id in t.rows
    requires rule(id, t.rows[id].(dir := dir), past.born[id], past.maker[id], past.pids[id])
    ensures RowsKeep(t.WithDir(id, dir), past, rule)
  {
  }

  lemma CommitKeeps(t: Table, past: Past, rule: RowRule, id: int, from: Status, u: Update, actor: string)
    requires RowsKeep(t, past, rule) && id in t.rows
    requires rule(id, u.Apply(t.rows[id]), past.born[id], past.maker[id], past.pids[id] + if u.SetPid? then [u.pid] else [])
    ensures RowsKeep(t.Commit(id, from, u, actor), Restored(past, id, u), rule)
  {
    assert past.pids[id] + [] == past.pids[id];
  }

  lemma InsertTraced(s0: State, acts: seq<Action>, s: State, p: nat, j: Job)
    requires RowsTraced(s0, acts, s) && s.t.Valid() && Asked(s0, acts, p, j)
    requires IsRegistered(j) || IsAdopted(j)
    ensures RowsTraced(s0, acts, s.(t := s.t.Insert(j), past := Recorded(s.past, p, s.t.lastId + 1, j)))
  {
    assert RowTraced(s0, acts, s.base, s.t.lastId + 1, j, j, p, []);
    InsertKeeps(s.t, s.past, TraceRule(s0, acts, s.base), p, j);
  }

  lemma DirTraced(s0: State, acts: seq<Action>, s: State, id: int)
    requires RowsTraced(s0, acts, s) && id in s.t.rows && s.past.born[id].dir == []
    ensures RowsTraced(s0, acts, s.(t := s.t.WithDir(id, s.base + [FormatInt(id)])))
  {
    var j, dir := s.t.rows[id], s.base + [FormatInt(id)];
    assert RowTraced(s0, acts, s.base, id, j, s.past.born[id], s.past.maker[id], s.past.pids[id]);
    assert RowTraced(s0, acts, s.base, id, j.(dir := dir), s.past.born[id], s.past.maker[id], s.past.pids[id]);
    DirKeeps(s.t, s.past, TraceRule(s0, acts, s.base), id, dir);
  }

  /** Only a restore brings a pid. */
  lemma PidWritten(s0: State, acts: seq<Action>, p: nat, id: int, pid: int, pgid: int, actor: string)
    requires Wrote(s0, acts, p, id, SetPid(pid, pgid), actor)
    ensures pid == pgid && PidTraced(s0, acts, id, pid)
  {
    assert RestoreWrote(s0, acts, p, id, SetPid(pid, pgid), actor);
  }

  lemma RowWritten(
    s0: State, acts: seq<Action>, base: Path, p: nat, id: int, u: Update, actor: string,
    j: Job, born: Job, maker: nat, pids: seq<int>)
    requires RowTraced(s0, acts, base, id, j, born, maker, pids) && Wrote(s0, acts, p, id, u, actor)
    ensures RowTraced(s0, acts, base, id, u.Apply(j), born, maker, pids + if u.SetPid? then [u.pid] else [])
  {
    match u
    case SetPid(pid, pgid) => PidWritten(s0, acts, p, id, pid, pgid, actor);
    case SetStatus(to, reason) => assert ReasonTraced(s0, acts, id, reason);
  }

  lemma CommitTraced(s0: State, acts: seq<Action>, s: State, p: nat, id: int, from: Status, u: Update, actor: string)
    requires RowsTraced(s0, acts, s) && id in s.t.rows && Wrote(s0, acts, p, id, u, actor)
    ensures RowsTraced(s0, acts, s.(t := s.t.Commit(id, from, u, actor), past := Restored(s.past, id, u)))
  {
    var rule := TraceRule(s0, acts, s.base);
    assert rule(id, s.t.rows[id], s.past.born[id], s.past.maker[id], s.past.pids[id]);
    RowWritten(s0, acts, s.base, p, id, u, actor, s.t.rows[id], s.past.born[id], s.past.maker[id], s.past.pids[id]);
    CommitKeeps(s.t, s.past, rule, id, from, u, actor);
  }

  /** The mark of a dump or a restore is a good reason to write, too. */
  lemma MarkWritten(s0: State, acts: seq<Action>, p: nat, id: int, u: Update, actor: string, next: Then)
    requires UpdateTraced(s0, acts, p, id, u, actor, next)
    ensures Wrote(s0, acts, p, id, u, actor)
  {
    if next == ThenDump {
      assert DumpWrote(s0, acts, p, id, u, actor);
    } else if next == ThenRestore {
      assert RestoreWrote(s0, acts, p, id, u, actor);
    }
  }

  lemma RunRows(s0: State, acts: seq<Action>, s: State, p: nat, pc: Pc)
    requires Safe(s) && PcOk(s.t, pc) && RowsTraced(s0, acts, s) && PcTraced(s0, acts, p, pc)
    requires pc.RegisterDir? ==> pc.id in s.past.born && s.past.born[pc.id].dir == []
    ensures RowsTraced(s0, acts, s.(t := NextTable(s, pc), past := NextPast(s, p, pc)))
  {
    match pc
    case RegisterInsert(j) => InsertTraced(s0, acts, s, p, j);
    case AdoptInsert(j) => InsertTraced(s0, acts, s, p, j);
    case RegisterDir(id) => DirTraced(s0, acts, s, id);
    case Commit(id, from, u, actor, next) =>
      MarkWritten(s0, acts, p, id, u, actor, next);
      CommitTraced(s0, acts, s, p, id, from, u, actor);
    case _ =>
  }

  lemma EntryNow(s0: State, acts: seq<Action>, p: nat, c: Choice)
    requires p in Exec(s0, acts).threads && Plausible(c)
    requires var pc := Exec(s0, acts).threads[p].pc; pc.Commit? && PcTraced(s0, acts + [Run(p, c)], p, pc)
    ensures var s := Exec(s0, acts);
            var pc := s.threads[p].pc;
            EntryTraced(s0, acts + [Run(p, c)], |s.t.history|, Entry(pc.id, pc.from, pc.u.To(), pc.actor))
  {
    var s, more := Exec(s0, acts), acts + [Run(p, c)];
    var pc := s.threads[p].pc;
    var e := Entry(pc.id, pc.from, pc.u.To(), pc.actor);
    Learns(s0, acts, p, c);
    MarkWritten(s0, more, p, pc.id, pc.u, pc.actor, pc.next);
    assert StepsAt(s0, more, |acts|, p, Commit(e.id, e.from, pc.u, e.actor, pc.next), c);
    assert CommitsAt(s0, more, |acts|, p, pc.u, |s.t.history|, e);
  }

  lemma EntriesAppend(s0: State, acts: seq<Action>, h: seq<Entry>, e: Entry)
    requires EntriesTraced(s0, acts, h) && EntryTraced(s0, acts, |h|, e)
    ensures EntriesTraced(s0, acts, h + [e])
  {
    forall i | 0 <= i < |h| + 1
      ensures EntryTraced(s0, acts, i, (h + [e])[i])
    {
      if i < |h| {
        assert EntryTraced(s0, acts, i, h[i]);
      }
    }
  }

  lemma RunEntries(s0: State, acts: seq<Action>, p: nat, c: Choice)
    requires p in Exec(s0, acts).threads && Plausible(c)
    requires var s := Exec(s0, acts);
             PcOk(s.t, s.threads[p].pc) && EntriesTraced(s0, acts + [Run(p, c)], s.t.history)
             && PcTraced(s0, acts + [Run(p, c)], p, s.threads[p].pc)
    ensures var s := Exec(s0, acts);
            EntriesTraced(s0, acts + [Run(p, c)], NextTable(s, s.threads[p].pc).history)
  {
    var s := Exec(s0, acts);
    var pc := s.threads[p].pc;
    if pc.Commit? {
      EntryNow(s0, acts, p, c);
      EntriesAppend(s0, acts + [Run(p, c)], s.t.history, Entry(pc.id, pc.from, pc.u.To(), pc.actor));
    }
  }

  lemma RunSignals(s0: State, acts: seq<Action>, p: nat, c: Choice)
    requires p in Exec(s0, acts).threads && Plausible(c)
    requires var s := Exec(s0, acts);
             SignalsTraced(s0, acts + [Run(p, c)], s.past.signalled)
             && PcTraced(s0, acts + [Run(p, c)], p, s.threads[p].pc)
    ensures var s := Exec(s0, acts);
            SignalsTraced(s0, acts + [Run(p, c)], NextPast(s, p, s.threads[p].pc).signalled)
  {
    var s := Exec(s0, acts);
    if s.threads[p].pc.CancelKill? {
      Learns(s0, acts, p, c);
      assert SignalTraced(s0, acts + [Run(p, c)], s.threads[p].pc.pgid);
    }
  }

  lemma RunThreads(s0: State, acts: seq<Action>, p: nat, c: Choice)
    requires p in Exec(s0, acts).threads && Plausible(c) && ThreadsTraced(s0, acts, Exec(s0, acts))
    ensures ThreadsTraced(s0, acts + [Run(p, c)], Advance(Exec(s0, acts), p, c))
  {
    var s := Exec(s0, acts);
    StepTraced(s0, acts, p, c);
    forall q | q in s.threads && q != p
      ensures PcTraced(s0, acts + [Run(p, c)], q, s.threads[q].pc)
    {
      MorePc(s0, acts, Run(p, c), q, s.threads[q].pc);
    }
  }

  lemma BornStays(s: State, p: nat, pc: Pc, id: int)
    requires id in s.past.born && id <= s.t.lastId
    ensures id in NextPast(s, p, pc).born && NextPast(s, p, pc).born[id] == s.past.born[id]
  {
  }

  lemma DirComes(s: State, p: nat, c: Choice)
    requires p in s.threads && NextPc(s, s.threads[p], c).RegisterDir?
    ensures var id, past := NextPc(s, s.threads[p], c).id, NextPast(s, p, s.threads[p].pc);
            id in past.born && past.born[id].dir == []
  {
  }

  lemma RunDirs(s: State, p: nat, c: Choice)
    requires s.past.born.Keys == s.t.rows.Keys && s.t.Valid() && p in s.threads && DirThreads(s)
    ensures DirThreads(Advance(s, p, c))
  {
    var s' := Advance(s, p, c);
    forall q | q in s'.threads && s'.threads[q].pc.RegisterDir?
      ensures s'.threads[q].pc.id in s'.past.born && s'.past.born[s'.threads[q].pc.id].dir == []
    {
      if q == p {
        DirComes(s, p, c);
      } else {
        BornStays(s, p, s.threads[p].pc, s.threads[q].pc.id);
      }
    }
  }

  lemma RunTraced(s0: State, acts: seq<Action>, p: nat, c: Choice)
    requires p in Exec(s0, acts).threads && Plausible(c) && Safe(Exec(s0, acts)) && Traced(s0, acts, Exec(s0, acts))
    ensures Traced(s0, acts + [Run(p, c)], Advance(Exec(s0, acts), p, c))
  {
    var s, a := Exec(s0, acts), Run(p, c);
    var pc := s.threads[p].pc;
    MoreRows(s0, acts, a, s);
    MoreEntries(s0, acts, a, s.t.history);
    MoreSignals(s0, acts, a, s.past.signalled);
    MorePc(s0, acts, a, p, pc);
    RunThreads(s0, acts, p, c);
    RunDirs(s, p, c);
    RunRows(s0, acts + [a], s, p, pc);
    RunEntries(s0, acts, p, c);
    RunSignals(s0, acts, p, c);
  }

  lemma ArriveTraced(s0: State, acts: seq<Action>, p: nat, r: Request)
    requires p !in Exec(s0, acts).threads && Sane(r)
    ensures PcTraced(s0, acts + [Arrive(p, r)], p, Begin(r))
  {
    var more := acts + [Arrive(p, r)];
    assert more[..|acts|] == acts;
    assert ArrivesAt(s0, more, |acts|, p, r);
    assert Came(s0, more, p, r);
    if r.Register? {
      assert Describes(r, RegisteredJob(r));
    } else if r.Adopt? {
      assert Describes(r, AdoptedJob(r));
    }
  }

  lemma SpawnTraced(s0: State, acts: seq<Action>, p: nat)
    requires var s := Exec(s0, acts); s.fan.pc == Spawning && p !in s.threads && |s.fan.workers| < |s.fan.plan|
    ensures var s := Exec(s0, acts); PcTraced(s0, acts + [FanOut(p)], p, Marking(s.fan.plan[|s.fan.workers|]))
  {
    var s, more := Exec(s0, acts), acts + [FanOut(p)];
    var id := s.fan.plan[|s.fan.workers|];
    assert more[..|acts|] == acts;
    assert SpawnsAt(s0, more, |acts|, p, id);
    assert Spawned(s0, more, p, id);
    assert Dumper(s0, more, p, id, "daemon");
  }

  lemma ElseThreads(s0: State, acts: seq<Action>, a: Action)
    requires !(a.Run? && a.p in Exec(s0, acts).threads && Plausible(a.c)) && ThreadsTraced(s0, acts, Exec(s0, acts))
    ensures ThreadsTraced(s0, acts + [a], Step(Exec(s0, acts), a))
  {
    var s := Exec(s0, acts);
    var s' := Step(s, a);
    forall q | q in s'.threads
      ensures PcTraced(s0, acts + [a], q, s'.threads[q].pc)
    {
      if q in s.threads {
        assert s'.threads[q] == s.threads[q];
        MorePc(s0, acts, a, q, s.threads[q].pc);
      } else if a.Arrive? {
        ArriveTraced(s0, acts, q, a.r);
      } else {
        SpawnTraced(s0, acts, q);
      }
    }
  }

  /** What is not a thread's step leaves the tables alone and starts one thread at most. */
  lemma ElseQuiet(s: State, a: Action)
    requires !(a.Run? && a.p in s.threads && Plausible(a.c))
    ensures var s' := Step(s, a); s'.t == s.t && s'.base == s.base && s'.past.(early := {}) == s.past.(early := {})
    ensures DirThreads(s) ==> DirThreads(Step(s, a))
  {
  }

  lemma ElseRows(s0: State, acts: seq<Action>, s: State, s': State)
    requires RowsTraced(s0, acts, s) && s'.t == s.t && s'.base == s.base && s'.past.(early := {}) == s.past.(early := {})
    ensures RowsTraced(s0, acts, s')
  {
  }

  lemma ElseTraced(s0: State, acts: seq<Action>, a: Action)
    requires !(a.Run? && a.p in Exec(s0, acts).threads && Plausible(a.c)) && Traced(s0, acts, Exec(s0, acts))
    ensures Traced(s0, acts + [a], Step(Exec(s0, acts), a))
  {
    var s := Exec(s0, acts);
    ElseQuiet(s, a);
    MoreRows(s0, acts, a, s);
    ElseRows(s0, acts + [a], s, Step(s, a));
    MoreEntries(s0, acts, a, s.t.history);
    MoreSignals(s0, acts, a, s.past.signalled);
    ElseThreads(s0, acts, a);
  }

  lemma TracedStep(s0: State, acts: seq<Action>, a: Action)
    requires Safe(Exec(s0, acts)) && Traced(s0, acts, Exec(s0, acts))
    ensures Traced(s0, acts + [a], Step(Exec(s0, acts), a)) && Step(Exec(s0, acts), a).base == Exec(s0, acts).base
  {
    if a.Run? && a.p in Exec(s0, acts).threads && Plausible(a.c) {
      RunTraced(s0, acts, a.p, a.c);
    } else {
      ElseTraced(s0, acts, a);
      ElseQuiet(Exec(s0, acts), a);
    }
  }

  lemma TracedInit(base: Path, max: nat)
    ensures Traced(Init(base, max), [], Init(base, max))
  {
  }

  lemma {:induction false} TracedExec(base: Path, max: nat, acts: seq<Action>)
    ensures Traced(Init(base, max), acts, Exec(Init(base, max), acts)) && Exec(Init(base, max), acts).base == base
  {
    var s0 := Init(base, max);
    if acts == [] {
      TracedInit(base, max);
    } else {
      var front, a := acts[..|acts| - 1], acts[|acts| - 1];
      TracedExec(base, max, front);
      SafeExec(s0, front);
      assert acts == front + [a];
      TracedStep(s0, front, a);
    }
  }

  // ---------------------------------------------------------------- a goroutine serves one request

  lemma ThreadStays(s: State, a: Action, p: nat)
    requires p in s.threads
    ensures p in Step(s, a).threads
  {
  }

  lemma {:induction false} ThreadsStay(s0: State, acts: seq<Action>, m: nat, p: nat)
    requires m <= |acts| && p in Exec(s0, acts[..m]).threads
    ensures p in Exec(s0, acts).threads
    decreases |acts|
  {
    if m == |acts| {
      assert acts[..m] == acts;
    } else {
      var front := acts[..|acts| - 1];
      assert front[..m] == acts[..m];
      ThreadsStay(s0, front, m, p);
      ThreadStays(Exec(s0, front), acts[|acts| - 1], p);
    }
  }

  /** Action n starts goroutine p. */
  ghost predicate StartsAt(s0: State, acts: seq<Action>, n: nat, p: nat) {
    n < |acts| && p !in Exec(s0, acts[..n]).threads && p in Exec(s0, acts[..n + 1]).threads
  }

  lemma NoSecondStart(s0: State, acts: seq<Action>, m: nat, n: nat, p: nat)
    requires StartsAt(s0, acts, m, p) && StartsAt(s0, acts, n, p)
    ensures m >= n
  {
    if m < n {
      assert acts[..n][..m + 1] == acts[..m + 1];
      ThreadsStay(s0, acts[..n], m + 1, p);
    }
  }

  lemma ArrivalStarts(s0: State, acts: seq<Action>, n: nat, p: nat, r: Request)
    requires ArrivesAt(s0, acts, n, p, r)
    ensures StartsAt(s0, acts, n, p)
  {
    assert acts[..n + 1][..n] == acts[..n];
  }

  lemma SpawnStarts(s0: State, acts: seq<Action>, n: nat, p: nat, id: int)
    requires SpawnsAt(s0, acts, n, p, id)
    ensures StartsAt(s0, acts, n, p)
  {
    assert acts[..n + 1][..n] == acts[..n];
  }

  /** So the request, or the job, of a goroutine is well defined. */
  lemma OneCaller(s0: State, acts: seq<Action>, p: nat, r: Request)
    requires Came(s0, acts, p, r)
    ensures forall r' :: Came(s0, acts, p, r') ==> r' == r
    ensures forall id :: !Spawned(s0, acts, p, id)
  {
    var m: nat :| ArrivesAt(s0, acts, m, p, r);
    ArrivalStarts(s0, acts, m, p, r);
    forall r' | Came(s0, acts, p, r')
      ensures r' == r
    {
      var n: nat :| ArrivesAt(s0, acts, n, p, r');
      ArrivalStarts(s0, acts, n, p, r');
      NoSecondStart(s0, acts, m, n, p);
      NoSecondStart(s0, acts, n, m, p);
    }
    forall id
      ensures !Spawned(s0, acts, p, id)
    {
      if n: nat :| SpawnsAt(s0, acts, n, p, id) {
        SpawnStarts(s0, acts, n, p, id);
        NoSecondStart(s0, acts, m, n, p);
        NoSecondStart(s0, acts, n, m, p);
      }
    }
  }

  // ---------------------------------------------------------------- for every schedule

  /** Every row was inserted by the goroutine on record for it, for the one request that goroutine serves, exactly as that
      request describes the job; what the request fixes stays, and the directory is the request's or, if it gave none, the
      default one in the end. */
  lemma RowsAreAsAsked(base: Path, max: nat, acts: seq<Action>, id: int) returns (r: Request)
    requires id in Exec(Init(base, max), acts).t.rows
    ensures var s := Exec(Init(base, max), acts);
            var j := s.t.rows[id];
            && id in s.past.born && id in s.past.maker
            && Came(Init(base, max), acts, s.past.maker[id], r) && Describes(r, s.past.born[id])
            && j.meta == r.meta && j.registeredAt == r.at
            && (j.dir == r.dir || (r.dir == [] && j.dir == base + [FormatInt(id)]))
  {
    var s0 := Init(base, max);
    var s := Exec(s0, acts);
    TracedExec(base, max, acts);
    SafeExec(s0, acts);
    assert RowOk(s.t.rows[id], Of(s.t.history, id), s.past.born[id], s.past.pids[id]);
    assert TraceRule(s0, acts, base)(id, s.t.rows[id], s.past.born[id], s.past.maker[id], s.past.pids[id]);
    r :| Came(s0, acts, s.past.maker[id], r) && Describes(r, s.past.born[id]);
  }

  /** A job's process is the one its registration named or else the one that a successful restore of the job answered, on
      behalf of a resume that named it; every restore on record brought such a pid. */
  lemma PidsAreAnswers(base: Path, max: nat, acts: seq<Action>, id: int) returns (r: Request)
    requires id in Exec(Init(base, max), acts).t.rows
    ensures var s := Exec(Init(base, max), acts);
            var j, restores := s.t.rows[id], RestoreCount(Of(s.t.history, id));
            && id in s.past.maker && Came(Init(base, max), acts, s.past.maker[id], r) && j.pid == j.pgid
            && (restores == 0 ==> j.pid == if r.Register? then r.pid else 0)
            && (restores > 0 ==> PidTraced(Init(base, max), acts, id, j.pid))
            && id in s.past.pids && |s.past.pids[id]| == restores
            && forall i :: 0 <= i < restores ==> PidTraced(Init(base, max), acts, id, s.past.pids[id][i])
  {
    var s0 := Init(base, max);
    var s := Exec(s0, acts);
    r := RowsAreAsAsked(base, max, acts, id);
    TracedExec(base, max, acts);
    SafeExec(s0, acts);
    assert RowOk(s.t.rows[id], Of(s.t.history, id), s.past.born[id], s.past.pids[id]);
    assert TraceRule(s0, acts, base)(id, s.t.rows[id], s.past.born[id], s.past.maker[id], s.past.pids[id]);
  }

  /** A failure reason is the text of a failed dump or restore of the job, or of a report that it failed. */
  lemma ReasonsAreTexts(base: Path, max: nat, acts: seq<Action>, id: int) returns (p: nat, to: Status, actor: string)
    requires id in Exec(Init(base, max), acts).t.rows && Exec(Init(base, max), acts).t.rows[id].reason != ""
    ensures Wrote(Init(base, max), acts, p, id, SetStatus(to, Exec(Init(base, max), acts).t.rows[id].reason), actor)
    ensures to in {CheckpointCreationFailed, RestoreFailed, Failed}
  {
    var s0 := Init(base, max);
    var s := Exec(s0, acts);
    TracedExec(base, max, acts);
    assert TraceRule(s0, acts, base)(id, s.t.rows[id], s.past.born[id], s.past.maker[id], s.past.pids[id]);
    p, to, actor :| Wrote(s0, acts, p, id, SetStatus(to, s.t.rows[id].reason), actor);
    TextOnlyOnFailure(s0, acts, p, id, to, s.t.rows[id].reason, actor);
  }

  lemma TextOnlyOnFailure(s0: State, acts: seq<Action>, p: nat, id: int, to: Status, reason: string, actor: string)
    requires Wrote(s0, acts, p, id, SetStatus(to, reason), actor) && reason != ""
    ensures to in {CheckpointCreationFailed, RestoreFailed, Failed}
  {
  }

  /** Every history entry is the commit, made when the history was that long, of an update that its goroutine had reason to
      write to the job on behalf of the actor on record: a pause, a resume, a cancel or a report that named the job and
      found it in the right status, with what the outside world answered, or a worker of the fan-out for "daemon". */
  lemma EntriesAreAttributed(base: Path, max: nat, acts: seq<Action>, i: nat) returns (n: nat, p: nat, u: Update)
    requires i < |Exec(Init(base, max), acts).t.history|
    ensures var e := Exec(Init(base, max), acts).t.history[i];
            CommitsAt(Init(base, max), acts, n, p, u, i, e) && Wrote(Init(base, max), acts, p, e.id, u, e.actor)
  {
    var s0 := Init(base, max);
    TracedExec(base, max, acts);
    var e := Exec(s0, acts).t.history[i];
    assert EntryTraced(s0, acts, i, e);
    n, p, u :| CommitsAt(s0, acts, n, p, u, i, e) && Wrote(s0, acts, p, e.id, u, e.actor);
  }

  /** Every process group that was signalled is the one a cancel saw in the row of the job it named, when it found that job
      RUNNING. */
  lemma SignalsAreSightings(base: Path, max: nat, acts: seq<Action>, g: int)
    returns (p: nat, id: int, actor: string)
    requires g in Exec(Init(base, max), acts).past.signalled
    ensures Killer(Init(base, max), acts, p, id, g, actor)
  {
    var s0 := Init(base, max);
    TracedExec(base, max, acts);
    assert SignalTraced(s0, acts, g);
    var c;
    p, id, actor, c :| Killer(s0, acts, p, id, g, actor) && Told(s0, acts, p, CancelKill(id, g, actor), c);
  }

  /** And no group is signalled off the record. */
  lemma {:induction false} SignalsAreRecorded(
    base: Path, max: nat, acts: seq<Action>, n: nat, p: nat, id: int, g: int, actor: string, c: Choice)
    requires StepsAt(Init(base, max), acts, n, p, CancelKill(id, g, actor), c)
    ensures g in Exec(Init(base, max), acts).past.signalled
    decreases |acts|
  {
    var s0, front, a := Init(base, max), acts[..|acts| - 1], acts[|acts| - 1];
    if n < |front| {
      assert front[..n] == acts[..n];
      SignalsAreRecorded(base, max, front, n, p, id, g, actor, c);
      SignalStays(Exec(s0, front), a, g);
    } else {
      assert front == acts[..n];
    }
  }

  lemma SignalStays(s: State, a: Action, g: int)
    requires g in s.past.signalled
    ensures g in Step(s, a).past.signalled
  {
  }
}
