/** The daemon as interleaved goroutines. Each handler is a program counter that moves through its store calls and
    outside calls; UpdateStatus and UpdatePID are two steps, Read and Commit, because the code validates before it
    opens the transaction. The interruption fan-out is one more goroutine that starts workers behind a semaphore
    and a wait-group. A schedule is any sequence of actions; an action that is not possible leaves the state alone. */
module Machine {
  import opened Numerals
  import opened Lifecycle
  import opened JobTable
  import opened Requests

  /** What follows an update in its handler, whether the update was accepted or refused. */
  datatype Then = ThenDump | ThenRestore | ThenEnd

  datatype Pc =
    | RegisterLatch(job: Job)
    | RegisterInsert(job: Job)
    | RegisterDir(id: int)
    | AdoptLatch(job: Job)
    | AdoptScan(job: Job)
    | AdoptInsert(job: Job)
    | PauseLatch(name: string, actor: string)
    | PauseGet(name: string, actor: string)
    | ResumeGet(name: string, actor: string)
    | CancelGet(name: string, actor: string)
    | CancelKill(id: int, pgid: int, actor: string)
    | CompleteGet(name: string, code: int, msg: string, actor: string)
    | Read(id: int, u: Update, actor: string, next: Then)
    | Commit(id: int, from: Status, u: Update, actor: string, next: Then)
    | Dump(id: int, actor: string)
    | Restore(id: int, actor: string)
    | End
    | Released // a worker that has given its semaphore token back
    | Gone     // a worker that has also left the wait-group

  datatype Thread = Thread(worker: bool, pc: Pc)

  datatype FanPc = Idle | Latched | Adding | Acquiring | Spawning | Waiting | Returned

  /** The fan-out: plan is the snapshot's RUNNING jobs, worker i checkpoints plan[i], and plan[|workers|..] is still
      to be started. mark and known remember the history's length and the rows at the snapshot; no step reads them. */
  datatype Fan = Fan(
    pc: FanPc, plan: seq<int>, workers: seq<nat>, tokens: nat, waiting: nat, mark: nat, known: set<int>)

  /** History variables, read by no step: every job as inserted, who inserted it, the pids its restores brought,
      the process groups signalled, and the threads that were past their latch check when the latch was set. */
  datatype Past = Past(
    born: map<int, Job>, maker: map<int, nat>, pids: map<int, seq<int>>, signalled: seq<int>, early: set<nat>)

  datatype State = State(
    t: Table, latch: bool, threads: map<nat, Thread>, fan: Fan, past: Past, base: Path, max: nat)

  /** A freshly started daemon on an empty store, with New's bound on concurrent checkpoints already applied. */
  function Init(base: Path, max: nat): State {
    State(EMPTY, false, map[], Fan(Idle, [], [], 0, 0, 0, {}), Past(map[], map[], map[], [], {}), base, max)
  }

  /** New's default: a bound that is not positive becomes the number of CPUs. */
  function MaxConcurrent(configured: int, cpus: nat): (max: nat)
    ensures cpus > 0 ==> max > 0
    ensures configured > 0 ==> max == configured
    ensures configured <= 0 ==> max == cpus
  {
    if configured <= 0 then cpus else configured
  }

  function Begin(r: Request): Pc {
    match r
    case Register(_, _, _, _, _) => RegisterLatch(RegisteredJob(r))
    case Adopt(_, _, _) => AdoptLatch(AdoptedJob(r))
    case Pause(name, actor) => PauseLatch(name, actor)
    case Resume(name, actor) => ResumeGet(name, actor)
    case Cancel(name, actor) => CancelGet(name, actor)
    case Complete(name, code, msg, actor) => CompleteGet(name, code, msg, actor)
  }

  function After(next: Then, id: int, actor: string): Pc {
    match next
    case ThenDump => Dump(id, actor)
    case ThenRestore => Restore(id, actor)
    case ThenEnd => End
  }

  /** Where a Get leads: nowhere for an id without a row. */
  function AfterGet(t: Table, pc: Pc): Pc
    requires pc.PauseGet? || pc.ResumeGet? || pc.CancelGet? || pc.CompleteGet?
  {
    match t.Find(pc.name)
    case None => End
    case Some(id) =>
      var j := t.rows[id];
      match pc
      case PauseGet(_, actor) =>
        if j.status == Running then Read(id, SetStatus(CheckpointInProgress, ""), actor, ThenDump) else End
      case ResumeGet(_, actor) =>
        if j.status == CheckpointCreated || j.status == RestoreFailed
        then Read(id, SetStatus(RestorePending, ""), actor, ThenRestore) else End
      case CancelGet(_, actor) =>
        if j.status == Running then CancelKill(id, j.pgid, actor)
        else Read(id, SetStatus(Canceled, ""), actor, ThenEnd)
      case CompleteGet(_, code, msg, actor) =>
        if j.status == Running then Read(id, ExitUpdate(code, msg), actor, ThenEnd) else End
  }

  /** Where a thread goes next, with the outside world answering c where the step asks it something. */
  ghost function NextPc(s: State, th: Thread, c: Choice): Pc {
    match th.pc
    case RegisterLatch(j) => if s.latch || !c.ok then End else RegisterInsert(j)
    case RegisterInsert(j) => if j.dir == [] then RegisterDir(s.t.lastId + 1) else End
    case RegisterDir(_) => End
    case AdoptLatch(j) => if s.latch || j.dir == [] || !c.ok then End else AdoptScan(j)
    case AdoptScan(j) => if s.t.Occupied(j.dir) then End else AdoptInsert(j)
    case AdoptInsert(_) => End
    case PauseLatch(name, actor) => if s.latch then End else PauseGet(name, actor)
    case PauseGet(_, _) => AfterGet(s.t, th.pc)
    case ResumeGet(_, _) => AfterGet(s.t, th.pc)
    case CancelGet(_, _) => AfterGet(s.t, th.pc)
    case CompleteGet(_, _, _, _) => AfterGet(s.t, th.pc)
    case CancelKill(id, _, actor) => if c.ok then Read(id, SetStatus(Canceled, ""), actor, ThenEnd) else End
    case Read(id, u, actor, next) =>
      if s.t.Accepts(id, u) then Commit(id, s.t.rows[id].status, u, actor, next) else After(next, id, actor)
    case Commit(id, _, _, actor, next) => After(next, id, actor)
    case Dump(id, actor) => Read(id, DumpUpdate(c), actor, ThenEnd)
    case Restore(id, actor) => Read(id, RestoreUpdate(c), actor, ThenEnd)
    case End => if th.worker && s.fan.tokens > 0 then Released else End
    case Released => if s.fan.waiting > 0 then Gone else Released
    case Gone => Gone
  }

  /** What the step does to the tables. */
  function NextTable(s: State, pc: Pc): Table {
    match pc
    case RegisterInsert(j) => s.t.Insert(j)
    case AdoptInsert(j) => s.t.Insert(j)
    case RegisterDir(id) => s.t.WithDir(id, s.base + [FormatInt(id)])
    case Commit(id, from, u, actor, _) => s.t.Commit(id, from, u, actor)
    case _ => s.t
  }

  function Recorded(past: Past, p: nat, id: int, j: Job): Past {
    past.(born := past.born[id := j], maker := past.maker[id := p], pids := past.pids[id := []])
  }

  function Restored(past: Past, id: int, u: Update): Past {
    if u.SetPid? && id in past.pids then past.(pids := past.pids[id := past.pids[id] + [u.pid]]) else past
  }

  function NextPast(s: State, p: nat, pc: Pc): Past {
    match pc
    case RegisterInsert(j) => Recorded(s.past, p, s.t.lastId + 1, j)
    case AdoptInsert(j) => Recorded(s.past, p, s.t.lastId + 1, j)
    case Commit(id, _, u, _, _) => Restored(s.past, id, u)
    case CancelKill(_, pgid, _) => s.past.(signalled := s.past.signalled + [pgid])
    case _ => s.past
  }

  /** A worker's deferred calls: give the token back, then leave the wait-group. */
  function NextFan(fan: Fan, th: Thread): Fan {
    if th.pc == End && th.worker && fan.tokens > 0 then fan.(tokens := fan.tokens - 1)
    else if th.pc == Released && fan.waiting > 0 then fan.(waiting := fan.waiting - 1)
    else fan
  }

  /** One step of thread p. */
  ghost function Advance(s: State, p: nat, c: Choice): State
    requires p in s.threads
  {
    var th := s.threads[p];
    s.(t := NextTable(s, th.pc), threads := s.threads[p := th.(pc := NextPc(s, th, c))],
       past := NextPast(s, p, th.pc), fan := NextFan(s.fan, th))
  }

  predicate PastLatch(pc: Pc) {
    !pc.RegisterLatch? && !pc.AdoptLatch? && !pc.PauseLatch?
  }

  datatype Action =
    | Arrive(p: nat, r: Request)        // a request comes in on its own goroutine
    | Run(p: nat, c: Choice)            // a handler or worker takes a step
    | Signal                            // the provider reports an interruption: set the latch
    | Snapshot(jobs: seq<Row>)          // the fan-out lists the active jobs
    | FanOut(p: nat)                    // the fan-out's loop takes a step; a spawned worker gets thread id p

  ghost function Step(s: State, a: Action): State {
    match a
    case Arrive(p, r) =>
      if p !in s.threads && Sane(r) then s.(threads := s.threads[p := Thread(false, Begin(r))]) else s
    case Run(p, c) => if p in s.threads && Plausible(c) then Advance(s, p, c) else s
    case Signal =>
      if s.fan.pc == Idle || s.fan.pc == Returned then
        s.(latch := true, fan := s.fan.(pc := Latched),
           past := if s.latch then s.past
                   else s.past.(early := set p | p in s.threads && PastLatch(s.threads[p].pc)))
      else s
    case Snapshot(jobs) =>
      if s.fan.pc == Latched && s.t.Listing(jobs, false) then
        var plan := RunningIds(jobs);
        s.(fan := Fan(if plan == [] then Returned else Adding, plan, [], 0, 0, |s.t.history|, s.t.rows.Keys))
      else s
    case FanOut(p) => FanStep(s, p)
  }

  function FanStep(s: State, p: nat): State {
    match s.fan.pc
    case Adding =>
      if |s.fan.workers| < |s.fan.plan| then s.(fan := s.fan.(pc := Acquiring, waiting := s.fan.waiting + 1))
      else s.(fan := s.fan.(pc := Waiting))
    case Acquiring =>
      if s.fan.tokens < s.max then s.(fan := s.fan.(pc := Spawning, tokens := s.fan.tokens + 1)) else s
    case Spawning =>
      if p !in s.threads && |s.fan.workers| < |s.fan.plan| then
        s.(threads := s.threads[p := Thread(true, Marking(s.fan.plan[|s.fan.workers|]))],
           fan := s.fan.(pc := Adding, workers := s.fan.workers + [p]))
      else s
    case Waiting => if s.fan.waiting == 0 then s.(fan := s.fan.(pc := Returned)) else s
    case _ => s
  }

  /** Where checkpointJob starts. */
  function Marking(id: int): Pc {
    Read(id, SetStatus(CheckpointInProgress, ""), DAEMON_ACTOR, ThenDump)
  }

  /** The state after a schedule. */
  ghost function Exec(s: State, acts: seq<Action>): State {
    if acts == [] then s else Step(Exec(s, acts[..|acts| - 1]), acts[|acts| - 1])
  }

  lemma {:induction false} ExecSplit(s: State, a: seq<Action>, b: seq<Action>)
    ensures Exec(s, a + b) == Exec(Exec(s, a), b)
    decreases |b|
  {
    if b == [] {
      assert a + b == a;
    } else {
      assert (a + b)[..|a + b| - 1] == a + b[..|b| - 1];
      ExecSplit(s, a, b[..|b| - 1]);
    }
  }
}
