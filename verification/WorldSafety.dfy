/** What holds between whole requests, in every run. */
module WorldSafety {
  import opened Wrappers
  import opened Numerals
  import opened Lifecycle
  import opened JobTable
  import opened Requests
  import opened WholeRequests
  import opened World

  // ---------------------------------------------------------------- one request or fan-out at a time

  /** The row a request names, if it names one and gets as far as looking it up. */
  function Named(w: World, r: Request): Option<int> {
    if r.Resume? || r.Cancel? || r.Complete? || (r.Pause? && !w.latch) then w.t.Find(r.name) else None
  }

  /** A request adds one row, or rewrites at most the row it names. */
  lemma ServeTable(w: World, r: Request, c: Choice)
    ensures var t' := Serve(w, r, c).t;
            || t' == w.t
            || (r.Register? && !w.latch && t' == RegisterJob(w.t, w.base, r))
            || (r.Adopt? && !w.latch && r.dir != [] && c.ok && !w.t.Occupied(r.dir) && t' == w.t.Insert(AdoptedJob(r)))
            || (Named(w, r).Some? && t' == HandleNamed(w.t, r, Named(w, r), c))
  {
  }

  lemma RegisterRow(t: Table, base: Path, r: Request)
    requires r.Register?
    ensures var t', n := RegisterJob(t, base, r), t.lastId + 1;
            NewRow(t, t') && t'.rows[n] == RegisteredJob(r).(dir := if r.dir == [] then DefaultDir(base, n) else r.dir)
  {
  }

  // ---------------------------------------------------------------- a request, column by column

  /** The row of a registered job: the request's process, RUNNING, in its own or the default directory. */
  predicate AsRegistered(j: Job, r: Request, base: Path, id: int) {
    && r.Register? && j.pid == r.pid && j.pgid == r.pgid && j.status == Running && j.reason == ""
    && j.dir == (if r.dir == [] then base + [FormatInt(id)] else r.dir)
    && j.registeredAt == r.at && j.meta == r.meta
  }

  /** The row of an adopted job: no process, and the request's directory. */
  predicate AsAdopted(j: Job, r: Request) {
    && r.Adopt? && j.pid == j.pgid == 0 && j.status == CheckpointCreated && j.reason == ""
    && j.dir == r.dir && j.registeredAt == r.at && j.meta == r.meta
  }

  /** An active job has the directory. */
  ghost predicate Taken(t: Table, dir: Path) {
    exists id :: id in t.rows && t.rows[id].status !in {Failed, Canceled, Completed} && t.rows[id].dir == dir
  }

  /** What a dump leaves in a directory. */
  function Filled(disk: Disk, dir: Path, left: Option<Image>): Disk {
    if left.Some? then disk[dir := left.value] else disk - {dir}
  }

  /** A registration is turned away by the latch or a bad hook and otherwise adds the job it describes. */
  lemma RegisterServed(w: World, r: Request, c: Choice)
    requires r.Register?
    ensures var w', n := Serve(w, r, c), w.t.lastId + 1;
            if w.latch || !c.ok then w' == w
            else w' == w.(t := w'.t) && NewRow(w.t, w'.t) && AsRegistered(w'.t.rows[n], r, w.base, n)
  {
  }

  /** An adopt is turned away by the latch, a missing or bad directory or one that an active job has, and otherwise adds a
      job that can be resumed from what is there. */
  lemma AdoptServed(w: World, r: Request, c: Choice)
    requires r.Adopt?
    ensures var w', n := Serve(w, r, c), w.t.lastId + 1;
            if w.latch || r.dir == [] || !c.ok || Taken(w.t, r.dir) then w' == w
            else && w' == w.(t := w'.t, saved := w'.saved) && NewRow(w.t, w'.t) && AsAdopted(w'.t.rows[n], r)
                 && w'.saved == if r.dir in w.disk then w.saved[n := w.disk[r.dir]] else w.saved
  {
    assert Taken(w.t, r.dir) <==> w.t.Occupied(r.dir) by {
      if Taken(w.t, r.dir) {
        var id :| id in w.t.rows && w.t.rows[id].status !in {Failed, Canceled, Completed} && w.t.rows[id].dir == r.dir;
        TerminalIff(w.t.rows[id].status);
      }
      if w.t.Occupied(r.dir) {
        var id :| id in w.t.rows && !IsTerminal(w.t.rows[id].status) && w.t.rows[id].dir == r.dir;
        TerminalIff(w.t.rows[id].status);
      }
    }
  }

  /** A pause, resume, cancel or completion changes the row it names, or nothing at all; a pause that does so dumps into
      that row's directory, and the others leave the disk alone. */
  lemma NamedServed(w: World, r: Request, c: Choice) returns (es: seq<Entry>)
    requires r.Pause? || r.Resume? || r.Cancel? || r.Complete?
    ensures var w' := Serve(w, r, c);
            match if r.Pause? && w.latch then None else w.t.Find(r.name)
            case None => w' == w && es == []
            case Some(id) =>
              if !Acts(w.t.rows[id], r, c) then w' == w && es == []
              else
                && OneRow(w.t, w'.t, id, es) && RowOutcome(w.t.rows[id], w'.t.rows[id], r, id, c, es)
                && (!r.Pause? ==> w' == w.(t := w'.t))
                && (r.Pause? ==>
                      && w' == w.(t := w'.t, disk := Filled(w.disk, w.t.rows[id].dir, c.left), saved := w'.saved)
                      && w'.saved == if c.ok && c.left.Some? then w.saved[id := c.left.value] else w.saved)
  {
    es := [];
    if w.t.Find(r.name).Some? && !(r.Pause? && w.latch) {
      es := NamedEffect(w.t, r, w.t.Find(r.name).value, c);
    }
  }

  // ---------------------------------------------------------------- a fan-out, worker by worker

  lemma {:induction false} EachTable(w: World, ids: seq<int>, out: int -> Choice)
    requires AllRunning(w.t, ids)
    ensures var w' := CheckpointEach(w, ids, out);
            w'.t == CheckpointAll(w.t, ids, out) && w'.latch == w.latch && w'.base == w.base
  {
    if ids == [] {
    } else {
      EachTable(w, ids[..|ids| - 1], out);
      CheckpointAllEffect(w.t, ids[..|ids| - 1], out, ids[|ids| - 1]);
    }
  }

  /** Every stage of the fan-out checkpoints one job that is still RUNNING. */
  lemma EachStage(w: World, ids: seq<int>, out: int -> Choice)
    requires AllRunning(w.t, ids) && ids != []
    ensures var w1, id := CheckpointEach(w, ids[..|ids| - 1], out), ids[|ids| - 1];
            && id in w1.t.rows && w1.t.rows[id].status == Running && w1.t.rows[id] == w.t.rows[id]
            && CheckpointEach(w, ids, out) == Checkpointed(w1, id, DAEMON_ACTOR, out(id))
            && OneRow(w1.t, CheckpointEach(w, ids, out).t, id, CheckpointEntries(id, DAEMON_ACTOR, out(id)))
            && CheckpointEach(w, ids, out).t.rows[id] == CheckpointedRow(w.t.rows[id], out(id))
  {
    var front, id := ids[..|ids| - 1], ids[|ids| - 1];
    EachTable(w, front, out);
    CheckpointAllEffect(w.t, front, out, id);
    CheckpointJobEffect(CheckpointEach(w, front, out).t, id, DAEMON_ACTOR, out(id));
  }

  // ---------------------------------------------------------------- quiescence and the edges in use

  /** The table's edges but one: no whole request checkpoints a job whose last checkpoint failed. */
  predicate HandledEdge(from: Status, to: Status) {
    ValidTransition(from, to) && !(from == CheckpointCreationFailed && to == CheckpointInProgress)
  }

  predicate AtRest(s: Status) {
    s != CheckpointInProgress && s != RestorePending
  }

  ghost predicate Settled(t: Table) {
    && (forall id :: id in t.rows ==> 1 <= id <= t.lastId && AtRest(t.rows[id].status))
    && (forall i :: 0 <= i < |t.history| ==> HandledEdge(t.history[i].from, t.history[i].to))
  }

  lemma SettledNamed(t: Table, r: Request, id: int, c: Choice)
    requires Settled(t) && id in t.rows
    ensures Settled(HandleNamed(t, r, Some(id), c))
  {
    var es := NamedEffect(t, r, id, c);
  }

  lemma {:induction false} SettledEach(w: World, ids: seq<int>, out: int -> Choice)
    requires AllRunning(w.t, ids) && Settled(w.t)
    ensures Settled(CheckpointEach(w, ids, out).t)
  {
    if ids == [] {
    } else {
      SettledEach(w, ids[..|ids| - 1], out);
      EachStage(w, ids, out);
    }
  }

  lemma SettledServe(w: World, r: Request, c: Choice)
    requires Settled(w.t)
    ensures Settled(Serve(w, r, c).t)
  {
    ServeTable(w, r, c);
    if r.Register? {
      RegisterRow(w.t, w.base, r);
    } else if Named(w, r).Some? {
      SettledNamed(w.t, r, Named(w, r).value, c);
    }
  }

  /** In every run of whole requests, fan-outs and prunes, no job rests in CHECKPOINT_IN_PROGRESS or RESTORE_PENDING
      between steps, and only 13 of the 14 table edges are ever recorded. */
  lemma {:induction false} Quiescence(base: Path, disk: Disk, es: seq<Event>)
    ensures Settled(AfterAll(Start(base, disk), es).t)
  {
    if es == [] {
    } else {
      Quiescence(base, disk, es[..|es| - 1]);
      var w, e := AfterAll(Start(base, disk), es[..|es| - 1]), es[|es| - 1];
      if Possible(w, e) {
        match e
        case Asked(r, c) => SettledServe(w, r, c);
        case Interrupted(jobs, out) =>
          RunningIdsAll(w.t, jobs);
          SettledEach(w.(latch := true), RunningIds(jobs), out);
        case _ =>
      }
    }
  }

  // ---------------------------------------------------------------- distinct active directories

  /** Registrations take the default directory, adopted checkpoints lie outside the base directory. */
  predicate Usual(base: Path, e: Event) {
    && (e.Asked? && e.r.Register? ==> e.r.dir == [])
    && (e.Asked? && e.r.Adopt? ==> !(base <= e.r.dir))
  }

  ghost predicate OwnDirs(base: Path, t: Table) {
    && t.Valid()
    && (forall id :: id in t.rows ==> t.rows[id].dir == DefaultDir(base, id) || !(base <= t.rows[id].dir))
    && (forall i, k :: i in t.rows && k in t.rows && i != k && t.rows[i].dir == t.rows[k].dir ==>
          IsTerminal(t.rows[i].status) || IsTerminal(t.rows[k].status))
  }

  /** Rewriting an active row in place keeps directories apart, because a terminal row stays terminal. */
  lemma OwnDirsOneRow(base: Path, t: Table, t': Table, id: int, es: seq<Entry>)
    requires OwnDirs(base, t) && OneRow(t, t', id, es) && forall e :: e in es ==> e.id == id
    ensures OwnDirs(base, t')
  {
    forall i | 0 <= i < |t'.history|
      ensures t'.history[i].id in t'.rows
    {
      if i >= |t.history| {
        assert t'.history[i] in es;
      }
    }
  }

  lemma OwnDirsRegister(base: Path, t: Table, r: Request)
    requires OwnDirs(base, t) && r.Register? && r.dir == []
    ensures OwnDirs(base, RegisterJob(t, base, r))
  {
    RegisterRow(t, base, r);
    var n := t.lastId + 1;
    forall k | k in t.rows
      ensures t.rows[k].dir != DefaultDir(base, n)
    {
      if t.rows[k].dir == DefaultDir(base, k) && DefaultDir(base, k) == DefaultDir(base, n) {
        assert DefaultDir(base, k)[|base|] == DefaultDir(base, n)[|base|];
        FormatInjective(k, n);
      }
      assert base <= DefaultDir(base, n);
    }
  }

  lemma {:induction false} OwnDirsEach(base: Path, w: World, ids: seq<int>, out: int -> Choice)
    requires AllRunning(w.t, ids) && OwnDirs(base, w.t)
    ensures OwnDirs(base, CheckpointEach(w, ids, out).t)
  {
    if ids == [] {
    } else {
      OwnDirsEach(base, w, ids[..|ids| - 1], out);
      EachStage(w, ids, out);
      var id := ids[|ids| - 1];
      OwnDirsOneRow(base, CheckpointEach(w, ids[..|ids| - 1], out).t, CheckpointEach(w, ids, out).t, id,
                    CheckpointEntries(id, DAEMON_ACTOR, out(id)));
    }
  }

  lemma OwnDirsServe(w: World, r: Request, c: Choice)
    requires OwnDirs(w.base, w.t) && Usual(w.base, Asked(r, c))
    ensures OwnDirs(w.base, Serve(w, r, c).t)
  {
    ServeTable(w, r, c);
    if r.Register? {
      OwnDirsRegister(w.base, w.t, r);
    } else if Named(w, r).Some? {
      var id := Named(w, r).value;
      var es := NamedEffect(w.t, r, id, c);
      if es != [] {
        OwnDirsOneRow(w.base, w.t, HandleNamed(w.t, r, Some(id), c), id, es);
      }
    }
  }

  lemma BaseFixed(w: World, e: Event)
    requires Possible(w, e)
    ensures Happens(w, e).base == w.base
  {
    if e.Interrupted? {
      RunningIdsAll(w.t, e.jobs);
      EachTable(w.(latch := true), RunningIds(e.jobs), e.out);
    }
  }

  /** With default directories for registered jobs and adopted checkpoints outside the base directory, no two active
      jobs ever share a directory. */
  lemma {:induction false} ActiveDirectoriesDistinct(base: Path, disk: Disk, es: seq<Event>)
    requires forall i :: 0 <= i < |es| ==> Usual(base, es[i])
    ensures AfterAll(Start(base, disk), es).base == base
    ensures OwnDirs(base, AfterAll(Start(base, disk), es).t)
  {
    if es == [] {
    } else {
      ActiveDirectoriesDistinct(base, disk, es[..|es| - 1]);
      var w, e := AfterAll(Start(base, disk), es[..|es| - 1]), es[|es| - 1];
      if Possible(w, e) {
        BaseFixed(w, e);
        match e
        case Asked(r, c) => OwnDirsServe(w, r, c);
        case Interrupted(jobs, out) =>
          RunningIdsAll(w.t, jobs);
          OwnDirsEach(base, w.(latch := true), RunningIds(jobs), out);
        case _ =>
      }
    }
  }

  // ---------------------------------------------------------------- each of the 13 edges occurs

  const FIRST := Asked(Register(7, 7, ["d"], 0, Meta([], "", "", "", "", "")), YES)

  /** A run whose job "1" has come to the given status. */
  ghost predicate Leads(es: seq<Event>, status: Status) {
    var w := AfterAll(Start([], map[]), es);
    !w.latch && w.t.Find("1") == Some(1) && w.t.rows[1].status == status
  }

  lemma Then(es: seq<Event>, r: Request, c: Choice, status: Status) returns (recorded: seq<Entry>)
    requires Leads(es, status) && Plausible(c) && (r.Pause? || r.Resume? || r.Cancel? || r.Complete?) && r.name == "1"
    requires match r
             case Pause(_, _) => status == Running
             case Resume(_, _) => Resumable(status)
             case Cancel(_, _) => c.ok && ValidTransition(status, Canceled)
             case _ => status == Running
    ensures var w, w' := AfterAll(Start([], map[]), es), AfterAll(Start([], map[]), es + [Asked(r, c)]);
            && Leads(es + [Asked(r, c)], w'.t.rows[1].status) && w'.t.history == w.t.history + recorded
            && RowOutcome(w.t.rows[1], w'.t.rows[1], r, 1, c, recorded)
  {
    var w := AfterAll(Start([], map[]), es);
    assert (es + [Asked(r, c)])[..|es|] == es;
    recorded := NamedEffect(w.t, r, 1, c);
    assert Serve(w, r, c).t == HandleNamed(w.t, r, Some(1), c);
  }

  lemma Registered()
    ensures Leads([FIRST], Running)
  {
    ParseFormat(1);
    assert FormatInt(1) == "1";
    var w := Start([], map[]);
    assert [FIRST][..0] == [];
    RegisterRow(w.t, w.base, FIRST.r);
  }

  /** Some run brings the job to each status the other edges start from. */
  lemma Reached(status: Status) returns (es: seq<Event>)
    requires status == Running || status == CheckpointCreated || status == CheckpointCreationFailed ||
             status == RestoreFailed
    ensures Leads(es, status)
  {
    Registered();
    es := [FIRST];
    if status != Running {
      var c := if status == CheckpointCreationFailed then NO else YES;
      var _ := Then(es, Pause("1", "u"), c, Running);
      es := es + [Asked(Pause("1", "u"), c)];
      if status == RestoreFailed {
        var _ := Then(es, Resume("1", "u"), NO, CheckpointCreated);
        es := es + [Asked(Resume("1", "u"), NO)];
      }
    }
  }

  /** The edges that runs record: all of the table's but CHECKPOINT_CREATION_FAILED to CHECKPOINT_IN_PROGRESS. */
  const RECORDED: seq<(Status, Status)> := [
    (Running, CheckpointInProgress), (Running, Canceled), (Running, Completed), (Running, Failed),
    (CheckpointInProgress, CheckpointCreated), (CheckpointInProgress, CheckpointCreationFailed),
    (CheckpointCreationFailed, Canceled),
    (CheckpointCreated, RestorePending), (CheckpointCreated, Canceled),
    (RestorePending, Running), (RestorePending, RestoreFailed),
    (RestoreFailed, RestorePending), (RestoreFailed, Canceled)]

  ghost predicate Records(base: Path, disk: Disk, es: seq<Event>, from: Status, to: Status) {
    exists e :: e in AfterAll(Start(base, disk), es).t.history && e.from == from && e.to == to
  }

  lemma HandledIffListed(from: Status, to: Status)
    ensures HandledEdge(from, to) <==> (from, to) in RECORDED
  {
    TransitionTable(from, to);
    if HandledEdge(from, to) {
      var i :| 0 <= i < |EDGES| && EDGES[i] == (from, to);
      assert i != 6;
      assert RECORDED[if i < 6 then i else i - 1] == (from, to);
    }
  }

  lemma RecordedOnly(base: Path, disk: Disk, es: seq<Event>, from: Status, to: Status)
    requires Records(base, disk, es, from, to)
    ensures (from, to) in RECORDED
  {
    Quiescence(base, disk, es);
    HandledIffListed(from, to);
  }

  lemma RecordedSome(from: Status, to: Status) returns (es: seq<Event>)
    requires (from, to) in RECORDED
    ensures Records([], map[], es, from, to)
  {
    HandledIffListed(from, to);
    var e;
    es, e := EveryHandledEdgeOccurs(from, to);
  }

  /** The edges on record over all runs are exactly these 13. */
  lemma RecordedIff(from: Status, to: Status)
    ensures (exists base, disk, es :: Records(base, disk, es, from, to)) <==> (from, to) in RECORDED
    ensures |RECORDED| == 13 && forall i, k :: 0 <= i < k < |RECORDED| ==> RECORDED[i] != RECORDED[k]
  {
    if base, disk, es :| Records(base, disk, es, from, to) {
      RecordedOnly(base, disk, es, from, to);
    }
    if (from, to) in RECORDED {
      var es := RecordedSome(from, to);
    }
    RecordedDistinct();
  }

  lemma RecordedDistinct()
    ensures |RECORDED| == 13 && forall i, k :: 0 <= i < k < |RECORDED| ==> RECORDED[i] != RECORDED[k]
  {
  }

  /** The request that records an edge, and the status the job must be in. */
  function Recorder(from: Status, to: Status): (Status, Request, Choice)
    requires HandledEdge(from, to)
  {
    if to == Canceled then (from, Cancel("1", "u"), YES)
    else if to == Completed then (Running, Complete("1", 0, "", "u"), YES)
    else if to == Failed then (Running, Complete("1", 1, "", "u"), YES)
    else if from == Running then (Running, Pause("1", "u"), YES)
    else if from == CheckpointInProgress then (Running, Pause("1", "u"), if to == CheckpointCreated then YES else NO)
    else if from == RestorePending then (CheckpointCreated, Resume("1", "u"), if to == Running then YES else NO)
    else (from, Resume("1", "u"), YES)
  }

  /** Each of the 13 edges is recorded by some run. */
  lemma EveryHandledEdgeOccurs(from: Status, to: Status) returns (es: seq<Event>, e: Entry)
    requires HandledEdge(from, to)
    ensures e in AfterAll(Start([], map[]), es).t.history && e.from == from && e.to == to
  {
    var (status, r, c) := Recorder(from, to);
    es := Reached(status);
    var recorded := Then(es, r, c, status);
    es := es + [Asked(r, c)];
    e := if |recorded| == 2 && (from == CheckpointInProgress || from == RestorePending) then recorded[1] else recorded[0];
    assert e in recorded;
  }
}
