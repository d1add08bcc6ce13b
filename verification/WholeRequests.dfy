/** Requests that run undisturbed from start to end, as functions from table to table. */
module WholeRequests {
  import opened Wrappers
  import opened Numerals
  import opened Lifecycle
  import opened JobTable
  import opened Requests

  /** checkpointJob: mark the job, dump it, record the outcome. It carries on when the store refuses an update. */
  function CheckpointJob(t: Table, id: int, actor: string, c: Choice): Table {
    t.Updated(id, SetStatus(CheckpointInProgress, ""), actor).Updated(id, DumpUpdate(c), actor)
  }

  /** resumeJob: mark the job, restore it, record the outcome or the new pid. */
  function ResumeJob(t: Table, id: int, actor: string, c: Choice): Table {
    t.Updated(id, SetStatus(RestorePending, ""), actor).Updated(id, RestoreUpdate(c), actor)
  }

  predicate Resumable(s: Status) {
    s == CheckpointCreated || s == RestoreFailed
  }

  function DefaultDir(base: Path, id: int): Path {
    base + [FormatInt(id)]
  }

  function RegisterJob(t: Table, base: Path, r: Request): Table
    requires r.Register?
  {
    var t' := t.Insert(RegisteredJob(r));
    if r.dir == [] then t'.WithDir(t'.lastId, DefaultDir(base, t'.lastId)) else t'
  }

  /** The tables after a request, with c answering whatever the handler asks the outside world. */
  ghost function Handle(t: Table, latch: bool, base: Path, r: Request, c: Choice): Table {
    match r
    case Register(_, _, _, _, _) => if latch || !c.ok then t else RegisterJob(t, base, r)
    case Adopt(dir, _, _) =>
      if latch || dir == [] || !c.ok || t.Occupied(dir) then t else t.Insert(AdoptedJob(r))
    case Pause(name, actor) => if latch then t else HandleNamed(t, r, t.Find(name), c)
    case Resume(name, actor) => HandleNamed(t, r, t.Find(name), c)
    case Cancel(name, actor) => HandleNamed(t, r, t.Find(name), c)
    case Complete(name, _, _, _) => HandleNamed(t, r, t.Find(name), c)
  }

  function HandleNamed(t: Table, r: Request, id: Option<int>, c: Choice): Table
    requires id.Some? ==> id.value in t.rows
  {
    if id.None? then t
    else
      var id := id.value;
      var status := t.rows[id].status;
      match r
      case Pause(_, actor) => if status == Running then CheckpointJob(t, id, actor, c) else t
      case Resume(_, actor) => if Resumable(status) then ResumeJob(t, id, actor, c) else t
      case Cancel(_, actor) =>
        if status == Running && !c.ok then t else t.Updated(id, SetStatus(Canceled, ""), actor)
      case Complete(_, code, msg, actor) =>
        if status == Running then t.Updated(id, ExitUpdate(code, msg), actor) else t
      case _ => t
  }

  /** Checkpointing jobs one after the other, on the daemon's own behalf. */
  function CheckpointAll(t: Table, ids: seq<int>, out: int -> Choice): Table {
    if ids == [] then t
    else
      var last := ids[|ids| - 1];
      CheckpointJob(CheckpointAll(t, ids[..|ids| - 1], out), last, DAEMON_ACTOR, out(last))
  }

  // ---------------------------------------------------------------- what checkpointing leaves behind

  /** A RUNNING job's row after its checkpoint, by outcome. */
  function CheckpointedRow(j: Job, c: Choice): Job {
    if c.ok then j.(status := CheckpointCreated, reason := "") else j.(status := CheckpointCreationFailed, reason := c.err)
  }

  function CheckpointEntries(id: int, actor: string, c: Choice): seq<Entry> {
    [Entry(id, Running, CheckpointInProgress, actor),
     Entry(id, CheckpointInProgress, if c.ok then CheckpointCreated else CheckpointCreationFailed, actor)]
  }

  lemma CheckpointJobEffect(t: Table, id: int, actor: string, c: Choice)
    requires id in t.rows && t.rows[id].status == Running
    ensures var t' := CheckpointJob(t, id, actor, c);
            && t'.rows == t.rows[id := CheckpointedRow(t.rows[id], c)]
            && t'.history == t.history + CheckpointEntries(id, actor, c)
            && t'.lastId == t.lastId
  {
    var t1 := t.Updated(id, SetStatus(CheckpointInProgress, ""), actor);
    var e1, e2 := CheckpointEntries(id, actor, c)[0], CheckpointEntries(id, actor, c)[1];
    assert t1.history == t.history + [e1];
    assert t.history + [e1] + [e2] == t.history + CheckpointEntries(id, actor, c);
  }

  lemma OfAppendTwo(h: seq<Entry>, e1: Entry, e2: Entry, id: int)
    requires e1.id == e2.id
    ensures Of(h + [e1, e2], id) == if e1.id == id then Of(h, id) + [e1, e2] else Of(h, id)
  {
    assert h + [e1, e2] == h + [e1] + [e2];
    OfAppend(h, e1, id);
    OfAppend(h + [e1], e2, id);
  }

  /** One at a time: each listed RUNNING job ends by its own outcome with exactly two entries of the daemon's, and
      every other job is left alone. */
  lemma {:induction false} CheckpointAllEffect(t: Table, ids: seq<int>, out: int -> Choice, id: int)
    requires AllRunning(t, ids)
    ensures var t' := CheckpointAll(t, ids, out);
            && t'.lastId == t.lastId && t'.rows.Keys == t.rows.Keys
            && (id in t.rows ==> t'.rows[id] == if id in ids then CheckpointedRow(t.rows[id], out(id)) else t.rows[id])
            && Of(t'.history, id) ==
                 if id in ids then Of(t.history, id) + CheckpointEntries(id, DAEMON_ACTOR, out(id)) else Of(t.history, id)
  {
    if ids == [] {
    } else {
      var front, last := ids[..|ids| - 1], ids[|ids| - 1];
      assert forall i :: i in ids <==> i in front || i == last;
      CheckpointAllEffect(t, front, out, id);
      CheckpointAllEffect(t, front, out, last);
      var t1 := CheckpointAll(t, front, out);
      CheckpointJobEffect(t1, last, DAEMON_ACTOR, out(last));
      var es := CheckpointEntries(last, DAEMON_ACTOR, out(last));
      OfAppendTwo(t1.history, es[0], es[1], id);
    }
  }

  /** A resumable job's row after its restore: RUNNING as the process that was started, or failed. */
  function RestoredRow(j: Job, c: Choice): Job {
    if c.ok then j.(status := Running, reason := "", pid := c.pid, pgid := c.pid)
    else j.(status := RestoreFailed, reason := c.err)
  }

  function RestoreEntries(id: int, from: Status, actor: string, c: Choice): seq<Entry> {
    [Entry(id, from, RestorePending, actor), Entry(id, RestorePending, if c.ok then Running else RestoreFailed, actor)]
  }

  lemma ResumeJobEffect(t: Table, id: int, actor: string, c: Choice)
    requires id in t.rows && Resumable(t.rows[id].status)
    ensures var t' := ResumeJob(t, id, actor, c);
            && t'.rows == t.rows[id := RestoredRow(t.rows[id], c)]
            && t'.history == t.history + RestoreEntries(id, t.rows[id].status, actor, c)
            && t'.lastId == t.lastId
  {
    var es := RestoreEntries(id, t.rows[id].status, actor, c);
    var t1 := t.Updated(id, SetStatus(RestorePending, ""), actor);
    assert t1.history == t.history + [es[0]];
    assert t.history + [es[0]] + [es[1]] == t.history + es;
  }

  // ---------------------------------------------------------------- the shape of a request's effect

  /** One active row is rewritten, keeping its directory, and the entries es are appended. */
  ghost predicate OneRow(t: Table, t': Table, id: int, es: seq<Entry>) {
    && id in t.rows && id in t'.rows && !IsTerminal(t.rows[id].status)
    && t'.rows == t.rows[id := t'.rows[id]] && t'.rows[id].dir == t.rows[id].dir
    && t'.lastId == t.lastId && t'.history == t.history + es
  }

  ghost predicate NewRow(t: Table, t': Table) {
    && t'.lastId == t.lastId + 1 && t'.lastId in t'.rows
    && t'.rows == t.rows[t'.lastId := t'.rows[t'.lastId]] && t'.history == t.history
  }

  /** A named request gets as far as writing. */
  predicate Acts(j: Job, r: Request, c: Choice) {
    match r
    case Pause(_, _) => j.status == Running
    case Resume(_, _) => j.status in {CheckpointCreated, RestoreFailed}
    case Cancel(_, _) =>
      (j.status == Running && c.ok) || j.status in {CheckpointCreationFailed, CheckpointCreated, RestoreFailed}
    case Complete(_, _, _, _) => j.status == Running
    case _ => false
  }

  /** The reason a report of a failure leaves: its own text, or else its exit code. */
  function ExitReason(code: int, msg: string): string {
    if msg != "" then msg else "exited with code " + FormatInt(code)
  }

  /** The row a named request leaves and the entries that lead to it. */
  predicate RowOutcome(j: Job, j': Job, r: Request, id: int, c: Choice, es: seq<Entry>) {
    match r
    case Pause(_, actor) => j' == CheckpointedRow(j, c) && es == CheckpointEntries(id, actor, c)
    case Resume(_, actor) => j' == RestoredRow(j, c) && es == RestoreEntries(id, j.status, actor, c)
    case Cancel(_, actor) => j' == j.(status := Canceled, reason := "") && es == [Entry(id, j.status, Canceled, actor)]
    case Complete(_, code, msg, actor) =>
      && j' == (if code == 0 then j.(status := Completed, reason := "")
                else j.(status := Failed, reason := ExitReason(code, msg)))
      && es == [Entry(id, Running, j'.status, actor)]
    case _ => false
  }

  /** A named request rewrites the row it names, and no other, or leaves the tables alone. */
  lemma NamedEffect(t: Table, r: Request, id: int, c: Choice) returns (es: seq<Entry>)
    requires id in t.rows
    ensures var t' := HandleNamed(t, r, Some(id), c);
            if Acts(t.rows[id], r, c)
            then OneRow(t, t', id, es) && RowOutcome(t.rows[id], t'.rows[id], r, id, c, es)
            else t' == t && es == []
  {
    var from := t.rows[id].status;
    if r.Pause? && from == Running {
      CheckpointJobEffect(t, id, r.actor, c);
      es := CheckpointEntries(id, r.actor, c);
    } else if r.Resume? && Resumable(from) {
      ResumeJobEffect(t, id, r.actor, c);
      es := RestoreEntries(id, from, r.actor, c);
    } else if (r.Cancel? || r.Complete?) && HandleNamed(t, r, Some(id), c) != t {
      es := [Entry(id, from, HandleNamed(t, r, Some(id), c).rows[id].status, r.actor)];
    } else {
      es := [];
    }
  }
}
