/** The jobs and job_history tables as values, and the store operations on them. */
module JobTable {
  import opened Wrappers
  import opened Numerals
  import opened Lifecycle

  /** A directory as its components, that is, its path split at '/'; [] is the empty path. */
  type Path = seq<string>

  /** The columns that are stored as given and never updated. */
  datatype Meta = Meta(
    command: seq<string>, workDir: string, hookCheckpoint: string, hookResume: string, owner: string, tag: string)

  datatype Job = Job(
    pid: int, pgid: int, dir: Path, status: Status, reason: string, registeredAt: int, meta: Meta)

  datatype Row = Row(id: int, job: Job)

  /** What one update transaction writes: UpdateStatus or UpdatePID. */
  datatype Update = SetStatus(status: Status, reason: string) | SetPid(pid: int, pgid: int)
  {
    function To(): Status {
      match this
      case SetStatus(to, _) => to
      case SetPid(_, _) => Running
    }

    /** UpdatePID leaves the failure reason as it is. */
    function Apply(j: Job): Job {
      match this
      case SetStatus(to, reason) => j.(status := to, reason := reason)
      case SetPid(pid, pgid) => j.(pid := pid, pgid := pgid, status := Running)
    }
  }

  datatype Table = Table(rows: map<int, Job>, history: seq<Entry>, lastId: nat)
  {
    /** Ids are 1, 2, 3, ... and are never given out twice. */
    ghost predicate Valid() {
      && (forall id :: id in rows <==> 1 <= id <= lastId)
      && forall i :: 0 <= i < |history| ==> history[i].id in rows
    }

    function Insert(j: Job): Table {
      this.(rows := rows[lastId + 1 := j], lastId := lastId + 1)
    }

    /** The row an id string names, if it parses and there is such a row. */
    function Find(name: string): (r: Option<int>)
      ensures r.Some? ==> r.value in rows
    {
      match ParseInt(name)
      case None => None
      case Some(id) => if id in rows then Some(id) else None
    }

    predicate Accepts(id: int, u: Update) {
      id in rows && ValidTransition(rows[id].status, u.To())
    }

    /** The transaction: it writes the row and one history entry, without looking at the row's status again. */
    function Commit(id: int, from: Status, u: Update, actor: string): Table {
      if id in rows then
        this.(rows := rows[id := u.Apply(rows[id])], history := history + [Entry(id, from, u.To(), actor)])
      else this
    }

    /** A whole update: read, validate, commit. A refused update changes nothing. */
    function Updated(id: int, u: Update, actor: string): Table {
      if Accepts(id, u) then Commit(id, rows[id].status, u, actor) else this
    }

    function WithDir(id: int, dir: Path): Table {
      if id in rows then this.(rows := rows[id := rows[id].(dir := dir)]) else this
    }

    /** The ids of the terminal, or of the active, rows. */
    function Ids(terminal: bool): set<int> {
      set id | id in rows && IsTerminal(rows[id].status) == terminal
    }

    /** jobs lists exactly the terminal (or exactly the active) rows, once each, by registration time. */
    ghost predicate Listing(jobs: seq<Row>, terminal: bool) {
      && (forall i :: 0 <= i < |jobs| ==> IsRow(jobs[i], terminal))
      && (forall id :: id in rows && IsTerminal(rows[id].status) == terminal ==> Row(id, rows[id]) in jobs)
      && (forall i, k :: 0 <= i < k < |jobs| ==> jobs[i].id != jobs[k].id)
      && (forall i, k :: 0 <= i < k < |jobs| ==> jobs[i].job.registeredAt <= jobs[k].job.registeredAt)
    }

    predicate IsRow(r: Row, terminal: bool) {
      r.id in rows && r.job == rows[r.id] && IsTerminal(r.job.status) == terminal
    }

    /** Some active job occupies the directory. */
    ghost predicate Occupied(dir: Path) {
      exists id :: id in rows && !IsTerminal(rows[id].status) && rows[id].dir == dir
    }
  }

  const EMPTY := Table(map[], [], 0)

  /** List and ListTerminal split the table: every row is in exactly one of the two answers. */
  lemma ListingsPartition(t: Table, active: seq<Row>, terminal: seq<Row>, id: int)
    requires t.Listing(active, false) && t.Listing(terminal, true)
    requires id in t.rows
    ensures (Row(id, t.rows[id]) in active) != (Row(id, t.rows[id]) in terminal)
    ensures forall r :: r in active || r in terminal ==> r.id in t.rows && r.job == t.rows[r.id]
  {
  }

  /** A listing has as many rows as the table has of its kind. */
  lemma ListingIds(t: Table, jobs: seq<Row>, terminal: bool)
    requires t.Listing(jobs, terminal)
    ensures |jobs| == |t.Ids(terminal)|
  {
    var ids := t.Ids(terminal);
    DistinctCount(jobs);
    forall id | id in ids
      ensures exists i :: 0 <= i < |jobs| && jobs[i].id == id
    {
      assert Row(id, t.rows[id]) in jobs;
    }
    assert ids == set i | 0 <= i < |jobs| :: jobs[i].id;
  }

  lemma {:induction false} DistinctCount(jobs: seq<Row>)
    requires forall i, k :: 0 <= i < k < |jobs| ==> jobs[i].id != jobs[k].id
    ensures |set i | 0 <= i < |jobs| :: jobs[i].id| == |jobs|
  {
    if jobs == [] {
    } else {
      var n := |jobs| - 1;
      DistinctCount(jobs[..n]);
      var front := set i | 0 <= i < n :: jobs[i].id;
      assert front == set i | 0 <= i < |jobs[..n]| :: jobs[..n][i].id;
      assert (set i | 0 <= i < |jobs| :: jobs[i].id) == front + {jobs[n].id};
    }
  }

  /** The RUNNING jobs of a listing, in order. */
  function RunningIds(jobs: seq<Row>): seq<int> {
    if jobs == [] then []
    else RunningIds(jobs[..|jobs| - 1]) +
         (if jobs[|jobs| - 1].job.status == Running then [jobs[|jobs| - 1].id] else [])
  }

  ghost predicate AllRunning(t: Table, ids: seq<int>) {
    && (forall i, k :: 0 <= i < k < |ids| ==> ids[i] != ids[k])
    && (forall i :: 0 <= i < |ids| ==> ids[i] in t.rows && t.rows[ids[i]].status == Running)
  }

  lemma {:induction false} RunningIdsSound(jobs: seq<Row>, id: int)
    ensures id in RunningIds(jobs) <==> exists r :: r in jobs && r.id == id && r.job.status == Running
  {
    if jobs == [] {
    } else {
      var front, last := jobs[..|jobs| - 1], jobs[|jobs| - 1];
      RunningIdsSound(front, id);
      assert forall r :: r in jobs <==> r in front || r == last;
    }
  }

  lemma {:induction false} RunningIdsDistinct(jobs: seq<Row>)
    requires forall i, k :: 0 <= i < k < |jobs| ==> jobs[i].id != jobs[k].id
    ensures var plan := RunningIds(jobs); forall i, k :: 0 <= i < k < |plan| ==> plan[i] != plan[k]
  {
    if jobs == [] {
    } else {
      var front, last := jobs[..|jobs| - 1], jobs[|jobs| - 1];
      RunningIdsDistinct(front);
      RunningIdsSound(front, last.id);
      assert forall r :: r in front ==> r.id != last.id;
    }
  }

  /** They are exactly the RUNNING jobs of the table, each once. */
  lemma RunningIdsAll(t: Table, jobs: seq<Row>)
    requires t.Listing(jobs, false)
    ensures AllRunning(t, RunningIds(jobs))
    ensures forall id :: id in t.rows && t.rows[id].status == Running ==> id in RunningIds(jobs)
  {
    RunningIdsDistinct(jobs);
    var plan := RunningIds(jobs);
    forall i | 0 <= i < |plan|
      ensures plan[i] in t.rows && t.rows[plan[i]].status == Running
    {
      RunningIdsSound(jobs, plan[i]);
    }
    forall id | id in t.rows && t.rows[id].status == Running
      ensures id in plan
    {
      assert Row(id, t.rows[id]) in jobs;
      RunningIdsSound(jobs, id);
    }
  }
}
