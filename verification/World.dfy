/** Runs of whole requests, fan-outs and prunes, together with the disk the checkpoints live on. */
module World {
  import opened Wrappers
  import opened Lifecycle
  import opened JobTable
  import opened Requests
  import opened WholeRequests

  type Disk = map<Path, Image>

  /** saved remembers, for each job, the image its last successful dump or its accepted adopt left; no step reads it. */
  datatype World = World(t: Table, latch: bool, disk: Disk, saved: map<int, Image>, base: Path)

  function Start(base: Path, disk: Disk): World {
    World(EMPTY, false, disk, map[], base)
  }

  // ---------------------------------------------------------------- the disk

  /** p is dir or lies below it; os.RemoveAll("") does nothing. */
  predicate Under(p: Path, dir: Path) {
    dir != [] && dir <= p
  }

  /** How an os.RemoveAll ends: everything gone, or an error after some of it is gone. */
  datatype Removal = Removed | Stuck(gone: set<Path>)

  function Remove(disk: Disk, dir: Path, r: Removal): Disk {
    map p | p in disk && !(Under(p, dir) && (r.Removed? || p in r.gone)) :: disk[p]
  }

  /** A dump attempt leaves something, or nothing, in its directory. */
  function Put(disk: Disk, dir: Path, left: Option<Image>): Disk {
    match left
    case Some(image) => disk[dir := image]
    case None => disk - {dir}
  }

  // ---------------------------------------------------------------- requests

  function Dumped(w: World, id: int, c: Choice): World
    requires id in w.t.rows
  {
    w.(disk := Put(w.disk, w.t.rows[id].dir, c.left),
       saved := if c.ok && c.left.Some? then w.saved[id := c.left.value] else w.saved)
  }

  /** checkpointJob on the tables and the disk. */
  function Checkpointed(w: World, id: int, actor: string, c: Choice): World
    requires id in w.t.rows
  {
    Dumped(w, id, c).(t := CheckpointJob(w.t, id, actor, c))
  }

  ghost function Serve(w: World, r: Request, c: Choice): World {
    var t' := Handle(w.t, w.latch, w.base, r, c);
    match r
    case Pause(name, _) =>
      var id := w.t.Find(name);
      if !w.latch && id.Some? && w.t.rows[id.value].status == Running
      then Dumped(w, id.value, c).(t := t') else w.(t := t')
    case Adopt(dir, _, _) =>
      w.(t := t', saved := if t'.lastId != w.t.lastId && dir in w.disk then w.saved[t'.lastId := w.disk[dir]] else w.saved)
    case _ => w.(t := t')
  }

  /** handleInterruption, its workers one after the other; module Confluence shows that their order and overlap
      make no difference. */
  function CheckpointEach(w: World, ids: seq<int>, out: int -> Choice): World
  {
    if ids == [] then w
    else
      var w' := CheckpointEach(w, ids[..|ids| - 1], out);
      var last := ids[|ids| - 1];
      if last in w'.t.rows then Checkpointed(w', last, DAEMON_ACTOR, out(last)) else w'
  }

  function PruneEach(disk: Disk, jobs: seq<Row>, ends: int -> Removal): Disk {
    if jobs == [] then disk
    else
      var last := jobs[|jobs| - 1];
      Remove(PruneEach(disk, jobs[..|jobs| - 1], ends), last.job.dir, ends(last.id))
  }

  datatype Event =
    | Asked(r: Request, c: Choice)
    | Interrupted(jobs: seq<Row>, out: int -> Choice)
    | PruneOne(name: string, end: Removal)
    | PruneAll(jobs: seq<Row>, ends: int -> Removal)

  /** An event that can happen in w: the outside world's answers are plausible, adopt's check of the directory finds
      it on disk, and the listings are the store's. */
  ghost predicate Possible(w: World, e: Event) {
    match e
    case Asked(r, c) => Sane(r) && Plausible(c) && (r.Adopt? && c.ok ==> r.dir in w.disk)
    case Interrupted(jobs, out) => w.t.Listing(jobs, false) && forall id :: id in w.t.rows ==> Plausible(out(id))
    case PruneOne(_, _) => true
    case PruneAll(jobs, _) => w.t.Listing(jobs, true)
  }

  ghost function Happens(w: World, e: Event): World {
    match e
    case Asked(r, c) => Serve(w, r, c)
    case Interrupted(jobs, out) => CheckpointEach(w.(latch := true), RunningIds(jobs), out)
    case PruneOne(name, end) =>
      var id := w.t.Find(name);
      if id.Some? && IsTerminal(w.t.rows[id.value].status)
      then w.(disk := Remove(w.disk, w.t.rows[id.value].dir, end)) else w
    case PruneAll(jobs, ends) => w.(disk := PruneEach(w.disk, jobs, ends))
  }

  /** The world after a run; an event that cannot happen is passed over. */
  ghost function AfterAll(w: World, es: seq<Event>): World {
    if es == [] then w
    else
      var w' := AfterAll(w, es[..|es| - 1]);
      if Possible(w', es[|es| - 1]) then Happens(w', es[|es| - 1]) else w'
  }
}
