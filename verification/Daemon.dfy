/** The daemon's request handlers as methods on its fields, each proved to do what the whole-request functions of
    modules WholeRequests and World say and to answer accordingly. Answers of the outside world are parameters. */
module Daemon {
  import opened Wrappers
  import opened Numerals
  import opened Lifecycle
  import opened JobTable
  import opened JobStore
  import opened Requests
  import opened WholeRequests
  import opened World
  import opened WorldSafety

  datatype Refusal =
    | MissingPayload
    | MissingJobId
    | AlreadyInterrupted
    | MissingDir
    | CheckFailed
    | DirInUse
    | NoSuchJob
    | WrongStatus(status: Status)
    | NotTerminal
    | InvalidTransition
    | CallFailed
    | TableFull

  datatype Response =
    | Done(id: string)
    | Stale(id: string)               // a completion report for a job already past RUNNING
    | Pruned(count: nat, failures: seq<int>)
    | Refused(why: Refusal)

  lemma CheckpointKeepsDirs(t: Table, id: int, actor: string, c: Choice)
    ensures forall k :: k in t.rows ==>
      var t' := WholeRequests.CheckpointJob(t, id, actor, c); k in t'.rows && t'.rows[k].dir == t.rows[k].dir
  {
  }

  lemma FindFormat(t: Table, id: int)
    requires id in t.rows && IsInt64(id)
    ensures t.Find(FormatInt(id)) == Some(id)
  {
    ParseFormat(id);
  }

  class Service {
    const store: Store
    const base: Path
    var interrupted: bool
    var disk: Disk
    ghost var saved: map<int, Image>

    ghost function View(): World
      reads this, store
    {
      World(store.Contents(), interrupted, disk, saved, base)
    }

    /** Ids fit the integer column. */
    ghost predicate Valid()
      reads this, store
    {
      store.Contents().Valid() && store.lastId <= INT64_MAX
    }

    constructor (base: Path, disk: Disk)
      ensures Valid() && fresh(store) && View() == Start(base, disk)
    {
      store := new Store();
      this.base, this.disk, interrupted, saved := base, disk, false, map[];
    }

    method HandleRegister(payload: Option<Request>, c: Choice) returns (resp: Response)
      requires Valid() && (payload.Some? ==> payload.value.Register?)
      modifies store
      ensures Valid()
      ensures match payload
              case None => View() == old(View()) && resp == Refused(MissingPayload)
              case Some(r) =>
                && View() == (if resp == Refused(TableFull) then old(View()) else Serve(old(View()), r, c))
                && resp == if interrupted then Refused(AlreadyInterrupted)
                           else if !c.ok then Refused(CheckFailed)
                           else if old(store.lastId) == INT64_MAX then Refused(TableFull)
                           else Done(FormatInt(old(store.lastId) + 1))
      ensures resp.Done? ==>
                && store.rows.Keys == old(store.rows.Keys) + {store.lastId} && store.history == old(store.history)
                && AsRegistered(store.rows[store.lastId], payload.value, base, store.lastId)
    {
      if payload.None? {
        return Refused(MissingPayload);
      }
      if interrupted {
        return Refused(AlreadyInterrupted);
      }
      if !c.ok {
        return Refused(CheckFailed);
      }
      var r := payload.value;
      var id := store.Insert(RegisteredJob(r));
      if id.None? {
        return Refused(TableFull);
      }
      if r.dir == [] {
        FindFormat(store.Contents(), store.lastId);
        var _ := store.UpdateCheckpointDir(id.value, DefaultDir(base, store.lastId));
      }
      return Done(id.value);
    }

    method HandleAdopt(payload: Option<Request>, c: Choice) returns (resp: Response)
      requires Valid() && (payload.Some? ==> payload.value.Adopt?)
      modifies store, this`saved
      ensures Valid()
      ensures match payload
              case None => View() == old(View()) && resp == Refused(MissingPayload)
              case Some(r) =>
                && View() == (if resp == Refused(TableFull) then old(View()) else Serve(old(View()), r, c))
                && resp == if interrupted then Refused(AlreadyInterrupted)
                           else if r.dir == [] then Refused(MissingDir)
                           else if !c.ok then Refused(CheckFailed)
                           else if old(Taken(store.Contents(), r.dir)) then Refused(DirInUse)
                           else if old(store.lastId) == INT64_MAX then Refused(TableFull)
                           else Done(FormatInt(old(store.lastId) + 1))
      ensures resp.Done? ==>
                && store.rows.Keys == old(store.rows.Keys) + {store.lastId} && store.history == old(store.history)
                && AsAdopted(store.rows[store.lastId], payload.value)
    {
      if payload.None? {
        return Refused(MissingPayload);
      }
      var r := payload.value;
      if interrupted {
        return Refused(AlreadyInterrupted);
      }
      if r.dir == [] {
        return Refused(MissingDir);
      }
      if !c.ok {
        return Refused(CheckFailed);
      }
      var taken := InUse(r.dir);
      if taken {
        return Refused(DirInUse);
      }
      var id := store.Insert(AdoptedJob(r));
      if id.None? {
        return Refused(TableFull);
      }
      saved := if r.dir in disk then saved[store.lastId := disk[r.dir]] else saved;
      return Done(id.value);
    }

    /** The scan over the active jobs. */
    method InUse(dir: Path) returns (taken: bool)
      ensures taken == store.Contents().Occupied(dir) == Taken(store.Contents(), dir)
    {
      var active := store.List();
      for i := 0 to |active|
        invariant forall k :: 0 <= k < i ==> active[k].job.dir != dir
      {
        if active[i].job.dir == dir {
          assert store.Contents().IsRow(active[i], false);
          return true;
        }
      }
      ghost var t := store.Contents();
      forall id | id in t.rows && !IsTerminal(t.rows[id].status)
        ensures t.rows[id].dir != dir
      {
        assert Row(id, t.rows[id]) in active;
      }
      return false;
    }

    /** checkpointJob. */
    method CheckpointJob(j: Row, actor: string, c: Choice) returns (ok: bool)
      requires Valid() && j.id in store.rows && store.rows[j.id].dir == j.job.dir
      modifies store, this`disk, this`saved
      ensures Valid() && ok == c.ok && View() == Checkpointed(old(View()), j.id, actor, c)
      ensures disk == Filled(old(disk), j.job.dir, c.left)
      ensures old(store.rows[j.id].status) == Running ==>
                && store.rows == old(store.rows)[j.id := CheckpointedRow(old(store.rows[j.id]), c)]
                && store.history == old(store.history) + CheckpointEntries(j.id, actor, c)
    {
      FindFormat(store.Contents(), j.id);
      var _ := store.UpdateStatus(FormatInt(j.id), CheckpointInProgress, "", actor);
      disk := Put(disk, j.job.dir, c.left);
      saved := if c.ok && c.left.Some? then saved[j.id := c.left.value] else saved;
      if !c.ok {
        var _ := store.UpdateStatus(FormatInt(j.id), CheckpointCreationFailed, c.err, actor);
        return false;
      }
      var _ := store.UpdateStatus(FormatInt(j.id), CheckpointCreated, "", actor);
      return true;
    }

    method HandlePause(name: string, actor: string, c: Choice) returns (resp: Response)
      requires Valid()
      modifies store, this`disk, this`saved
      ensures Valid() && View() == Serve(old(View()), Pause(name, actor), c)
      ensures resp ==
              if name == "" then Refused(MissingJobId)
              else if interrupted then Refused(AlreadyInterrupted)
              else match old(store.Contents().Find(name))
                   case None => Refused(NoSuchJob)
                   case Some(id) =>
                     if old(store.rows)[id].status != Running then Refused(WrongStatus(old(store.rows)[id].status))
                     else if c.ok then Done(name) else Refused(CallFailed)
    {
      if name == "" {
        return Refused(MissingJobId);
      }
      if interrupted {
        return Refused(AlreadyInterrupted);
      }
      var j := store.Get(name);
      if j.None? {
        return Refused(NoSuchJob);
      }
      if j.value.job.status != Running {
        return Refused(WrongStatus(j.value.job.status));
      }
      var ok := CheckpointJob(j.value, actor, c);
      return if ok then Done(name) else Refused(CallFailed);
    }

    /** resumeJob. */
    method ResumeJob(j: Row, actor: string, c: Choice) returns (ok: bool)
      requires Valid() && j.id in store.rows
      modifies store
      ensures Valid() && ok == c.ok
      ensures View() == old(View()).(t := WholeRequests.ResumeJob(old(store.Contents()), j.id, actor, c))
      ensures Resumable(old(store.rows[j.id].status)) ==>
                && store.rows == old(store.rows)[j.id := RestoredRow(old(store.rows[j.id]), c)]
                && store.history == old(store.history) + RestoreEntries(j.id, old(store.rows[j.id].status), actor, c)
    {
      FindFormat(store.Contents(), j.id);
      var _ := store.UpdateStatus(FormatInt(j.id), RestorePending, "", actor);
      if !c.ok {
        var _ := store.UpdateStatus(FormatInt(j.id), RestoreFailed, c.err, actor);
        return false;
      }
      var _ := store.UpdatePID(FormatInt(j.id), c.pid, c.pid, actor);
      return true;
    }

    method HandleResume(name: string, actor: string, c: Choice) returns (resp: Response)
      requires Valid()
      modifies store
      ensures Valid() && View() == Serve(old(View()), Resume(name, actor), c)
      ensures resp ==
              if name == "" then Refused(MissingJobId)
              else match old(store.Contents().Find(name))
                   case None => Refused(NoSuchJob)
                   case Some(id) =>
                     if !Resumable(old(store.rows)[id].status) then Refused(WrongStatus(old(store.rows)[id].status))
                     else if c.ok then Done(name) else Refused(CallFailed)
    {
      if name == "" {
        return Refused(MissingJobId);
      }
      var j := store.Get(name);
      if j.None? {
        return Refused(NoSuchJob);
      }
      if j.value.job.status != CheckpointCreated && j.value.job.status != RestoreFailed {
        return Refused(WrongStatus(j.value.job.status));
      }
      var ok := ResumeJob(j.value, actor, c);
      return if ok then Done(name) else Refused(CallFailed);
    }

    /** signalled is the process group that gets a SIGTERM. */
    method HandleCancel(name: string, actor: string, c: Choice) returns (resp: Response, signalled: Option<int>)
      requires Valid()
      modifies store
      ensures Valid() && View() == Serve(old(View()), Cancel(name, actor), c)
      ensures match old(store.Contents().Find(name))
              case None => signalled == None && resp == Refused(if name == "" then MissingJobId else NoSuchJob)
              case Some(id) =>
                var j := old(store.rows)[id];
                && signalled == (if j.status == Running then Some(j.pgid) else None)
                && resp == if j.status == Running && !c.ok then Refused(CallFailed)
                           else if ValidTransition(j.status, Canceled) then Done(name)
                           else Refused(InvalidTransition)
    {
      signalled := None;
      if name == "" {
        return Refused(MissingJobId), None;
      }
      var j := store.Get(name);
      if j.None? {
        return Refused(NoSuchJob), None;
      }
      if j.value.job.status == Running {
        signalled := Some(j.value.job.pgid);
        if !c.ok {
          return Refused(CallFailed), signalled;
        }
      }
      var ok := store.UpdateStatus(name, Canceled, "", actor);
      return if ok then Done(name) else Refused(InvalidTransition), signalled;
    }

    method HandleComplete(name: string, code: int, msg: string, actor: string) returns (resp: Response)
      requires Valid()
      modifies store
      ensures Valid()
      ensures forall c :: View() == Serve(old(View()), Complete(name, code, msg, actor), c)
      ensures resp ==
              if name == "" then Refused(MissingJobId)
              else match old(store.Contents().Find(name))
                   case None => Refused(NoSuchJob)
                   case Some(id) => if old(store.rows)[id].status != Running then Stale(name) else Done(name)
    {
      if name == "" {
        return Refused(MissingJobId);
      }
      var j := store.Get(name);
      if j.None? {
        return Refused(NoSuchJob);
      }
      if j.value.job.status != Running {
        return Stale(name);
      }
      if code == 0 {
        var ok := store.UpdateStatus(name, Completed, "", actor);
        return if ok then Done(name) else Refused(InvalidTransition);
      }
      var reason := msg;
      if reason == "" {
        reason := "exited with code " + FormatInt(code);
      }
      var ok := store.UpdateStatus(name, Failed, reason, actor);
      return if ok then Done(name) else Refused(InvalidTransition);
    }

    /** The loop over the terminal jobs. */
    method PruneTerminal(ends: int -> Removal) returns (resp: Response, ghost jobs: seq<Row>)
      requires Valid()
      modifies this`disk
      ensures Valid() && store.Contents().Listing(jobs, true) && View() == Happens(old(View()), PruneAll(jobs, ends))
      ensures resp.Pruned? && resp.count + |resp.failures| == |store.Contents().Ids(true)|
      ensures forall id :: id in resp.failures <==> id in store.Contents().Ids(true) && ends(id).Stuck?
    {
      var list := store.ListTerminal();
      var failures: seq<int>, pruned: nat := [], 0;
      for i := 0 to |list|
        invariant disk == PruneEach(old(disk), list[..i], ends)
        invariant pruned + |failures| == i
        invariant forall id :: id in failures ==> id in store.Contents().Ids(true) && ends(id).Stuck?
        invariant forall k :: 0 <= k < i && ends(list[k].id).Stuck? ==> list[k].id in failures
      {
        assert list[..i + 1][..i] == list[..i];
        assert store.Contents().IsRow(list[i], true);
        disk := Remove(disk, list[i].job.dir, ends(list[i].id));
        if ends(list[i].id).Stuck? {
          failures := failures + [list[i].id];
          continue;
        }
        pruned := pruned + 1;
      }
      assert list[..|list|] == list;
      ListingIds(store.Contents(), list, true);
      forall id | id in store.Contents().Ids(true) && ends(id).Stuck?
        ensures id in failures
      {
        assert Row(id, store.rows[id]) in list;
      }
      return Pruned(pruned, failures), list;
    }

    method HandlePrune(name: string, end: Removal, ends: int -> Removal) returns (resp: Response, ghost jobs: seq<Row>)
      requires Valid()
      modifies this`disk
      ensures Valid()
      ensures name != "" ==> View() == Happens(old(View()), PruneOne(name, end))
      ensures name != "" ==>
                resp == match store.Contents().Find(name)
                        case None => Refused(NoSuchJob)
                        case Some(id) =>
                          if !IsTerminal(store.rows[id].status) then Refused(NotTerminal)
                          else if end.Removed? then Done(name) else Refused(CallFailed)
      ensures name == "" ==>
                && store.Contents().Listing(jobs, true) && View() == Happens(old(View()), PruneAll(jobs, ends))
                && resp.Pruned?
                && resp.count + |resp.failures| == |store.Contents().Ids(true)|
                && (forall id :: id in resp.failures <==> id in store.Contents().Ids(true) && ends(id).Stuck?)
    {
      if name == "" {
        resp, jobs := PruneTerminal(ends);
        return;
      }
      jobs := [];
      var j := store.Get(name);
      if j.None? {
        return Refused(NoSuchJob), [];
      }
      if !IsTerminal(j.value.job.status) {
        return Refused(NotTerminal), [];
      }
      disk := Remove(disk, j.value.job.dir, end);
      return if end.Removed? then Done(name) else Refused(CallFailed), [];
    }

    /** The listed jobs that are RUNNING. */
    method SelectRunnable(list: seq<Row>) returns (runnable: seq<Row>)
      ensures RowIds(runnable) == RunningIds(list)
      ensures forall j :: j in runnable ==> j in list
    {
      runnable := [];
      for i := 0 to |list|
        invariant RowIds(runnable) == RunningIds(list[..i])
        invariant forall j :: j in runnable ==> j in list
      {
        NextRunning(list, i);
        if list[i].job.status == Running {
          AppendRowId(runnable, list[i]);
          runnable := runnable + [list[i]];
        }
      }
      assert list[..|list|] == list;
    }

    /** The workers of a fan-out, run to the end one by one. */
    method CheckpointRunnable(runnable: seq<Row>, out: int -> Choice)
      requires Valid()
      requires forall j :: j in runnable ==> j.id in store.rows && store.rows[j.id].dir == j.job.dir
      modifies store, this`disk, this`saved
      ensures Valid() && View() == CheckpointEach(old(View()), RowIds(runnable), out)
    {
      for i := 0 to |runnable|
        invariant Valid() && View() == CheckpointEach(old(View()), RowIds(runnable[..i]), out)
        invariant forall j :: j in runnable ==> j.id in store.rows && store.rows[j.id].dir == j.job.dir
      {
        var next := runnable[..i + 1];
        assert next[..i] == runnable[..i];
        LastRowId(next);
        CheckpointKeepsDirs(store.Contents(), runnable[i].id, DAEMON_ACTOR, out(runnable[i].id));
        var _ := CheckpointJob(runnable[i], DAEMON_ACTOR, out(runnable[i].id));
      }
      assert runnable[..|runnable|] == runnable;
    }

    /** handleInterruption; module Confluence is about its workers running at the same time. */
    method HandleInterruption(out: int -> Choice) returns (ghost jobs: seq<Row>)
      requires Valid()
      modifies store, this
      ensures Valid() && interrupted
      ensures old(store.Contents()).Listing(jobs, false)
      ensures View() == Happens(old(View()), Interrupted(jobs, out))
    {
      interrupted := true;
      var list := store.List();
      var runnable := SelectRunnable(list);
      forall j | j in runnable
        ensures j.id in store.rows && store.rows[j.id].dir == j.job.dir
      {
        assert store.Contents().IsRow(j, false);
      }
      CheckpointRunnable(runnable, out);
      return list;
    }
  }

  function RowIds(jobs: seq<Row>): (ids: seq<int>)
    ensures |ids| == |jobs|
  {
    if jobs == [] then [] else RowIds(jobs[..|jobs| - 1]) + [jobs[|jobs| - 1].id]
  }

  lemma AppendRowId(jobs: seq<Row>, j: Row)
    ensures RowIds(jobs + [j]) == RowIds(jobs) + [j.id]
  {
    assert (jobs + [j])[..|jobs|] == jobs;
  }

  lemma NextRunning(list: seq<Row>, i: nat)
    requires i < |list|
    ensures RunningIds(list[..i + 1]) ==
            RunningIds(list[..i]) + if list[i].job.status == Running then [list[i].id] else []
  {
    assert list[..i + 1][..i] == list[..i];
  }

  lemma LastRowId(jobs: seq<Row>)
    requires jobs != []
    ensures RowIds(jobs)[..|jobs| - 1] == RowIds(jobs[..|jobs| - 1]) && RowIds(jobs)[|jobs| - 1] == jobs[|jobs| - 1].id
  {
  }
}
