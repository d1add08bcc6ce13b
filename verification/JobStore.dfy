/** The store: the object that owns the two tables. One method call is one database round trip or transaction;
    UpdateStatus and UpdatePID appear here in their undisturbed form, where nothing runs between their read and
    their transaction. Module Machine takes the two halves apart. */
module JobStore {
  import opened Wrappers
  import opened Numerals
  import opened Lifecycle
  import opened JobTable

  class Store {
    var rows: map<int, Job>
    var history: seq<Entry>
    var lastId: nat

    function Contents(): Table
      reads this
    {
      Table(rows, history, lastId)
    }

    constructor ()
      ensures Contents() == EMPTY
    {
      rows, history, lastId := map[], [], 0;
    }

    /** The id column is an integer of 64 bits; when its last value is taken the insert fails. */
    method Insert(j: Job) returns (id: Option<string>)
      modifies this
      ensures if old(lastId) < INT64_MAX
              then Contents() == old(Contents()).Insert(j) && id == Some(FormatInt(lastId))
              else Contents() == old(Contents()) && id == None
    {
      if lastId >= INT64_MAX {
        return None;
      }
      lastId := lastId + 1;
      rows := rows[lastId := j];
      id := Some(FormatInt(lastId));
    }

    method Get(id: string) returns (r: Option<Row>)
      ensures r == match Contents().Find(id) case None => None case Some(n) => Some(Row(n, rows[n]))
    {
      var n := ParseInt(id);
      if n.None? || n.value !in rows {
        return None;
      }
      return Some(Row(n.value, rows[n.value]));
    }

    method UpdateStatus(id: string, to: Status, reason: string, actor: string) returns (ok: bool)
      modifies this
      ensures match old(Contents()).Find(id)
              case None => !ok && Contents() == old(Contents())
              case Some(n) =>
                && ok == old(Contents()).Accepts(n, SetStatus(to, reason))
                && Contents() == old(Contents()).Updated(n, SetStatus(to, reason), actor)
    {
      var existing := Get(id);
      if existing.None? || !ValidTransition(existing.value.job.status, to) {
        return false;
      }
      var n := existing.value.id;
      rows := rows[n := rows[n].(status := to, reason := reason)];
      RecordHistory(n, existing.value.job.status, to, actor);
      return true;
    }

    method UpdatePID(id: string, pid: int, pgid: int, actor: string) returns (ok: bool)
      modifies this
      ensures match old(Contents()).Find(id)
              case None => !ok && Contents() == old(Contents())
              case Some(n) =>
                && ok == old(Contents()).Accepts(n, SetPid(pid, pgid))
                && Contents() == old(Contents()).Updated(n, SetPid(pid, pgid), actor)
    {
      var existing := Get(id);
      if existing.None? || !ValidTransition(existing.value.job.status, Running) {
        return false;
      }
      var n := existing.value.id;
      rows := rows[n := rows[n].(pid := pid, pgid := pgid, status := Running)];
      RecordHistory(n, existing.value.job.status, Running, actor);
      return true;
    }

    method RecordHistory(id: int, from: Status, to: Status, actor: string)
      modifies this`history
      ensures history == old(history) + [Entry(id, from, to, actor)]
    {
      history := history + [Entry(id, from, to, actor)];
    }

    method UpdateCheckpointDir(id: string, dir: Path) returns (ok: bool)
      modifies this`rows
      ensures match old(Contents()).Find(id)
              case None => !ok && Contents() == old(Contents())
              case Some(n) => ok && Contents() == old(Contents()).WithDir(n, dir)
    {
      var n := ParseInt(id);
      if n.None? || n.value !in rows {
        return false;
      }
      rows := rows[n.value := rows[n.value].(dir := dir)];
      return true;
    }

    /** A job's transitions, oldest first. An id that names no row has none. */
    method History(id: string) returns (r: Option<seq<Entry>>)
      ensures r == match ParseInt(id) case None => None case Some(n) => Some(Of(history, n))
    {
      var n := ParseInt(id);
      if n.None? {
        return None;
      }
      var entries := [];
      for i := 0 to |history|
        invariant entries == Of(history[..i], n.value)
      {
        assert history[..i + 1] == history[..i] + [history[i]];
        OfAppend(history[..i], history[i], n.value);
        if history[i].id == n.value {
          entries := entries + [history[i]];
        }
      }
      assert history[..|history|] == history;
      return Some(entries);
    }

    /** The query behind List and ListTerminal. */
    method Select(terminal: bool) returns (jobs: seq<Row>)
      ensures Contents().Listing(jobs, terminal)
    {
      var all := rows;
      var ids := OrderByRegistration(all, Contents().Ids(terminal));
      jobs := seq(|ids|, i requires 0 <= i < |ids| && ids[i] in all => Row(ids[i], all[ids[i]]));
      forall id | id in rows && IsTerminal(rows[id].status) == terminal
        ensures Row(id, rows[id]) in jobs
      {
        assert id in ids;
        var i :| 0 <= i < |ids| && ids[i] == id;
        assert jobs[i] == Row(id, rows[id]);
      }
    }

    /** A listing holds the rows in, or out of, the three statuses of the query, and no others. */
    lemma Exactly(jobs: seq<Row>, terminal: bool)
      requires Contents().Listing(jobs, terminal)
      ensures forall r :: r in jobs <==>
                r.id in rows && r.job == rows[r.id] && (r.job.status in {Failed, Canceled, Completed}) == terminal
    {
      forall r | r in jobs
        ensures r.id in rows && r.job == rows[r.id] && (r.job.status in {Failed, Canceled, Completed}) == terminal
      {
        assert Contents().IsRow(r, terminal);
        TerminalIff(r.job.status);
      }
      forall id | id in rows && (rows[id].status in {Failed, Canceled, Completed}) == terminal
        ensures Row(id, rows[id]) in jobs
      {
        TerminalIff(rows[id].status);
      }
      forall r: Row | r.id in rows && r.job == rows[r.id] && (r.job.status in {Failed, Canceled, Completed}) == terminal
        ensures r in jobs
      {
        assert r == Row(r.id, rows[r.id]);
      }
    }

    method List() returns (jobs: seq<Row>)
      ensures Contents().Listing(jobs, false)
      ensures forall r :: r in jobs <==>
                r.id in rows && r.job == rows[r.id] && r.job.status !in {Failed, Canceled, Completed}
    {
      jobs := Select(false);
      Exactly(jobs, false);
    }

    method ListTerminal() returns (jobs: seq<Row>)
      ensures Contents().Listing(jobs, true)
      ensures forall r :: r in jobs <==>
                r.id in rows && r.job == rows[r.id] && r.job.status in {Failed, Canceled, Completed}
    {
      jobs := Select(true);
      Exactly(jobs, true);
    }
  }

  /** ORDER BY registered_at ASC; rows registered at the same instant come in any order. */
  method OrderByRegistration(rows: map<int, Job>, ids: set<int>) returns (order: seq<int>)
    requires ids <= rows.Keys
    ensures forall id :: id in order <==> id in ids
    ensures forall i :: 0 <= i < |order| ==> order[i] in ids && order[i] in rows
    ensures forall i, k :: 0 <= i < k < |order| ==> order[i] != order[k]
    ensures forall i, k :: 0 <= i < k < |order| ==> rows[order[i]].registeredAt <= rows[order[k]].registeredAt
  {
    order := [];
    var left := ids;
    while left != {}
      invariant left <= ids
      invariant forall id :: id in order <==> id in ids && id !in left
      invariant forall i :: 0 <= i < |order| ==> order[i] in ids && order[i] in rows
      invariant forall i, k :: 0 <= i < k < |order| ==> order[i] != order[k]
      invariant forall i, k :: 0 <= i < k < |order| ==> rows[order[i]].registeredAt <= rows[order[k]].registeredAt
      invariant forall i, id :: 0 <= i < |order| && id in left ==> rows[order[i]].registeredAt <= rows[id].registeredAt
    {
      ghost var _ := Earliest(rows, left);
      var id :| id in left && forall o :: o in left ==> rows[id].registeredAt <= rows[o].registeredAt;
      order := order + [id];
      left := left - {id};
    }
  }

  /** A non-empty set of rows has an earliest one. */
  lemma {:induction false} Earliest(rows: map<int, Job>, ids: set<int>) returns (first: int)
    requires ids <= rows.Keys && |ids| != 0
    ensures first in ids && forall o :: o in ids ==> rows[first].registeredAt <= rows[o].registeredAt
    decreases |ids|
  {
    Inhabited(ids);
    first :| first in ids;
    var rest := ids - {first};
    if |rest| != 0 {
      var other := Earliest(rows, rest);
      assert ids == rest + {first};
      if rows[other].registeredAt < rows[first].registeredAt {
        first := other;
      }
    }
  }

  lemma Inhabited(ids: set<int>)
    ensures ids == {} || exists id :: id in ids
  {
    if forall id :: id !in ids {
      assert ids == {};
    }
  }
}
