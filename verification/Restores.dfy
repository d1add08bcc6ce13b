/** What becomes of the processes that restores start. resumeJob restores even when its mark is refused, so two resumes
    of one job can start two processes; this module accounts for every one of them. */
module Restores {
  import opened Lifecycle
  import opened JobTable
  import opened Requests
  import opened Machine
  import opened MachineSafety
  import opened Freshness
  import opened Marks

  datatype Fate = Started | Recorded | Refused

  /** The action starts a process from job id's checkpoint, records one in its row, or has the store refuse one. */
  predicate Meets(s: State, a: Action, id: int, fate: Fate) {
    && a.Run? && a.p in s.threads && Plausible(a.c)
    && var pc := s.threads[a.p].pc;
       match fate
       case Started => pc.Restore? && pc.id == id && a.c.ok
       case Recorded => pc.Commit? && pc.id == id && pc.u.SetPid?
       case Refused => pc.Read? && pc.id == id && pc.u.SetPid? && !s.t.Accepts(id, pc.u)
  }

  /** How often that happens along a schedule. */
  ghost function Times(s: State, acts: seq<Action>, id: int, fate: Fate): nat {
    if acts == [] then 0
    else
      var front := acts[..|acts| - 1];
      Times(s, front, id, fate) + if Meets(Exec(s, front), acts[|acts| - 1], id, fate) then 1 else 0
  }

  lemma {:induction false} TimesGrow(s: State, acts: seq<Action>, more: seq<Action>, id: int, fate: Fate)
    ensures Times(s, acts, id, fate) <= Times(s, acts + more, id, fate)
    decreases |more|
  {
    if more == [] {
      assert acts + more == acts;
    } else {
      var n := |more| - 1;
      assert (acts + more)[..|acts| + n] == acts + more[..n];
      TimesGrow(s, acts, more[..n], id, fate);
    }
  }

  /** The thread has started a process for job id and has yet to hear whether the store takes its pid. */
  predicate Carries(th: Thread, id: int) {
    (th.pc.Read? || th.pc.Commit?) && th.pc.id == id && th.pc.u.SetPid?
  }

  ghost function Carriers(s: State, id: int): set<nat> {
    set p | p in s.threads && Carries(s.threads[p], id)
  }

  lemma CarrierStep(s: State, th: Thread, c: Choice, id: int)
    ensures Carries(th.(pc := NextPc(s, th, c)), id) <==>
            if Carries(th, id) then th.pc.Read? && s.t.Accepts(id, th.pc.u)
            else th.pc.Restore? && th.pc.id == id && c.ok
  {
  }

  lemma CarriersRun(s: State, p: nat, c: Choice, id: int)
    requires p in s.threads
    ensures var th' := s.threads[p].(pc := NextPc(s, s.threads[p], c));
            |Carriers(Advance(s, p, c), id)| + (if Carries(s.threads[p], id) then 1 else 0) ==
            |Carriers(s, id)| + (if Carries(th', id) then 1 else 0)
  {
    SizesApart(Carriers(s, id), Carriers(Advance(s, p, c), id), p);
  }

  lemma SizesApart(a: set<nat>, b: set<nat>, p: nat)
    requires forall q :: q != p ==> (q in a <==> q in b)
    ensures |b| + One(p in a) == |a| + One(p in b)
  {
    SizeWithout(a, p);
    SizeWithout(b, p);
    assert a - {p} == b - {p};
  }

  lemma SizeWithout(a: set<nat>, p: nat)
    ensures |a| == |a - {p}| + One(p in a)
  {
    if p !in a {
      assert a - {p} == a;
    }
  }

  /** Only steps of handlers and workers change who carries a pid. */
  lemma CarriersQuiet(s: State, a: Action, id: int)
    requires !(a.Run? && a.p in s.threads && Plausible(a.c))
    ensures Carriers(Step(s, a), id) == Carriers(s, id)
  {
  }

  function One(b: bool): nat {
    if b then 1 else 0
  }

  lemma AccountStep(s: State, a: Action, id: int)
    ensures |Carriers(Step(s, a), id)| + One(Meets(s, a, id, Recorded)) + One(Meets(s, a, id, Refused)) ==
            |Carriers(s, id)| + One(Meets(s, a, id, Started))
  {
    if a.Run? && a.p in s.threads && Plausible(a.c) {
      CarrierStep(s, s.threads[a.p], a.c, id);
      CarriersRun(s, a.p, a.c, id);
    } else {
      CarriersQuiet(s, a, id);
    }
  }

  /** For every schedule: the processes started from a job's checkpoints are those recorded in its row, those the store
      refused, and those on their way. */
  lemma {:induction false} RestoreAccount(base: Path, max: nat, acts: seq<Action>, id: int)
    ensures var s0 := Init(base, max);
            Times(s0, acts, id, Started) ==
            Times(s0, acts, id, Recorded) + Times(s0, acts, id, Refused) + |Carriers(Exec(s0, acts), id)|
  {
    if acts == [] {
    } else {
      var front, a := acts[..|acts| - 1], acts[|acts| - 1];
      RestoreAccount(base, max, front, id);
      AccountStep(Exec(Init(base, max), front), a, id);
    }
  }

  lemma PidsRun(s: State, p: nat, pc: Pc, id: int)
    requires id in s.past.pids && id <= s.t.lastId
    ensures var pids := NextPast(s, p, pc).pids;
            id in pids && |pids[id]| == |s.past.pids[id]| + One(pc.Commit? && pc.id == id && pc.u.SetPid?)
  {
  }

  lemma PidsStep(s: State, a: Action, id: int)
    requires Safe(s) && id in s.t.rows
    ensures id in Step(s, a).past.pids
    ensures |Step(s, a).past.pids[id]| == |s.past.pids[id]| + One(Meets(s, a, id, Recorded))
  {
    if a.Run? && a.p in s.threads && Plausible(a.c) {
      PidsRun(s, a.p, s.threads[a.p].pc, id);
    }
  }

  lemma PidsAppear(s: State, a: Action, id: int)
    requires Safe(s) && id !in s.t.rows
    ensures !Meets(s, a, id, Recorded)
    ensures id in Step(s, a).t.rows ==> id in Step(s, a).past.pids && Step(s, a).past.pids[id] == []
  {
    if a.Run? && a.p in s.threads && Plausible(a.c) {
      assert PcOk(s.t, s.threads[a.p].pc);
    }
  }

  /** The recorded ones are those the row and its history know of. */
  lemma {:induction false} RecordedOnes(base: Path, max: nat, acts: seq<Action>, id: int)
    ensures var s := Exec(Init(base, max), acts);
            && Safe(s)
            && Times(Init(base, max), acts, id, Recorded) ==
               if id in s.t.rows then RestoreCount(Of(s.t.history, id)) else 0
  {
    SafeExec(Init(base, max), acts);
    RecordedPids(base, max, acts, id);
    var s := Exec(Init(base, max), acts);
    if id in s.t.rows {
      assert RowOk(s.t.rows[id], Of(s.t.history, id), s.past.born[id], s.past.pids[id]);
    }
  }

  lemma {:induction false} RecordedPids(base: Path, max: nat, acts: seq<Action>, id: int)
    ensures var s := Exec(Init(base, max), acts);
            && s.past.pids.Keys == s.t.rows.Keys
            && Times(Init(base, max), acts, id, Recorded) == if id in s.t.rows then |s.past.pids[id]| else 0
  {
    SafeExec(Init(base, max), acts);
    if acts == [] {
    } else {
      var front, a := acts[..|acts| - 1], acts[|acts| - 1];
      RecordedPids(base, max, front, id);
      SafeExec(Init(base, max), front);
      var s := Exec(Init(base, max), front);
      if id in s.t.rows {
        PidsStep(s, a, id);
        RowsStay(s, a, id);
      } else {
        PidsAppear(s, a, id);
      }
    }
  }

  lemma RowsStay(s: State, a: Action, id: int)
    requires id in s.t.rows
    ensures id in Step(s, a).t.rows
  {
  }

  /** The store refuses a pid exactly when the job is not RESTORE_PENDING as its restore comes back. */
  lemma RefusedIff(s: State, p: nat, c: Choice, id: int)
    requires Safe(s) && p in s.threads && Plausible(c) && s.threads[p].pc.Read? && Carries(s.threads[p], id)
    ensures Meets(s, Run(p, c), id, Refused) <==> s.t.rows[id].status != RestorePending
  {
    assert PcOk(s.t, s.threads[p].pc);
  }

  /** With no restore on its way, every process started from a job's checkpoints is on the job's record exactly when no
      restore ever came back to find the job out of RESTORE_PENDING; otherwise as many run unrecorded as did. */
  lemma {:induction false} EveryRestoreRecordedIff(base: Path, max: nat, acts: seq<Action>, id: int)
    requires id in Exec(Init(base, max), acts).t.rows && Carriers(Exec(Init(base, max), acts), id) == {}
    ensures var s0 := Init(base, max);
            var recorded := RestoreCount(Of(Exec(s0, acts).t.history, id));
            && Times(s0, acts, id, Started) == recorded + Times(s0, acts, id, Refused)
            && (Times(s0, acts, id, Started) == recorded <==> Times(s0, acts, id, Refused) == 0)
  {
    RestoreAccount(base, max, acts, id);
    RecordedOnes(base, max, acts, id);
  }

  /** Only a resume that went ahead after its mark was refused starts a process the store refuses, if the job's commits are
      fresh: when every mark of a restore is accepted, every process is recorded. */
  lemma {:induction false} OnlyRefusedMarksRefuse(base: Path, max: nat, acts: seq<Action>, id: int)
    requires Fresh(Init(base, max), acts, id) && MarksAccepted(Init(base, max), acts, id, Restoring)
    ensures Times(Init(base, max), acts, id, Refused) == 0
  {
    if acts == [] {
    } else {
      var front, a := acts[..|acts| - 1], acts[|acts| - 1];
      OnlyRefusedMarksRefuse(base, max, front, id);
      SoleExec(base, max, front, id, Restoring);
      var s := Exec(Init(base, max), front);
      if Meets(s, a, id, Refused) {
        assert AtWork(s.threads[a.p].pc, id, Restoring);
      }
    }
  }
}
