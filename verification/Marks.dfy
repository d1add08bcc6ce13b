/** The two pieces of work that a handler marks in the row before it does them. checkpointJob and resumeJob go ahead when
    the store refuses the mark; as long as it never does, a job is worked on by one thread at a time. */
module Marks {
  import opened Lifecycle
  import opened JobTable
  import opened Requests
  import opened Machine
  import opened MachineSafety
  import opened Freshness

  datatype Work = Checkpointing | Restoring
  {
    /** The status that marks the work. */
    function Mark(): Status {
      if Checkpointing? then CheckpointInProgress else RestorePending
    }

    function Next(): Then {
      if Checkpointing? then ThenDump else ThenRestore
    }

    /** The statuses the work can end in. */
    predicate Outcome(s: Status) {
      if Checkpointing? then s == CheckpointCreated || s == CheckpointCreationFailed else s == Running || s == RestoreFailed
    }

    predicate Does(pc: Pc) {
      if Checkpointing? then pc.Dump? else pc.Restore?
    }
  }

  /** The store refuses the mark of the work on job id. */
  predicate MarkRefused(s: State, a: Action, id: int, w: Work) {
    && a.Run? && a.p in s.threads && Plausible(a.c)
    && var pc := s.threads[a.p].pc; pc.Read? && pc.id == id && pc.next == w.Next() && !s.t.Accepts(id, pc.u)
  }

  ghost predicate MarksAccepted(s: State, acts: seq<Action>, id: int, w: Work) {
    acts == [] ||
    var front := acts[..|acts| - 1];
    MarksAccepted(s, front, id, w) && !MarkRefused(Exec(s, front), acts[|acts| - 1], id, w)
  }

  /** The thread is at work on job id, or has done the work and has yet to record the outcome. */
  predicate AtWork(pc: Pc, id: int, w: Work) {
    || (w.Does(pc) && pc.id == id)
    || ((pc.Read? || pc.Commit?) && pc.id == id && w.Outcome(pc.u.To()))
  }

  predicate MarkIsMark(pc: Pc, w: Work) {
    (pc.Read? || pc.Commit?) && pc.next == w.Next() ==> pc.u.To() == w.Mark()
  }

  /** At most one thread is at work on the job, and then the row says so. */
  ghost predicate Sole(s: State, id: int, w: Work) {
    && (forall p :: p in s.threads ==> MarkIsMark(s.threads[p].pc, w))
    && (forall p :: p in s.threads && AtWork(s.threads[p].pc, id, w) ==> id in s.t.rows && s.t.rows[id].status == w.Mark())
    && (forall p, q :: p in s.threads && q in s.threads ==>
          AtWork(s.threads[p].pc, id, w) && AtWork(s.threads[q].pc, id, w) ==> p == q)
  }

  lemma WorkStep(s: State, th: Thread, c: Choice, id: int, w: Work)
    requires MarkIsMark(th.pc, w)
    ensures MarkIsMark(NextPc(s, th, c), w)
    ensures AtWork(NextPc(s, th, c), id, w) ==>
      || (AtWork(th.pc, id, w) && !th.pc.Commit?)
      || (th.pc.Commit? && th.pc.id == id && th.pc.u.To() == w.Mark())
      || (th.pc.Read? && th.pc.id == id && th.pc.next == w.Next() && !s.t.Accepts(id, th.pc.u))
  {
  }

  /** No thread takes up the work but by a step of its own. */
  lemma OthersWork(s: State, a: Action, q: nat, id: int, w: Work)
    requires q in Step(s, a).threads && !(a.Run? && a.p == q && q in s.threads && Plausible(a.c))
    ensures if q in s.threads then Step(s, a).threads[q] == s.threads[q]
            else MarkIsMark(Step(s, a).threads[q].pc, w) && !AtWork(Step(s, a).threads[q].pc, id, w)
  {
  }

  /** A fresh commit starts the work, when nobody was at it, or ends it. */
  lemma SoleCommit(s: State, a: Action, id: int, w: Work)
    requires Safe(s) && Sole(s, id, w) && id in s.t.rows && Commits(s, a, id) && !Stale(s, a, id)
    ensures Sole(Step(s, a), id, w)
  {
    var s' := Step(s, a);
    Touched(s, a, id);
    WorkStep(s, s.threads[a.p], a.c, id, w);
    forall q | q in s'.threads && q != a.p
      ensures MarkIsMark(s'.threads[q].pc, w) && !AtWork(s'.threads[q].pc, id, w)
    {
      OthersWork(s, a, q, id, w);
    }
  }

  lemma SoleElse(s: State, a: Action, id: int, w: Work)
    requires Safe(s) && Sole(s, id, w) && !Commits(s, a, id) && !MarkRefused(s, a, id, w)
    ensures Sole(Step(s, a), id, w)
  {
    var s' := Step(s, a);
    forall q | q in s'.threads
      ensures MarkIsMark(s'.threads[q].pc, w)
      ensures AtWork(s'.threads[q].pc, id, w) ==> q in s.threads && AtWork(s.threads[q].pc, id, w)
    {
      if a.Run? && a.p == q && q in s.threads && Plausible(a.c) {
        WorkStep(s, s.threads[q], a.c, id, w);
      } else {
        OthersWork(s, a, q, id, w);
      }
    }
    if id in s.t.rows {
      Untouched(s, a, id);
    }
  }

  /** While the job's commits are fresh and its marks accepted, one thread at a time works on it. */
  lemma {:induction false} SoleExec(base: Path, max: nat, acts: seq<Action>, id: int, w: Work)
    requires Fresh(Init(base, max), acts, id) && MarksAccepted(Init(base, max), acts, id, w)
    ensures Sole(Exec(Init(base, max), acts), id, w)
  {
    var s0 := Init(base, max);
    if acts == [] {
    } else {
      var front, a := acts[..|acts| - 1], acts[|acts| - 1];
      SoleExec(base, max, front, id, w);
      SafeExec(s0, front);
      var s := Exec(s0, front);
      if Commits(s, a, id) {
        assert PcOk(s.t, s.threads[a.p].pc);
        SoleCommit(s, a, id, w);
      } else {
        SoleElse(s, a, id, w);
      }
    }
  }
}
