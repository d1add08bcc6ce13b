/** What an update loses by validating before its transaction. A commit is stale when the row's status is no longer
    the one its handler read. Freshness of one job's commits is exactly what makes that job's history a chain, and
    with it come the other per-job laws: terminal statuses absorb, checkpoints are conserved, and the failure reason
    agrees with the status. */
module Freshness {
  import opened Wrappers
  import opened Lifecycle
  import opened JobTable
  import opened Requests
  import opened Machine
  import opened MachineSafety

  /** The action commits an update of job id. */
  predicate Commits(s: State, a: Action, id: int) {
    && a.Run? && a.p in s.threads && Plausible(a.c)
    && s.threads[a.p].pc.Commit? && s.threads[a.p].pc.id == id
  }

  predicate Stale(s: State, a: Action, id: int) {
    Commits(s, a, id) && id in s.t.rows && s.threads[a.p].pc.from != s.t.rows[id].status
  }

  /** No commit of job id along the schedule is stale. */
  ghost predicate Fresh(s: State, acts: seq<Action>, id: int) {
    acts == [] ||
    var front := acts[..|acts| - 1];
    Fresh(s, front, id) && !Stale(Exec(s, front), acts[|acts| - 1], id)
  }

  ghost predicate Chained(s: State, id: int)
    requires id in s.t.rows && id in s.past.born
  {
    Chain(s.past.born[id].status, Of(s.t.history, id), s.t.rows[id].status)
  }

  ghost predicate SameRecord(s: State, s': State, id: int)
    requires id in s.t.rows && id in s.past.born
  {
    && id in s'.t.rows && id in s'.past.born
    && s'.past.born[id] == s.past.born[id]
    && Of(s'.t.history, id) == Of(s.t.history, id)
    && s'.t.rows[id].(dir := []) == s.t.rows[id].(dir := [])
  }

  /** Only the steps of handlers and workers touch the tables. */
  lemma Quiet(s: State, a: Action)
    requires !(a.Run? && a.p in s.threads && Plausible(a.c))
    ensures Step(s, a).t == s.t && Step(s, a).past.(early := {}) == s.past.(early := {})
  {
  }

  lemma UntouchedRun(s: State, p: nat, pc: Pc, id: int)
    requires id in s.t.rows && id in s.past.born && id <= s.t.lastId && !(pc.Commit? && pc.id == id)
    ensures var t', past' := NextTable(s, pc), NextPast(s, p, pc);
            && id in t'.rows && id in past'.born && past'.born[id] == s.past.born[id]
            && Of(t'.history, id) == Of(s.t.history, id)
            && t'.rows[id].(dir := []) == s.t.rows[id].(dir := [])
  {
    if pc.Commit? {
      OfAppend(s.t.history, Entry(pc.id, pc.from, pc.u.To(), pc.actor), id);
    }
  }

  /** A step that does not commit job id leaves its history and, but for the directory, its row alone. */
  lemma Untouched(s: State, a: Action, id: int)
    requires Safe(s) && id in s.t.rows && !Commits(s, a, id)
    ensures SameRecord(s, Step(s, a), id)
  {
    if a.Run? && a.p in s.threads && Plausible(a.c) {
      UntouchedRun(s, a.p, s.threads[a.p].pc, id);
    } else {
      Quiet(s, a);
    }
  }

  lemma Touched(s: State, a: Action, id: int)
    requires Safe(s) && id in s.t.rows && Commits(s, a, id)
    ensures var s', pc := Step(s, a), s.threads[a.p].pc;
            && WellFormed(pc.u) && ValidTransition(pc.from, pc.u.To())
            && id in s'.t.rows && id in s'.past.born && s'.past.born[id] == s.past.born[id]
            && Of(s'.t.history, id) == Of(s.t.history, id) + [Entry(id, pc.from, pc.u.To(), pc.actor)]
            && s'.t.rows[id] == pc.u.Apply(s.t.rows[id])
  {
    var pc := s.threads[a.p].pc;
    assert PcOk(s.t, pc);
    OfAppend(s.t.history, Entry(id, pc.from, pc.u.To(), pc.actor), id);
  }

  /** A row that appears in a step starts with an empty history and the status it was inserted with. */
  lemma Appears(s: State, a: Action, id: int)
    requires Safe(s) && id !in s.t.rows && id in Step(s, a).t.rows
    ensures var s' := Step(s, a);
            && id in s'.past.born && Of(s'.t.history, id) == [] && s'.t.rows[id] == s'.past.born[id]
            && (IsRegistered(s'.t.rows[id]) || IsAdopted(s'.t.rows[id]))
  {
    if !(a.Run? && a.p in s.threads && Plausible(a.c)) {
      Quiet(s, a);
      assert false;
    }
    AppearsRun(s, a.p, s.threads[a.p].pc, id);
    OfAbsent(s.t.history, id);
  }

  lemma AppearsRun(s: State, p: nat, pc: Pc, id: int)
    requires PcOk(s.t, pc) && id !in s.t.rows && id in NextTable(s, pc).rows
    ensures NextTable(s, pc).history == s.t.history
    ensures id in NextPast(s, p, pc).born && NextPast(s, p, pc).born[id] == NextTable(s, pc).rows[id]
    ensures IsRegistered(NextTable(s, pc).rows[id]) || IsAdopted(NextTable(s, pc).rows[id])
  {
  }

  lemma {:induction false} ChainTarget(s0: Status, es: seq<Entry>, s: Status)
    requires Chain(s0, es, s)
    ensures s == Target(s0, es)
  {
  }

  /** Replay and freshness are the same thing: for every schedule of every mix of handlers, a job's recorded
      history is an unbroken path of table edges from the status it was inserted with to the status of its row
      exactly when none of its commits was stale. */
  lemma {:induction false} ChainedIffFresh(base: Path, max: nat, acts: seq<Action>, id: int)
    ensures Safe(Exec(Init(base, max), acts))
    ensures var s := Exec(Init(base, max), acts);
            if id in s.t.rows then Fresh(Init(base, max), acts, id) <==> Chained(s, id)
            else Fresh(Init(base, max), acts, id)
  {
    var s0 := Init(base, max);
    SafeExec(s0, acts);
    if acts == [] {
    } else {
      var front, a := acts[..|acts| - 1], acts[|acts| - 1];
      ChainedIffFresh(base, max, front, id);
      var s := Exec(s0, front);
      if id !in s.t.rows {
        if id in Step(s, a).t.rows {
          Appears(s, a, id);
        }
      } else if Commits(s, a, id) {
        Touched(s, a, id);
        var pc, born, es := s.threads[a.p].pc, s.past.born[id], Of(s.t.history, id);
        ChainAppend(born.status, es, pc.u.To(), Entry(id, pc.from, pc.u.To(), pc.actor));
        assert RowOk(s.t.rows[id], es, born, s.past.pids[id]);
        if Chain(born.status, es, pc.from) {
          ChainTarget(born.status, es, pc.from);
        }
      } else {
        Untouched(s, a, id);
      }
    }
  }

  /** From any safe state with the job terminal, and along every schedule: the job keeps its status, reason, pid and
      history exactly when none of its commits is stale. */
  lemma {:induction false} TerminalAbsorbs(s: State, acts: seq<Action>, id: int)
    requires Safe(s) && id in s.t.rows && IsTerminal(s.t.rows[id].status)
    ensures Fresh(s, acts, id) <==> SameRecord(s, Exec(s, acts), id)
  {
    AbsorbedOrLonger(s, acts, id);
  }

  lemma {:induction false} AbsorbedOrLonger(s: State, acts: seq<Action>, id: int)
    requires Safe(s) && id in s.t.rows && IsTerminal(s.t.rows[id].status)
    ensures Fresh(s, acts, id) ==> SameRecord(s, Exec(s, acts), id)
    ensures !Fresh(s, acts, id) ==>
      id in Exec(s, acts).t.rows && |Of(Exec(s, acts).t.history, id)| > |Of(s.t.history, id)|
  {
    if acts == [] {
    } else {
      var front, a := acts[..|acts| - 1], acts[|acts| - 1];
      AbsorbedOrLonger(s, front, id);
      SafeExec(s, front);
      var s1 := Exec(s, front);
      if Commits(s1, a, id) {
        Touched(s1, a, id);
      } else {
        Untouched(s1, a, id);
      }
    }
  }

  /** The failure reason is there exactly in the failing statuses. */
  predicate ReasonAgrees(j: Job) {
    j.reason != "" <==> Failing(j.status)
  }

  /** A restore is committed to a row in a failing status: UpdatePID writes RUNNING and leaves the error text. */
  predicate Smears(s: State, a: Action, id: int) {
    Commits(s, a, id) && s.threads[a.p].pc.u.SetPid? && id in s.t.rows && Failing(s.t.rows[id].status)
  }

  ghost predicate NeverSmeared(s: State, acts: seq<Action>, id: int) {
    acts == [] ||
    var front := acts[..|acts| - 1];
    NeverSmeared(s, front, id) && !Smears(Exec(s, front), acts[|acts| - 1], id)
  }

  /** Wherever the schedule has brought the job so far, its reason agrees with its status. */
  ghost predicate AlwaysAgrees(s: State, acts: seq<Action>, id: int) {
    var s' := Exec(s, acts);
    && (id in s'.t.rows ==> ReasonAgrees(s'.t.rows[id]))
    && (acts == [] || AlwaysAgrees(s, acts[..|acts| - 1], id))
  }

  /** For every schedule, with split updates: a job's failure reason agrees with its status all along exactly when no
      restore of the job is committed over a failing status. */
  lemma {:induction false} ReasonAgreesIff(base: Path, max: nat, acts: seq<Action>, id: int)
    ensures AlwaysAgrees(Init(base, max), acts, id) <==> NeverSmeared(Init(base, max), acts, id)
  {
    if acts == [] {
    } else {
      var front, a := acts[..|acts| - 1], acts[|acts| - 1];
      ReasonAgreesIff(base, max, front, id);
      SafeExec(Init(base, max), front);
      var s := Exec(Init(base, max), front);
      if id !in s.t.rows {
        if id in Step(s, a).t.rows {
          Appears(s, a, id);
        }
      } else if Commits(s, a, id) {
        Touched(s, a, id);
      } else {
        Untouched(s, a, id);
      }
    }
  }

  /** A fresh restore is committed to a RESTORE_PENDING row. */
  lemma {:induction false} FreshNeverSmeared(base: Path, max: nat, acts: seq<Action>, id: int)
    requires Fresh(Init(base, max), acts, id)
    ensures NeverSmeared(Init(base, max), acts, id)
  {
    if acts == [] {
    } else {
      var front, a := acts[..|acts| - 1], acts[|acts| - 1];
      FreshNeverSmeared(base, max, front, id);
      SafeExec(Init(base, max), front);
      var s := Exec(Init(base, max), front);
      if id in s.t.rows && Commits(s, a, id) {
        Touched(s, a, id);
      }
    }
  }

  lemma ReasonAgreesWithStatus(base: Path, max: nat, acts: seq<Action>, id: int)
    requires Fresh(Init(base, max), acts, id)
    requires id in Exec(Init(base, max), acts).t.rows
    ensures ReasonAgrees(Exec(Init(base, max), acts).t.rows[id])
  {
    FreshNeverSmeared(base, max, acts, id);
    ReasonAgreesIff(base, max, acts, id);
  }

  /** The laws a job keeps as long as its commits are fresh: replaying its history from the status it was inserted
      with recovers the status of its row, its checkpoints balance, and its failure reason agrees with its status. */
  lemma {:induction false} FreshJobLaws(base: Path, max: nat, acts: seq<Action>, id: int)
    requires Fresh(Init(base, max), acts, id)
    requires id in Exec(Init(base, max), acts).t.rows
    ensures var s := Exec(Init(base, max), acts);
            && id in s.past.born
            && var s0, es, status := s.past.born[id].status, Of(s.t.history, id), s.t.rows[id].status;
            && Replay(s0, es) == Some(status)
            && HoldsCheckpoints((if s0 == CheckpointCreated then 1 else 0) + Balance(es), status)
            && ReasonAgrees(s.t.rows[id])
  {
    ChainedIffFresh(base, max, acts, id);
    ReasonAgreesWithStatus(base, max, acts, id);
    var s := Exec(Init(base, max), acts);
    assert RowOk(s.t.rows[id], Of(s.t.history, id), s.past.born[id], s.past.pids[id]);
    ReplayIffChain(s.past.born[id].status, Of(s.t.history, id), s.t.rows[id].status);
    Conservation(s.past.born[id].status, Of(s.t.history, id), s.t.rows[id].status);
  }

  // ---------------------------------------------------------------- schedules that are fresh

  /** At most one update of job id is between its read and its commit. */
  ghost predicate Exclusive(s: State, id: int) {
    forall p, q :: p in s.threads && q in s.threads && InFlight(s, p, id) && InFlight(s, q, id) ==> p == q
  }

  predicate InFlight(s: State, p: nat, id: int)
    requires p in s.threads
  {
    s.threads[p].pc.Commit? && s.threads[p].pc.id == id
  }

  /** The updates of job id never overlap along the schedule. */
  ghost predicate NeverOverlap(s: State, acts: seq<Action>, id: int) {
    Exclusive(Exec(s, acts), id) && (acts == [] || NeverOverlap(s, acts[..|acts| - 1], id))
  }

  /** Every update of job id in flight read the status the row still has. */
  ghost predicate Current(s: State, id: int) {
    forall p :: p in s.threads && InFlight(s, p, id) ==> id in s.t.rows && s.threads[p].pc.from == s.t.rows[id].status
  }

  /** How a thread gets to have an update in flight: it had it already or has just read the row. */
  lemma GetsInFlight(s: State, a: Action, p: nat, id: int)
    requires p in Step(s, a).threads && InFlight(Step(s, a), p, id)
    ensures if p in s.threads && InFlight(s, p, id)
            then Step(s, a).threads[p] == s.threads[p] && !(a.Run? && a.p == p && Plausible(a.c))
            else id in s.t.rows && Step(s, a).t == s.t && Step(s, a).threads[p].pc.from == s.t.rows[id].status
  {
  }

  lemma CurrentStep(s: State, a: Action, id: int)
    requires Safe(s) && Current(s, id) && Exclusive(s, id)
    ensures Current(Step(s, a), id)
  {
    var s' := Step(s, a);
    forall p | p in s'.threads && InFlight(s', p, id)
      ensures id in s'.t.rows && s'.threads[p].pc.from == s'.t.rows[id].status
    {
      GetsInFlight(s, a, p, id);
      if p in s.threads && InFlight(s, p, id) {
        assert !Commits(s, a, id);
        Untouched(s, a, id);
      }
    }
  }

  /** Updates of a job that never overlap are fresh, so such a job keeps every law above. */
  lemma {:induction false} NeverOverlapFresh(base: Path, max: nat, acts: seq<Action>, id: int)
    requires NeverOverlap(Init(base, max), acts, id)
    ensures Current(Exec(Init(base, max), acts), id)
    ensures Fresh(Init(base, max), acts, id)
  {
    var s0 := Init(base, max);
    if acts == [] {
    } else {
      var front, a := acts[..|acts| - 1], acts[|acts| - 1];
      NeverOverlapFresh(base, max, front, id);
      SafeExec(s0, front);
      CurrentStep(Exec(s0, front), a, id);
    }
  }

  /** Every update is one step: whatever thread has read and validated, it is the next to run. */
  ghost predicate Atomic(s: State, acts: seq<Action>) {
    acts == [] ||
    var front, a := acts[..|acts| - 1], acts[|acts| - 1];
    && Atomic(s, front)
    && forall p :: p in Exec(s, front).threads && Exec(s, front).threads[p].pc.Commit? ==>
         a.Run? && a.p == p && Plausible(a.c)
  }

  ghost predicate Lone(s: State) {
    forall p, q :: p in s.threads && q in s.threads && s.threads[p].pc.Commit? && s.threads[q].pc.Commit? ==> p == q
  }

  lemma {:induction false} AtomicNeverOverlaps(base: Path, max: nat, acts: seq<Action>, id: int)
    requires Atomic(Init(base, max), acts)
    ensures Lone(Exec(Init(base, max), acts)) && NeverOverlap(Init(base, max), acts, id)
  {
    var s0 := Init(base, max);
    if acts == [] {
    } else {
      var front, a := acts[..|acts| - 1], acts[|acts| - 1];
      AtomicNeverOverlaps(base, max, front, id);
      LoneStep(Exec(s0, front), a);
    }
  }

  /** When every update is one step, every job of every schedule keeps the laws of FreshJobLaws. */
  lemma {:induction false} AtomicFresh(base: Path, max: nat, acts: seq<Action>, id: int)
    requires Atomic(Init(base, max), acts)
    ensures Fresh(Init(base, max), acts, id)
  {
    AtomicNeverOverlaps(base, max, acts, id);
    NeverOverlapFresh(base, max, acts, id);
  }

  lemma LoneStep(s: State, a: Action)
    requires forall p :: p in s.threads && s.threads[p].pc.Commit? ==> a.Run? && a.p == p && Plausible(a.c)
    ensures Lone(Step(s, a))
  {
    if a.Run? && a.p in s.threads && s.threads[a.p].pc.Commit? {
      assert !Step(s, a).threads[a.p].pc.Commit?;
    }
  }

  // ---------------------------------------------------------------- the condition is needed

  lemma ReadStep(s: State, p: nat, c: Choice)
    requires p in s.threads && Plausible(c)
    requires s.threads[p].pc.Read? && s.t.Accepts(s.threads[p].pc.id, s.threads[p].pc.u)
    ensures var pc := s.threads[p].pc;
            var pc' := Commit(pc.id, s.t.rows[pc.id].status, pc.u, pc.actor, pc.next);
            Step(s, Run(p, c)) == s.(threads := s.threads[p := s.threads[p].(pc := pc')])
  {
  }

  lemma OtherThread(s: State, p: nat, c: Choice, q: nat)
    requires p in s.threads && q in s.threads && p != q
    ensures q in Step(s, Run(p, c)).threads && Step(s, Run(p, c)).threads[q] == s.threads[q]
  {
  }

  /** Committing from a status the row has left breaks the chain. */
  lemma {:induction false} StaleBreaksChain(s: State, a: Action, id: int)
    requires Safe(s) && Stale(s, a, id)
    ensures var s' := Step(s, a); id in s'.t.rows && id in s'.past.born && !Chained(s', id)
  {
    Touched(s, a, id);
    var pc, born, es := s.threads[a.p].pc, s.past.born[id], Of(s.t.history, id);
    assert RowOk(s.t.rows[id], es, born, s.past.pids[id]);
    ChainAppend(born.status, es, pc.u.To(), Entry(id, pc.from, pc.u.To(), pc.actor));
    if Chain(born.status, es, pc.from) {
      ChainTarget(born.status, es, pc.from);
    }
  }

  /** Two updates of one job, each acceptable as the row stands, that both read before either commits: both are
      written and both are recorded from the status they read. */
  lemma Overlap(s: State, p: nat, q: nat, id: int, c: Choice)
    requires Safe(s) && Plausible(c) && id in s.t.rows && Overlapping(s, p, q, id)
    ensures var pc, pc', j := s.threads[p].pc, s.threads[q].pc, s.t.rows[id];
            var s3 := Exec(s, [Run(p, c), Run(q, c), Run(p, c)]);
            && Safe(s3) && id in s3.t.rows && s3.t.rows[id] == pc.u.Apply(j)
            && Stale(s3, Run(q, c), id) && s3.threads[q].pc.u == pc'.u
            && var s4 := Exec(s, [Run(p, c), Run(q, c), Run(p, c), Run(q, c)]);
            && s4 == Step(s3, Run(q, c)) && id in s4.t.rows && s4.t.rows[id] == pc'.u.Apply(pc.u.Apply(j))
            && Of(s4.t.history, id) ==
               Of(s.t.history, id)
               + [Entry(id, j.status, pc.u.To(), pc.actor)] + [Entry(id, j.status, pc'.u.To(), pc'.actor)]
  {
    var a, b := Run(p, c), Run(q, c);
    var s2 := Step(Step(s, a), b);
    ExecFour(s, a, b, a, b);
    BothRead(s, p, q, id, c);
    SafeStep(s2, a);
    Touched(s2, a, id);
    OtherThread(s2, p, c, q);
    Touched(Step(s2, a), b, id);
  }

  predicate Overlapping(s: State, p: nat, q: nat, id: int) {
    && p in s.threads && q in s.threads && p != q
    && s.threads[p].pc.Read? && s.threads[p].pc.id == id && s.t.Accepts(id, s.threads[p].pc.u)
    && s.threads[q].pc.Read? && s.threads[q].pc.id == id && s.t.Accepts(id, s.threads[q].pc.u)
  }

  lemma BothRead(s: State, p: nat, q: nat, id: int, c: Choice)
    requires Safe(s) && Plausible(c) && id in s.t.rows && Overlapping(s, p, q, id)
    ensures var s', pc, pc' := Step(Step(s, Run(p, c)), Run(q, c)), s.threads[p].pc, s.threads[q].pc;
            && Safe(s') && s'.t == s.t && p in s'.threads && q in s'.threads
            && s'.threads[p].pc == Commit(id, s.t.rows[id].status, pc.u, pc.actor, pc.next)
            && s'.threads[q].pc == Commit(id, s.t.rows[id].status, pc'.u, pc'.actor, pc'.next)
  {
    ReadStep(s, p, c);
    SafeStep(s, Run(p, c));
    ReadStep(Step(s, Run(p, c)), q, c);
    SafeStep(Step(s, Run(p, c)), Run(q, c));
  }

  /** So the second commit breaks the chain, whatever the updates are. */
  lemma OverlapBreaksChain(s: State, p: nat, q: nat, id: int, c: Choice)
    requires Safe(s) && Plausible(c) && id in s.t.rows && Overlapping(s, p, q, id)
    ensures var s' := Exec(s, [Run(p, c), Run(q, c), Run(p, c), Run(q, c)]);
            && id in s'.t.rows && id in s'.past.born && !Chained(s', id)
            && s'.t.rows[id].status == s.threads[q].pc.u.To()
  {
    Overlap(s, p, q, id, c);
    StaleBreaksChain(Exec(s, [Run(p, c), Run(q, c), Run(p, c)]), Run(q, c), id);
  }

  lemma ExecOne(s: State, acts: seq<Action>, a: Action)
    ensures Exec(s, acts + [a]) == Step(Exec(s, acts), a)
  {
    assert (acts + [a])[..|acts|] == acts;
  }

  lemma ExecTwo(s: State, a: Action, b: Action)
    ensures Exec(s, [a, b]) == Step(Step(s, a), b)
  {
    ExecOne(s, [], a);
    ExecOne(s, [a], b);
    assert [] + [a] == [a] && [a] + [b] == [a, b];
  }

  lemma ExecFour(s: State, a: Action, b: Action, c: Action, d: Action)
    ensures Exec(s, [a, b, c]) == Step(Step(Step(s, a), b), c)
    ensures Exec(s, [a, b, c, d]) == Step(Exec(s, [a, b, c]), d)
  {
    ExecTwo(s, a, b);
    ExecOne(s, [a, b], c);
    ExecOne(s, [a, b, c], d);
    assert [a, b] + [c] == [a, b, c] && [a, b, c] + [d] == [a, b, c, d];
  }
}
