/** Schedules from a freshly started daemon that show the conditions of the other modules to be needed. Two requests,
    run by threads 1 and 2, race for job 1; thread 0 brought the job in. */
module Races {
  import opened Wrappers
  import opened Numerals
  import opened Lifecycle
  import opened JobTable
  import opened Requests
  import opened Machine
  import opened MachineSafety
  import opened Freshness
  import opened Restores
  import opened Images
  import opened Directories

  const START := Init(["b"], 1)
  const PLAIN := Meta([], "", "", "", "", "")
  const JOIN := Register(7, 7, ["d"], 0, PLAIN)
  const ADOPT := Adopt(["d"], 0, PLAIN)

  function Cast(pc1: Pc, pc2: Pc): map<nat, Thread> {
    map[0 := Thread(false, End), 1 := Thread(false, pc1), 2 := Thread(false, pc2)]
  }

  /** Where a schedule has brought the daemon, with every update in it one step if atomic says so. */
  ghost predicate Scene(atomic: bool, acts: seq<Action>, t: Table, threads: map<nat, Thread>) {
    var s := Exec(START, acts);
    (atomic ==> Atomic(START, acts)) && !s.latch && s.t == t && s.threads == threads
  }

  predicate NoCommit(threads: map<nat, Thread>) {
    forall p :: p in threads ==> !threads[p].pc.Commit?
  }

  predicate OnlyCommit(threads: map<nat, Thread>, p: nat) {
    forall q :: q in threads && threads[q].pc.Commit? ==> q == p
  }

  lemma Enter(atomic: bool, acts: seq<Action>, t: Table, threads: map<nat, Thread>, p: nat, r: Request)
    requires Scene(atomic, acts, t, threads) && (atomic ==> NoCommit(threads)) && p !in threads && Sane(r)
    ensures Scene(atomic, acts + [Arrive(p, r)], t, threads[p := Thread(false, Begin(r))])
  {
    ExecOne(START, acts, Arrive(p, r));
    assert (acts + [Arrive(p, r)])[..|acts|] == acts;
  }

  /** One step of thread p; NextPc and NextTable say what it does. */
  lemma Turn(atomic: bool, acts: seq<Action>, t: Table, threads: map<nat, Thread>, p: nat, c: Choice) returns (s: State)
    requires Scene(atomic, acts, t, threads) && (atomic ==> OnlyCommit(threads, p)) && p in threads && Plausible(c)
    ensures s.t == t && !s.latch
    ensures Scene(atomic, acts + [Run(p, c)], NextTable(s, threads[p].pc),
                  threads[p := threads[p].(pc := NextPc(s, threads[p], c))])
  {
    s := Exec(START, acts);
    ExecOne(START, acts, Run(p, c));
    assert (acts + [Run(p, c)])[..|acts|] == acts;
  }

  // ---------------------------------------------------------------- scenes

  function JobOf(r: Request): Job
    requires r.Register? || r.Adopt?
  {
    if r.Register? then RegisteredJob(r) else AdoptedJob(r)
  }

  /** A whole register that names its directory. */
  lemma Registers(acts: seq<Action>, t: Table, threads: map<nat, Thread>, p: nat, r: Request) returns (more: seq<Action>)
    requires Scene(true, acts, t, threads) && NoCommit(threads) && p !in threads && r.Register? && Sane(r) && r.dir != []
    ensures Scene(true, acts + more, t.Insert(JobOf(r)), threads[p := Thread(false, End)])
    ensures forall a :: a in more ==> a.Run? || a == Arrive(p, r)
  {
    var a, threads' := [Run(p, YES)], threads[p := Thread(false, RegisterLatch(JobOf(r)))];
    Enter(true, acts, t, threads, p, r);
    LatchTurn(acts + [Arrive(p, r)], t, threads', p);
    RowTurn(acts + [Arrive(p, r)] + a, t, Moved(threads', p, RegisterInsert(JobOf(r))), p);
    MovedAgain(threads', p, RegisterInsert(JobOf(r)), End);
    more := [Arrive(p, r)] + a + a;
    assert acts + [Arrive(p, r)] + a + a == acts + more;
    assert Moved(threads', p, End) == threads[p := Thread(false, End)];
  }

  lemma LatchTurn(acts: seq<Action>, t: Table, threads: map<nat, Thread>, p: nat)
    requires Scene(true, acts, t, threads) && NoCommit(threads) && p in threads && threads[p].pc.RegisterLatch?
    ensures Scene(true, acts + [Run(p, YES)], t, Moved(threads, p, RegisterInsert(threads[p].pc.job)))
  {
    var _ := Turn(true, acts, t, threads, p, YES);
  }

  lemma RowTurn(acts: seq<Action>, t: Table, threads: map<nat, Thread>, p: nat)
    requires Scene(true, acts, t, threads) && NoCommit(threads) && p in threads && threads[p].pc.RegisterInsert?
    requires threads[p].pc.job.dir != []
    ensures Scene(true, acts + [Run(p, YES)], t.Insert(threads[p].pc.job), Moved(threads, p, End))
  {
    var _ := Turn(true, acts, t, threads, p, YES);
  }

  /** An adopt has found its directory free. */
  lemma AdoptScans(atomic: bool, acts: seq<Action>, t: Table, threads: map<nat, Thread>, p: nat, r: Request)
    requires Scene(atomic, acts, t, threads) && (atomic ==> NoCommit(threads)) && p !in threads
    requires r.Adopt? && r.dir != [] && !t.Occupied(r.dir)
    ensures Scene(atomic, acts + [Arrive(p, r)] + [Run(p, YES)] + [Run(p, YES)], t,
                  threads[p := Thread(false, AdoptInsert(JobOf(r)))])
  {
    var j, b := JobOf(r), acts + [Arrive(p, r)];
    var threads' := threads[p := Thread(false, AdoptLatch(j))];
    Enter(atomic, acts, t, threads, p, r);
    AdoptTurn(atomic, b, t, threads', p, AdoptScan(j));
    AdoptTurn(atomic, b + [Run(p, YES)], t, Moved(threads', p, AdoptScan(j)), p, AdoptInsert(j));
    MovedAgain(threads', p, AdoptScan(j), AdoptInsert(j));
    assert Moved(threads', p, AdoptInsert(j)) == threads[p := Thread(false, AdoptInsert(j))];
  }

  /** A whole adopt of a free directory. */
  lemma AdoptsWhole(atomic: bool, acts: seq<Action>, t: Table, threads: map<nat, Thread>, p: nat, r: Request)
      returns (more: seq<Action>)
    requires Scene(atomic, acts, t, threads) && (atomic ==> NoCommit(threads)) && p !in threads
    requires r.Adopt? && r.dir != [] && !t.Occupied(r.dir)
    ensures Scene(atomic, acts + more, t.Insert(JobOf(r)), threads[p := Thread(false, End)])
    ensures forall a :: a in more ==> a.Run? || a == Arrive(p, r)
  {
    var a, inserting := [Run(p, YES)], threads[p := Thread(false, AdoptInsert(JobOf(r)))];
    AdoptScans(atomic, acts, t, threads, p, r);
    InsertTurn(atomic, acts + [Arrive(p, r)] + a + a, t, inserting, p);
    more := [Arrive(p, r)] + a + a + a;
    assert acts + [Arrive(p, r)] + a + a + a == acts + more;
    assert Moved(inserting, p, End) == threads[p := Thread(false, End)];
  }

  /** The job is in and nothing else has happened. */
  lemma Opened(r: Request) returns (acts: seq<Action>)
    requires r == JOIN || r == ADOPT
    ensures Scene(true, acts, EMPTY.Insert(JobOf(r)), map[0 := Thread(false, End)])
    ensures forall a :: a in acts ==> a.Run? || a == Arrive(0, r)
  {
    if r.Register? {
      acts := Registers([], EMPTY, map[], 0, r);
    } else {
      acts := AdoptsWhole(true, [], EMPTY, map[], 0, r);
    }
    assert [] + acts == acts;
  }

  /** Two requests have come in. */
  lemma Faced(r: Request, r1: Request, r2: Request) returns (acts: seq<Action>)
    requires (r == JOIN || r == ADOPT) && Sane(r1) && Sane(r2)
    ensures Scene(true, acts, EMPTY.Insert(JobOf(r)), Cast(Begin(r1), Begin(r2)))
    ensures forall a :: a in acts ==> a.Run? || a == Arrive(0, r) || a == Arrive(1, r1) || a == Arrive(2, r2)
  {
    acts := Opened(r);
    var t, threads := EMPTY.Insert(JobOf(r)), map[0 := Thread(false, End)];
    Enter(true, acts, t, threads, 1, r1);
    Enter(true, acts + [Arrive(1, r1)], t, threads[1 := Thread(false, Begin(r1))], 2, r2);
    acts := acts + [Arrive(1, r1)] + [Arrive(2, r2)];
    assert threads[1 := Thread(false, Begin(r1))][2 := Thread(false, Begin(r2))] == Cast(Begin(r1), Begin(r2));
  }

  function Moved(threads: map<nat, Thread>, p: nat, pc: Pc): map<nat, Thread>
    requires p in threads
  {
    threads[p := threads[p].(pc := pc)]
  }

  lemma MovedAgain(threads: map<nat, Thread>, p: nat, pc: Pc, pc': Pc)
    requires p in threads
    ensures Moved(Moved(threads, p, pc), p, pc') == Moved(threads, p, pc')
  {
  }

  /** A whole update, accepted or refused. */
  lemma Updates(atomic: bool, acts: seq<Action>, t: Table, threads: map<nat, Thread>, p: nat) returns (more: seq<Action>)
    requires Scene(atomic, acts, t, threads) && (atomic ==> NoCommit(threads)) && p in threads && threads[p].pc.Read?
    ensures var pc := threads[p].pc;
            Scene(atomic, acts + more, t.Updated(pc.id, pc.u, pc.actor), Moved(threads, p, After(pc.next, pc.id, pc.actor)))
    ensures forall a :: a in more ==> a.Run?
    ensures forall found :: CopyOf(START, acts + more, 1, found) == CopyOf(START, acts, 1, found)
  {
    var pc := threads[p].pc;
    var _ := Turn(atomic, acts, t, threads, p, YES);
    CopyStays(acts, Run(p, YES));
    more := [Run(p, YES)];
    if t.Accepts(pc.id, pc.u) {
      CommitsNext(atomic, acts + more, t, threads, p, Commit(pc.id, t.rows[pc.id].status, pc.u, pc.actor, pc.next));
      CopyStays(acts + more, Run(p, YES));
      assert acts + more + [Run(p, YES)] == acts + (more + [Run(p, YES)]);
      more := more + [Run(p, YES)];
    }
  }

  /** Only dumps and adopts touch a directory. */
  lemma CopyStays(acts: seq<Action>, a: Action)
    requires var s := Exec(START, acts);
             a.Run? && a.p in s.threads && !s.threads[a.p].pc.Dump? && !s.threads[a.p].pc.AdoptInsert?
    ensures forall found :: CopyOf(START, acts + [a], 1, found) == CopyOf(START, acts, 1, found)
  {
    assert (acts + [a])[..|acts|] == acts;
  }

  lemma CommitsNext(atomic: bool, acts: seq<Action>, t: Table, threads: map<nat, Thread>, p: nat, pc: Pc)
    requires (atomic ==> NoCommit(threads)) && p in threads && Scene(atomic, acts, t, Moved(threads, p, pc)) && pc.Commit?
    ensures Scene(atomic, acts + [Run(p, YES)], t.Commit(pc.id, pc.from, pc.u, pc.actor),
                  Moved(threads, p, After(pc.next, pc.id, pc.actor)))
  {
    var _ := Turn(atomic, acts, t, Moved(threads, p, pc), p, YES);
    var pc' := After(pc.next, pc.id, pc.actor);
    assert Moved(threads, p, pc)[p := threads[p].(pc := pc')] == Moved(threads, p, pc');
  }

  /** Thread 1 makes its whole update, then thread 2 its own. */
  lemma BothUpdate(atomic: bool, acts: seq<Action>, t: Table, threads: map<nat, Thread>) returns (more: seq<Action>)
    requires Scene(atomic, acts, t, threads) && (atomic ==> NoCommit(threads)) && 1 in threads && 2 in threads
    requires threads[1].pc.Read? && threads[2].pc.Read?
    ensures var pc1, pc2 := threads[1].pc, threads[2].pc;
            Scene(atomic, acts + more, t.Updated(pc1.id, pc1.u, pc1.actor).Updated(pc2.id, pc2.u, pc2.actor),
                  Moved(Moved(threads, 1, After(pc1.next, pc1.id, pc1.actor)), 2, After(pc2.next, pc2.id, pc2.actor)))
  {
    var pc1 := threads[1].pc;
    var m1 := Updates(atomic, acts, t, threads, 1);
    var threads' := Moved(threads, 1, After(pc1.next, pc1.id, pc1.actor));
    var m2 := Updates(atomic, acts + m1, t.Updated(pc1.id, pc1.u, pc1.actor), threads', 2);
    more := m1 + m2;
    assert acts + m1 + m2 == acts + more;
  }

  /** The second of two equal marks is refused. */
  lemma MarkedOnce(t: Table, pc: Pc)
    requires pc.Read? && t.Accepts(pc.id, pc.u)
    ensures var t' := t.Updated(pc.id, pc.u, pc.actor); t'.Updated(pc.id, pc.u, pc.actor) == t'
  {
  }

  lemma CastMoves(pc1: Pc, pc2: Pc, pc: Pc)
    ensures Moved(Cast(pc1, pc2), 1, pc) == Cast(pc, pc2) && Moved(Cast(pc1, pc2), 2, pc) == Cast(pc1, pc)
  {
  }

  lemma NamesOne(t: Table)
    requires 1 in t.rows
    ensures t.Find("1") == Some(1)
  {
    ParseFormat(1);
    assert FormatInt(1) == "1";
  }

  // ---------------------------------------------------------------- stale commits

  predicate Looks(pc: Pc) {
    pc.ResumeGet? || pc.CancelGet? || pc.CompleteGet? || pc.PauseGet?
  }

  lemma GetTurn(atomic: bool, acts: seq<Action>, t: Table, threads: map<nat, Thread>, p: nat)
    requires Scene(atomic, acts, t, threads) && (atomic ==> NoCommit(threads)) && p in threads && Looks(threads[p].pc)
    ensures Scene(atomic, acts + [Run(p, YES)], t, Moved(threads, p, AfterGet(t, threads[p].pc)))
  {
    var _ := Turn(atomic, acts, t, threads, p, YES);
  }

  /** Both requests have looked the job up. */
  lemma BothLook(atomic: bool, acts: seq<Action>, t: Table, pc1: Pc, pc2: Pc)
    requires Scene(atomic, acts, t, Cast(pc1, pc2)) && Looks(pc1) && Looks(pc2)
    ensures !AfterGet(t, pc1).Commit?
    ensures Scene(atomic, acts + [Run(1, YES)] + [Run(2, YES)], t, Cast(AfterGet(t, pc1), AfterGet(t, pc2)))
  {
    CastMoves(pc1, pc2, AfterGet(t, pc1));
    CastMoves(AfterGet(t, pc1), pc2, AfterGet(t, pc2));
    GetTurn(atomic, acts, t, Cast(pc1, pc2), 1);
    GetTurn(atomic, acts + [Run(1, YES)], t, Cast(AfterGet(t, pc1), pc2), 2);
  }

  /** A completion report and a cancel have both found the job RUNNING. */
  lemma ReportAndCancel() returns (acts: seq<Action>)
    ensures Scene(true, acts, EMPTY.Insert(JobOf(JOIN)),
                  Cast(Read(1, SetStatus(Completed, ""), "u", ThenEnd), Read(1, SetStatus(Canceled, ""), "u", ThenEnd)))
  {
    var r1, r2 := Complete("1", 0, "", "u"), Cancel("1", "u");
    var t := EMPTY.Insert(JobOf(JOIN));
    acts := Faced(JOIN, r1, r2);
    NamesOne(t);
    BothLook(true, acts, t, Begin(r1), Begin(r2));
    acts := acts + [Run(1, YES)] + [Run(2, YES)];
    Killed(true, acts, t, AfterGet(t, Begin(r1)), AfterGet(t, Begin(r2)));
    acts := acts + [Run(2, YES)];
  }

  lemma Killed(atomic: bool, acts: seq<Action>, t: Table, pc1: Pc, pc2: Pc)
    requires Scene(atomic, acts, t, Cast(pc1, pc2)) && !pc1.Commit? && pc2.CancelKill?
    ensures Scene(atomic, acts + [Run(2, YES)], t, Cast(pc1, Read(pc2.id, SetStatus(Canceled, ""), pc2.actor, ThenEnd)))
  {
    var _ := Turn(atomic, acts, t, Cast(pc1, pc2), 2, YES);
    CastMoves(pc1, pc2, Read(pc2.id, SetStatus(Canceled, ""), pc2.actor, ThenEnd));
  }

  const CROSSING := [Run(1, YES), Run(2, YES), Run(1, YES), Run(2, YES)]

  lemma CrossingEnds(acts: seq<Action>)
    ensures var all, three := acts + CROSSING, [Run(1, YES), Run(2, YES), Run(1, YES)];
            && Exec(START, all) == Exec(Exec(START, acts), CROSSING)
            && Exec(START, all[..|all| - 1]) == Exec(Exec(START, acts), three) && all[|all| - 1] == Run(2, YES)
  {
    var all, three := acts + CROSSING, [Run(1, YES), Run(2, YES), Run(1, YES)];
    ExecSplit(START, acts, CROSSING);
    ExecSplit(START, acts, three);
    assert all[..|all| - 1] == acts + three;
  }

  /** Letting the two threads read before either commits. */
  lemma Crossed(acts: seq<Action>, t: Table, pc1: Pc, pc2: Pc)
    requires Scene(true, acts, t, Cast(pc1, pc2)) && 1 in t.rows && t.history == Of(t.history, 1)
    requires pc1.Read? && pc1.id == 1 && t.Accepts(1, pc1.u) && pc2.Read? && pc2.id == 1 && t.Accepts(1, pc2.u)
    ensures var all := acts + CROSSING;
            var before, after := Exec(START, all[..|all| - 1]), Exec(START, all);
            && 1 in before.t.rows && before.t.rows[1] == pc1.u.Apply(t.rows[1])
            && 1 in after.t.rows && after.t.rows[1] == pc2.u.Apply(pc1.u.Apply(t.rows[1]))
            && Of(after.t.history, 1) == t.history + [Entry(1, t.rows[1].status, pc1.u.To(), pc1.actor)]
                                                   + [Entry(1, t.rows[1].status, pc2.u.To(), pc2.actor)]
            && Stale(before, all[|all| - 1], 1) && before.threads[2].pc.u == pc2.u
  {
    SafeExec(START, acts);
    CrossingEnds(acts);
    Overlap(Exec(START, acts), 1, 2, 1, YES);
  }

  /** Freshness is needed for terminal statuses to absorb: this schedule brings a job to COMPLETED and then, in its last
      step, to CANCELED, and records both from RUNNING. */
  lemma UnguardedRace() returns (acts: seq<Action>)
    ensures acts != [] && !Fresh(START, acts, 1)
    ensures var before, after := Exec(START, acts[..|acts| - 1]), Exec(START, acts);
            && 1 in before.t.rows && before.t.rows[1].status == Completed
            && 1 in after.t.rows && after.t.rows[1].status == Canceled
            && Of(after.t.history, 1) == [Entry(1, Running, Completed, "u"), Entry(1, Running, Canceled, "u")]
  {
    var first := ReportAndCancel();
    var t := EMPTY.Insert(JobOf(JOIN));
    var pc1, pc2 := Read(1, SetStatus(Completed, ""), "u", ThenEnd), Read(1, SetStatus(Canceled, ""), "u", ThenEnd);
    Crossed(first, t, pc1, pc2);
    acts := first + CROSSING;
  }

  // ---------------------------------------------------------------- marks that are refused

  /** The job is RESTORE_PENDING, and its record is one mark. */
  predicate Pending(t: Table) {
    && 1 in t.rows && t.rows[1].status == RestorePending && t.rows[1].reason == ""
    && t.history == [Entry(1, CheckpointCreated, RestorePending, "u")]
  }

  const MARK := Read(1, SetStatus(RestorePending, ""), "u", ThenRestore)
  const MARKING := Commit(1, CheckpointCreated, SetStatus(RestorePending, ""), "u", ThenRestore)

  /** Two resumes of an adopted job have both found it resumable. */
  lemma BothResume() returns (acts: seq<Action>)
    ensures Scene(true, acts, EMPTY.Insert(JobOf(ADOPT)), Cast(MARK, MARK))
  {
    var r, t := Resume("1", "u"), EMPTY.Insert(JobOf(ADOPT));
    acts := Faced(ADOPT, r, r);
    NamesOne(t);
    BothLook(true, acts, t, Begin(r), Begin(r));
    acts := acts + [Run(1, YES)] + [Run(2, YES)];
  }

  /** The mark of the second is refused, and both go on to restore the job. */
  lemma TwoResumes() returns (acts: seq<Action>, t: Table)
    ensures Scene(true, acts, t, Cast(Restore(1, "u"), Restore(1, "u"))) && Pending(t)
  {
    var t0 := EMPTY.Insert(JobOf(ADOPT));
    acts := BothResume();
    MarkedOnce(t0, MARK);
    var more := BothUpdate(true, acts, t0, Cast(MARK, MARK));
    CastMoves(MARK, MARK, Restore(1, "u"));
    CastMoves(Restore(1, "u"), MARK, Restore(1, "u"));
    acts, t := acts + more, t0.Updated(1, SetStatus(RestorePending, ""), "u");
  }

  /** Both restores have come back, and their outcomes are still to be stored. */
  lemma TwoOutcomes(acts: seq<Action>, t: Table, c1: Choice, c2: Choice)
    requires Scene(true, acts, t, Cast(Restore(1, "u"), Restore(1, "u"))) && Plausible(c1) && Plausible(c2)
    ensures Scene(true, acts + [Run(1, c1)] + [Run(2, c2)], t,
                  Cast(Read(1, RestoreUpdate(c1), "u", ThenEnd), Read(1, RestoreUpdate(c2), "u", ThenEnd)))
    ensures Meets(Exec(START, acts), Run(1, c1), 1, Started) == c1.ok
    ensures Meets(Exec(START, acts + [Run(1, c1)]), Run(2, c2), 1, Started) == c2.ok
  {
    var pc, pc1 := Restore(1, "u"), Read(1, RestoreUpdate(c1), "u", ThenEnd);
    var _ := Turn(true, acts, t, Cast(pc, pc), 1, c1);
    CastMoves(pc, pc, pc1);
    var _ := Turn(true, acts + [Run(1, c1)], t, Cast(pc1, pc), 2, c2);
    CastMoves(pc1, pc, Read(1, RestoreUpdate(c2), "u", ThenEnd));
  }

  /** The condition on failure reasons is needed: one of two racing resumes fails and the other succeeds, and the job ends
      up RUNNING with the error text. */
  lemma ReasonRace() returns (acts: seq<Action>)
    ensures acts != [] && Smears(Exec(START, acts[..|acts| - 1]), acts[|acts| - 1], 1)
    ensures var s := Exec(START, acts);
            1 in s.t.rows && s.t.rows[1].status == Running && s.t.rows[1].reason == NO.err && !ReasonAgrees(s.t.rows[1])
  {
    var first, t := TwoResumes();
    TwoOutcomes(first, t, NO, YES);
    acts := first + [Run(1, NO)] + [Run(2, YES)];
    ReasonCrossed(acts, t, RestoreUpdate(NO), RestoreUpdate(YES));
    acts := acts + CROSSING;
  }

  lemma ReasonCrossed(acts: seq<Action>, t: Table, u1: Update, u2: Update)
    requires Scene(true, acts, t, Cast(Read(1, u1, "u", ThenEnd), Read(1, u2, "u", ThenEnd))) && Pending(t)
    requires u1.SetStatus? && u1.status == RestoreFailed && u1.reason != "" && u2.SetPid?
    ensures var all := acts + CROSSING;
            var s := Exec(START, all);
            && Smears(Exec(START, all[..|all| - 1]), all[|all| - 1], 1)
            && 1 in s.t.rows && s.t.rows[1].status == Running && s.t.rows[1].reason == u1.reason
  {
    OneEntry(t.history[0]);
    Crossed(acts, t, Read(1, u1, "u", ThenEnd), Read(1, u2, "u", ThenEnd));
  }

  lemma OneEntry(e: Entry)
    ensures Of([e], e.id) == [e] && RestoreCount([e]) == if IsRestore(e) then 1 else 0
  {
    OfAppend([], e, e.id);
    RestoreCountAppend([], e);
    assert [] + [e] == [e];
  }

  /** Two processes from one checkpoint, with every update one step: two resumes each start one, and the record knows of
      one only. */
  lemma DoubleRestore() returns (acts: seq<Action>)
    ensures Atomic(START, acts) && Times(START, acts, 1, Started) >= 2
    ensures var s := Exec(START, acts);
            && s.threads == Cast(End, End) && 1 in s.t.rows && s.t.rows[1].status == Running && s.t.rows[1].pid == YES.pid
            && RestoreCount(Of(s.t.history, 1)) == 1
  {
    var first, t := TwoResumes();
    var other := YES.(pid := 10);
    TwoOutcomes(first, t, YES, other);
    TimesOnce(first, Run(1, YES));
    TimesOnce(first + [Run(1, YES)], Run(2, other));
    acts := first + [Run(1, YES)] + [Run(2, other)];
    var pc1, pc2 := Read(1, RestoreUpdate(YES), "u", ThenEnd), Read(1, RestoreUpdate(other), "u", ThenEnd);
    var more := BothUpdate(true, acts, t, Cast(pc1, pc2));
    CastMoves(pc1, pc2, End);
    CastMoves(End, pc2, End);
    Stored(t, RestoreUpdate(YES), RestoreUpdate(other));
    TimesGrow(START, acts, more, 1, Started);
    acts := acts + more;
  }

  /** The first pid is stored, the second refused. */
  lemma Stored(t: Table, u1: Update, u2: Update)
    requires Pending(t) && u1.SetPid? && u2.SetPid?
    ensures var t' := t.Updated(1, u1, "u");
            && t'.Updated(1, u2, "u") == t'
            && 1 in t'.rows && t'.rows[1].status == Running && t'.rows[1].pid == u1.pid
            && RestoreCount(Of(t'.history, 1)) == 1
  {
    var e := Entry(1, RestorePending, Running, "u");
    OneEntry(t.history[0]);
    OfAppend(t.history, e, 1);
    RestoreCountAppend(t.history, e);
    assert t.Updated(1, u1, "u").history == t.history + [e];
  }

  lemma TimesOnce(acts: seq<Action>, a: Action)
    requires Meets(Exec(START, acts), a, 1, Started)
    ensures Times(START, acts + [a], 1, Started) == Times(START, acts, 1, Started) + 1
  {
    assert (acts + [a])[..|acts|] == acts;
  }

  lemma PauseTurn(atomic: bool, acts: seq<Action>, t: Table, threads: map<nat, Thread>, p: nat)
    requires Scene(atomic, acts, t, threads) && (atomic ==> NoCommit(threads)) && p in threads && threads[p].pc.PauseLatch?
    ensures Scene(atomic, acts + [Run(p, YES)], t, Moved(threads, p, PauseGet(threads[p].pc.name, threads[p].pc.actor)))
  {
    var _ := Turn(atomic, acts, t, threads, p, YES);
  }

  const GET := PauseGet("1", "u")
  const PAUSING := Read(1, SetStatus(CheckpointInProgress, ""), "u", ThenDump)

  /** Two pauses have both passed the latch. */
  lemma BothPass() returns (acts: seq<Action>)
    ensures Scene(true, acts, EMPTY.Insert(JobOf(JOIN)), Cast(GET, GET))
  {
    var r, t := Pause("1", "u"), EMPTY.Insert(JobOf(JOIN));
    acts := Faced(JOIN, r, r);
    CastMoves(Begin(r), Begin(r), GET);
    CastMoves(GET, Begin(r), GET);
    PauseTurn(true, acts, t, Cast(Begin(r), Begin(r)), 1);
    PauseTurn(true, acts + [Run(1, YES)], t, Cast(GET, Begin(r)), 2);
    acts := acts + [Run(1, YES)] + [Run(2, YES)];
  }

  /** Both have found the job RUNNING. */
  lemma BothPause() returns (acts: seq<Action>)
    ensures Scene(true, acts, EMPTY.Insert(JobOf(JOIN)), Cast(PAUSING, PAUSING))
  {
    var t := EMPTY.Insert(JobOf(JOIN));
    acts := BothPass();
    NamesOne(t);
    BothLook(true, acts, t, GET, GET);
    acts := acts + [Run(1, YES)] + [Run(2, YES)];
  }

  /** The mark of the second is refused, and both go on to dump the job. */
  lemma TwoPauses() returns (acts: seq<Action>, t: Table)
    ensures Scene(true, acts, t, Cast(Dump(1, "u"), Dump(1, "u")))
    ensures 1 in t.rows && t.rows[1].status == CheckpointInProgress
  {
    var t0, dump := EMPTY.Insert(JobOf(JOIN)), Dump(1, "u");
    acts := BothPause();
    MarkedOnce(t0, PAUSING);
    var more := BothUpdate(true, acts, t0, Cast(PAUSING, PAUSING));
    CastMoves(PAUSING, PAUSING, dump);
    CastMoves(dump, PAUSING, dump);
    acts, t := acts + more, t0.Updated(1, SetStatus(CheckpointInProgress, ""), "u");
  }

  lemma DumpTurn(atomic: bool, acts: seq<Action>, t: Table, threads: map<nat, Thread>, p: nat, c: Choice)
    requires Scene(atomic, acts, t, threads) && (atomic ==> NoCommit(threads)) && p in threads
    requires threads[p].pc.Dump? && Plausible(c)
    ensures var pc := threads[p].pc;
            Scene(atomic, acts + [Run(p, c)], t, Moved(threads, p, Read(pc.id, DumpUpdate(c), pc.actor, ThenEnd)))
  {
    var _ := Turn(atomic, acts, t, threads, p, c);
  }

  /** The first dump succeeds and is recorded while the second is still to come. */
  lemma FirstDump() returns (acts: seq<Action>, t: Table)
    ensures Scene(true, acts, t, Cast(End, Dump(1, "u"))) && 1 in t.rows && t.rows[1].status == CheckpointCreated
  {
    var first, t0 := TwoPauses();
    var dump, pc := Dump(1, "u"), Read(1, DumpUpdate(YES), "u", ThenEnd);
    CastMoves(dump, dump, pc);
    CastMoves(pc, dump, End);
    DumpTurn(true, first, t0, Cast(dump, dump), 1, YES);
    var more := Updates(true, first + [Run(1, YES)], t0, Cast(pc, dump), 1);
    acts, t := first + [Run(1, YES)] + more, t0.Updated(1, DumpUpdate(YES), "u");
  }

  /** A lost image, with every update one step: of two pauses the first dumps the job and has it CHECKPOINT_CREATED, and
      the second, whose mark was refused, fails and leaves nothing in the directory. */
  lemma LateDump(found: Image) returns (acts: seq<Action>)
    ensures Atomic(START, acts)
    ensures var s := Exec(START, acts);
            s.threads == Cast(End, End) && 1 in s.t.rows && s.t.rows[1].status == CheckpointCreated
    ensures CopyOf(START, acts, 1, found).image == None
  {
    var first, t := FirstDump();
    var dump, pc := Dump(1, "u"), Read(1, DumpUpdate(NO), "u", ThenEnd);
    DumpTurn(true, first, t, Cast(End, dump), 2, NO);
    CastMoves(End, dump, pc);
    Emptied(first, Run(2, NO), found);
    var more := Updates(true, first + [Run(2, NO)], t, Cast(End, pc), 2);
    CastMoves(End, pc, End);
    acts := first + [Run(2, NO)] + more;
  }

  lemma Emptied(acts: seq<Action>, a: Action, found: Image)
    requires Dumps(Exec(START, acts), a, 1) && a.c == NO
    ensures CopyOf(START, acts + [a], 1, found).image == None
  {
    assert (acts + [a])[..|acts|] == acts;
  }

  // ---------------------------------------------------------------- a stale mark

  lemma ReadTurn(acts: seq<Action>, t: Table, threads: map<nat, Thread>, p: nat, pc: Pc)
    requires Scene(false, acts, t, threads) && p in threads && threads[p].pc == pc && pc.Read? && t.Accepts(pc.id, pc.u)
    ensures Scene(false, acts + [Run(p, YES)], t,
                  Moved(threads, p, Commit(pc.id, t.rows[pc.id].status, pc.u, pc.actor, pc.next)))
  {
    var _ := Turn(false, acts, t, threads, p, YES);
  }

  lemma RestoreTurn(acts: seq<Action>, t: Table, threads: map<nat, Thread>, p: nat, c: Choice)
    requires Scene(false, acts, t, threads) && p in threads && threads[p].pc == Restore(1, "u") && Plausible(c)
    ensures Scene(false, acts + [Run(p, c)], t, Moved(threads, p, Read(1, RestoreUpdate(c), "u", ThenEnd)))
    ensures forall found :: CopyOf(START, acts + [Run(p, c)], 1, found) == CopyOf(START, acts, 1, found)
  {
    var _ := Turn(false, acts, t, threads, p, c);
    CopyStays(acts, Run(p, c));
  }

  /** A whole resume from its mark on. */
  lemma Resumes(acts: seq<Action>, t: Table, threads: map<nat, Thread>, p: nat, c: Choice)
      returns (more: seq<Action>, t': Table)
    requires Scene(false, acts, t, threads) && p in threads && threads[p].pc == Restore(1, "u") && Plausible(c)
    requires 1 in t.rows && t.rows[1].status == RestorePending
    ensures Scene(false, acts + more, t', Moved(threads, p, End))
    ensures t' == t.Updated(1, RestoreUpdate(c), "u") && 1 in t'.rows && t'.rows[1].status == RestoreUpdate(c).To()
    ensures forall found :: CopyOf(START, acts + more, 1, found) == CopyOf(START, acts, 1, found)
  {
    var pc := Read(1, RestoreUpdate(c), "u", ThenEnd);
    RestoreTurn(acts, t, threads, p, c);
    var m := Updates(false, acts + [Run(p, c)], t, Moved(threads, p, pc), p);
    assert Moved(Moved(threads, p, pc), p, End) == Moved(threads, p, End);
    more, t' := [Run(p, c)] + m, t.Updated(1, RestoreUpdate(c), "u");
    assert acts + [Run(p, c)] + m == acts + more;
  }

  /** One resume has validated its mark, and the other has then resumed the job. */
  lemma ValidatedThenResumed() returns (acts: seq<Action>, t: Table)
    ensures Scene(false, acts, t, Cast(MARKING, End)) && 1 in t.rows && t.rows[1].status == Running
  {
    var t0, restore := EMPTY.Insert(JobOf(ADOPT)), Restore(1, "u");
    var a := BothResume();
    ReadTurn(a, t0, Cast(MARK, MARK), 1, MARK);
    CastMoves(MARK, MARK, MARKING);
    a := a + [Run(1, YES)];
    var m1 := Updates(false, a, t0, Cast(MARKING, MARK), 2);
    CastMoves(MARKING, MARK, restore);
    var t1 := t0.Updated(1, SetStatus(RestorePending, ""), "u");
    var m2, t2 := Resumes(a + m1, t1, Cast(MARKING, restore), 2, YES);
    CastMoves(MARKING, restore, End);
    acts, t := a + m1 + m2, t2;
  }

  /** A pause finds the job RUNNING, */
  lemma PauseFinds(acts: seq<Action>, t: Table, threads: map<nat, Thread>) returns (more: seq<Action>)
    requires Scene(false, acts, t, threads) && 3 !in threads && 1 in t.rows && t.rows[1].status == Running
    ensures Scene(false, acts + more, t, threads[3 := Thread(false, PAUSING)])
  {
    var r, a := Pause("1", "u"), [Run(3, YES)];
    var threads' := threads[3 := Thread(false, Begin(r))];
    NamesOne(t);
    Enter(false, acts, t, threads, 3, r);
    PauseTurn(false, acts + [Arrive(3, r)], t, threads', 3);
    GetTurn(false, acts + [Arrive(3, r)] + a, t, Moved(threads', 3, GET), 3);
    MovedAgain(threads', 3, GET, PAUSING);
    more := [Arrive(3, r)] + a + a;
    assert acts + [Arrive(3, r)] + a + a == acts + more;
    assert Moved(threads', 3, PAUSING) == threads[3 := Thread(false, PAUSING)];
  }

  /** marks it, */
  lemma PauseMarks(acts: seq<Action>, t: Table, threads: map<nat, Thread>) returns (more: seq<Action>, t': Table)
    requires Scene(false, acts, t, threads) && 3 !in threads && 1 in t.rows && t.rows[1].status == Running
    ensures Scene(false, acts + more, t', threads[3 := Thread(false, Dump(1, "u"))])
    ensures 1 in t'.rows && t'.rows[1].status == CheckpointInProgress
  {
    var m1 := PauseFinds(acts, t, threads);
    var m2 := Updates(false, acts + m1, t, threads[3 := Thread(false, PAUSING)], 3);
    more, t' := m1 + m2, t.Updated(1, SetStatus(CheckpointInProgress, ""), "u");
    assert acts + m1 + m2 == acts + more;
    assert Moved(threads[3 := Thread(false, PAUSING)], 3, Dump(1, "u")) == threads[3 := Thread(false, Dump(1, "u"))];
  }

  lemma VainDump(acts: seq<Action>, t: Table, threads: map<nat, Thread>, found: Image)
    requires Scene(false, acts, t, threads) && 3 in threads && threads[3].pc == Dump(1, "u")
    ensures Scene(false, acts + [Run(3, NO)], t, Moved(threads, 3, Read(1, DumpUpdate(NO), "u", ThenEnd)))
    ensures CopyOf(START, acts + [Run(3, NO)], 1, found).image == None
  {
    DumpTurn(false, acts, t, threads, 3, NO);
    Emptied(acts, Run(3, NO), found);
  }

  lemma FailureStored(acts: seq<Action>, t: Table, threads: map<nat, Thread>, u: Update)
      returns (more: seq<Action>, t': Table)
    requires 3 in threads && Scene(false, acts, t, Moved(threads, 3, Read(1, u, "u", ThenEnd)))
    requires 1 in t.rows && t.rows[1].status == CheckpointInProgress && u.To() == CheckpointCreationFailed
    ensures Scene(false, acts + more, t', Moved(threads, 3, End))
    ensures 1 in t'.rows && t'.rows[1].status == CheckpointCreationFailed
    ensures forall found :: CopyOf(START, acts + more, 1, found) == CopyOf(START, acts, 1, found)
  {
    var pc := Read(1, u, "u", ThenEnd);
    MovedAgain(threads, 3, pc, End);
    more := Updates(false, acts, t, Moved(threads, 3, pc), 3);
    t' := t.Updated(1, u, "u");
  }

  /** and its dump fails and leaves nothing. */
  lemma PauseFails(acts: seq<Action>, t: Table, threads: map<nat, Thread>, found: Image)
      returns (more: seq<Action>, t': Table)
    requires Scene(false, acts, t, threads) && 3 in threads && threads[3].pc == Dump(1, "u")
    requires 1 in t.rows && t.rows[1].status == CheckpointInProgress
    ensures Scene(false, acts + more, t', Moved(threads, 3, End))
    ensures 1 in t'.rows && t'.rows[1].status == CheckpointCreationFailed
    ensures CopyOf(START, acts + more, 1, found).image == None
  {
    VainDump(acts, t, threads, found);
    var m;
    m, t' := FailureStored(acts + [Run(3, NO)], t, threads, DumpUpdate(NO));
    more := [Run(3, NO)] + m;
    Joined(acts, Run(3, NO), m);
  }

  lemma Joined(acts: seq<Action>, a: Action, m: seq<Action>)
    ensures acts + [a] + m == acts + ([a] + m)
  {
  }

  /** The first resume is about to commit its mark to a job whose image is gone. */
  lemma AboutToRegain(found: Image) returns (acts: seq<Action>, t: Table, threads: map<nat, Thread>)
    ensures threads == Cast(MARKING, End)[3 := Thread(false, End)] && Scene(false, acts, t, threads)
    ensures 1 in t.rows && t.rows[1].status == CheckpointCreationFailed && CopyOf(START, acts, 1, found).image == None
  {
    var a, t0 := ValidatedThenResumed();
    var m1, t1 := PauseMarks(a, t0, Cast(MARKING, End));
    var dumping := Cast(MARKING, End)[3 := Thread(false, Dump(1, "u"))];
    var m2, t2 := PauseFails(a + m1, t1, dumping, found);
    acts, t, threads := a + m1 + m2, t2, Moved(dumping, 3, End);
    assert threads == Cast(MARKING, End)[3 := Thread(false, End)];
  }

  /** A lost image without a spoiled one: a resume validates its mark, another resumes the job, a pause dumps it in vain,
      and the first then commits its mark. mark ends with that commit; after all of acts the restore has failed, and
      the job is RESTORE_FAILED, that is, resumable, with nothing in its directory. */
  lemma StaleMark(found: Image) returns (mark: seq<Action>, acts: seq<Action>)
    ensures mark != [] && mark <= acts
    ensures var front := mark[..|mark| - 1];
            Regains(Exec(START, front), mark[|mark| - 1], 1, CopyOf(START, front, 1, found))
    ensures var s := Exec(START, acts);
            1 in s.t.rows && s.t.rows[1].status == RestoreFailed && CopyOf(START, acts, 1, found).image == None
  {
    var first, t, threads := AboutToRegain(found);
    var t' := RegainingCommit(first, t, threads, found);
    mark := first + [Run(1, YES)];
    assert mark[..|mark| - 1] == first;
    var more, _ := Resumes(mark, t', Moved(threads, 1, Restore(1, "u")), 1, NO);
    acts := mark + more;
  }

  lemma RegainingCommit(acts: seq<Action>, t: Table, threads: map<nat, Thread>, found: Image) returns (t': Table)
    requires threads == Cast(MARKING, End)[3 := Thread(false, End)] && Scene(false, acts, t, threads)
    requires 1 in t.rows && t.rows[1].status == CheckpointCreationFailed && CopyOf(START, acts, 1, found).image == None
    ensures Regains(Exec(START, acts), Run(1, YES), 1, CopyOf(START, acts, 1, found))
    ensures Scene(false, acts + [Run(1, YES)], t', Moved(threads, 1, Restore(1, "u")))
    ensures 1 in t'.rows && t'.rows[1].status == RestorePending
    ensures CopyOf(START, acts + [Run(1, YES)], 1, found).image == None
  {
    CommitsNext(false, acts, t, threads, 1, MARKING);
    CopyStays(acts, Run(1, YES));
    t' := t.Commit(1, CheckpointCreated, SetStatus(RestorePending, ""), "u");
  }

  // ---------------------------------------------------------------- two adopts

  function Pair(pc1: Pc, pc2: Pc): map<nat, Thread> {
    map[1 := Thread(false, pc1), 2 := Thread(false, pc2)]
  }

  lemma PairMoves(pc1: Pc, pc2: Pc, pc: Pc)
    ensures Moved(Pair(pc1, pc2), 1, pc) == Pair(pc, pc2) && Moved(Pair(pc1, pc2), 2, pc) == Pair(pc1, pc)
  {
  }

  lemma AdoptTurn(atomic: bool, acts: seq<Action>, t: Table, threads: map<nat, Thread>, p: nat, pc: Pc)
    requires Scene(atomic, acts, t, threads) && (atomic ==> NoCommit(threads)) && p in threads
    requires threads[p].pc.AdoptLatch? || threads[p].pc.AdoptScan?
    requires threads[p].pc.job.dir != [] && !t.Occupied(threads[p].pc.job.dir)
    requires pc == if threads[p].pc.AdoptLatch? then AdoptScan(threads[p].pc.job) else AdoptInsert(threads[p].pc.job)
    ensures Scene(atomic, acts + [Run(p, YES)], t, Moved(threads, p, pc))
  {
    var _ := Turn(atomic, acts, t, threads, p, YES);
  }

  lemma InsertTurn(atomic: bool, acts: seq<Action>, t: Table, threads: map<nat, Thread>, p: nat)
    requires Scene(atomic, acts, t, threads) && (atomic ==> NoCommit(threads)) && p in threads && threads[p].pc.AdoptInsert?
    ensures Scene(atomic, acts + [Run(p, YES)], t.Insert(threads[p].pc.job), Moved(threads, p, End))
  {
    var _ := Turn(atomic, acts, t, threads, p, YES);
  }

  /** Both adopts take the same step, neither having inserted its job. */
  lemma BothAdopt(acts: seq<Action>, j: Job, pc: Pc, pc': Pc)
    requires Scene(true, acts, EMPTY, Pair(pc, pc)) && j.dir != []
    requires (pc == AdoptLatch(j) && pc' == AdoptScan(j)) || (pc == AdoptScan(j) && pc' == AdoptInsert(j))
    ensures Scene(true, acts + [Run(1, YES)] + [Run(2, YES)], EMPTY, Pair(pc', pc'))
  {
    PairMoves(pc, pc, pc');
    PairMoves(pc', pc, pc');
    AdoptTurn(true, acts, EMPTY, Pair(pc, pc), 1, pc');
    AdoptTurn(true, acts + [Run(1, YES)], EMPTY, Pair(pc', pc), 2, pc');
  }

  lemma BothInsert(acts: seq<Action>, j: Job)
    requires Scene(true, acts, EMPTY, Pair(AdoptInsert(j), AdoptInsert(j)))
    ensures Scene(true, acts + [Run(1, YES)] + [Run(2, YES)], EMPTY.Insert(j).Insert(j), Pair(End, End))
  {
    PairMoves(AdoptInsert(j), AdoptInsert(j), End);
    PairMoves(End, AdoptInsert(j), End);
    InsertTurn(true, acts, EMPTY, Pair(AdoptInsert(j), AdoptInsert(j)), 1);
    InsertTurn(true, acts + [Run(1, YES)], EMPTY.Insert(j), Pair(End, AdoptInsert(j)), 2);
  }

  /** Two adopts of one directory have come in. */
  lemma BothAsked() returns (acts: seq<Action>)
    ensures acts == [Arrive(1, ADOPT)] + [Arrive(2, ADOPT)]
    ensures Scene(true, acts, EMPTY, Pair(AdoptLatch(JobOf(ADOPT)), AdoptLatch(JobOf(ADOPT))))
  {
    Enter(true, [], EMPTY, map[], 1, ADOPT);
    Enter(true, [] + [Arrive(1, ADOPT)], EMPTY, map[1 := Thread(false, Begin(ADOPT))], 2, ADOPT);
    acts := [] + [Arrive(1, ADOPT)] + [Arrive(2, ADOPT)];
  }

  /** Prompt scans are needed: two adopts of one directory outside the base both pass the scan, and both jobs are active
      in that directory. */
  lemma DoubleAdopt() returns (acts: seq<Action>)
    ensures Atomic(START, acts) && forall i :: 0 <= i < |acts| ==> UsualArrival(START.base, acts[i])
    ensures var t := Exec(START, acts).t;
            && 1 in t.rows && 2 in t.rows && t.rows[1].dir == t.rows[2].dir == ADOPT.dir
            && t.rows[1].status == CheckpointCreated && t.rows[2].status == CheckpointCreated && !Separate(t)
  {
    var asked := BothAsked();
    var more := BothAdopted(asked, JobOf(ADOPT));
    acts := asked + more;
    SharedByTwo(JobOf(ADOPT));
    UsualAdopts(asked, more);
  }

  lemma BothAdopted(acts: seq<Action>, j: Job) returns (more: seq<Action>)
    requires Scene(true, acts, EMPTY, Pair(AdoptLatch(j), AdoptLatch(j))) && j.dir != []
    ensures Scene(true, acts + more, EMPTY.Insert(j).Insert(j), Pair(End, End)) && forall a :: a in more ==> a.Run?
  {
    var a, b := [Run(1, YES)], [Run(2, YES)];
    BothAdopt(acts, j, AdoptLatch(j), AdoptScan(j));
    BothAdopt(acts + a + b, j, AdoptScan(j), AdoptInsert(j));
    BothInsert(acts + a + b + a + b, j);
    more := a + b + a + b + a + b;
    assert acts + more == acts + a + b + a + b + a + b;
  }

  lemma SharedByTwo(j: Job)
    requires j.dir != [] && !IsTerminal(j.status)
    ensures var t := EMPTY.Insert(j).Insert(j); 1 in t.rows && 2 in t.rows && t.rows[1] == t.rows[2] == j && !Separate(t)
  {
    var t := EMPTY.Insert(j).Insert(j);
    assert t.rows[1] == t.rows[2] == j;
  }

  lemma UsualAdopts(asked: seq<Action>, more: seq<Action>)
    requires asked == [Arrive(1, ADOPT)] + [Arrive(2, ADOPT)] && forall a :: a in more ==> a.Run?
    ensures forall i :: 0 <= i < |asked + more| ==> UsualArrival(START.base, (asked + more)[i])
  {
    OutsideBase();
    forall i | 0 <= i < |asked + more|
      ensures UsualArrival(START.base, (asked + more)[i])
    {
      assert i < 2 || (asked + more)[i] in more;
    }
  }

  // ---------------------------------------------------------------- a revival

  const CANCELING := Read(1, SetStatus(Canceled, ""), "u", ThenEnd)

  /** A resume and a cancel of an adopted job have both looked it up. */
  lemma ResumeAndCancel() returns (acts: seq<Action>)
    ensures Scene(true, acts, EMPTY.Insert(JobOf(ADOPT)), Cast(MARK, CANCELING))
    ensures forall a :: a in acts ==> UsualArrival(START.base, a)
  {
    var r1, r2, t := Resume("1", "u"), Cancel("1", "u"), EMPTY.Insert(JobOf(ADOPT));
    var first := Faced(ADOPT, r1, r2);
    UsualFirst(first, r1, r2);
    NamesOne(t);
    BothLook(true, first, t, Begin(r1), Begin(r2));
    acts := first + [Run(1, YES)] + [Run(2, YES)];
  }

  lemma UsualFirst(acts: seq<Action>, r1: Request, r2: Request)
    requires !r1.Register? && !r1.Adopt? && !r2.Register? && !r2.Adopt?
    requires forall a :: a in acts ==> a.Run? || a == Arrive(0, ADOPT) || a == Arrive(1, r1) || a == Arrive(2, r2)
    ensures forall a :: a in acts ==> UsualArrival(START.base, a)
  {
    OutsideBase();
  }

  lemma OutsideBase()
    ensures !(START.base <= ADOPT.dir)
  {
    assert START.base == ["b"] && ADOPT.dir == ["d"];
    assert ["b"][0] != ["d"][0] by {
      assert "b"[0] != "d"[0];
    }
  }

  /** The resume has validated its mark, and the cancel has then gone through. */
  lemma ValidatedThenCanceled() returns (acts: seq<Action>, t: Table)
    ensures Scene(false, acts, t, Cast(MARKING, End)) && forall a :: a in acts ==> UsualArrival(START.base, a)
    ensures t.lastId == 1 && t.rows == map[1 := JobOf(ADOPT).(status := Canceled)]
  {
    var t0 := EMPTY.Insert(JobOf(ADOPT));
    acts := ResumeAndCancel();
    ReadTurn(acts, t0, Cast(MARK, CANCELING), 1, MARK);
    CastMoves(MARK, CANCELING, MARKING);
    acts := acts + [Run(1, YES)];
    var more := Updates(false, acts, t0, Cast(MARKING, CANCELING), 2);
    CastMoves(MARKING, CANCELING, End);
    acts, t := acts + more, t0.Updated(1, SetStatus(Canceled, ""), "u");
  }

  /** The other clash: a resume validates its mark, a cancel ends the job, its directory is adopted again, and the resume
      then commits its mark. Both jobs are active in one directory. */
  lemma RevivalRace() returns (acts: seq<Action>)
    ensures acts != [] && forall i :: 0 <= i < |acts| ==> UsualArrival(START.base, acts[i])
    ensures var front := Exec(START, acts[..|acts| - 1]);
            1 in front.threads && Revival(front.t, front.threads[1].pc) && acts[|acts| - 1] == Run(1, YES)
    ensures var t := Exec(START, acts).t;
            && 1 in t.rows && 2 in t.rows && t.rows[1].dir == t.rows[2].dir == ADOPT.dir
            && t.rows[1].status == RestorePending && t.rows[2].status == CheckpointCreated && !Separate(t)
  {
    var first, t := ValidatedThenCanceled();
    var more := AdoptsWhole(false, first, t, Cast(MARKING, End), 3, ADOPT);
    OutsideBase();
    var threads := Cast(MARKING, End)[3 := Thread(false, End)];
    CommitsNext(false, first + more, t.Insert(JobOf(ADOPT)), threads, 1, MARKING);
    acts := first + more + [Run(1, YES)];
    assert acts[..|acts| - 1] == first + more;
    forall i | 0 <= i < |acts|
      ensures UsualArrival(START.base, acts[i])
    {
      assert acts[i] in first || acts[i] in more || acts[i].Run?;
    }
    Revived(t);
  }

  lemma Revived(t: Table)
    requires t.lastId == 1 && t.rows == map[1 := JobOf(ADOPT).(status := Canceled)]
    ensures var t1 := t.Insert(JobOf(ADOPT));
            var t2 := t1.Commit(1, CheckpointCreated, SetStatus(RestorePending, ""), "u");
            && Revival(t1, MARKING) && 1 in t2.rows && 2 in t2.rows && t2.rows[1].dir == t2.rows[2].dir == ADOPT.dir
            && t2.rows[1].status == RestorePending && t2.rows[2].status == CheckpointCreated && !Separate(t2)
  {
    var t1 := t.Insert(JobOf(ADOPT));
    var t2 := t1.Commit(1, CheckpointCreated, SetStatus(RestorePending, ""), "u");
    assert 2 in t1.rows && !IsTerminal(t1.rows[2].status) && t1.rows[2].dir == t1.rows[1].dir;
    assert t2.rows[1].dir == t2.rows[2].dir;
  }
}
