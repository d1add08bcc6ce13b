/** The fan-out's own machinery: the semaphore, the wait-group, progress and termination, with any handlers running
    beside it. */
module FanOut {
  import opened Lifecycle
  import opened JobTable
  import opened Requests
  import opened Machine

  /** The stages of checkpointJob on behalf of the fan-out, for the job at one place of the plan. */
  predicate WorkerAt(pc: Pc, id: int) {
    match pc
    case Read(i, u, actor, ThenDump) => pc == Marking(id)
    case Commit(i, _, u, actor, ThenDump) =>
      i == id && u == SetStatus(CheckpointInProgress, "") && actor == DAEMON_ACTOR
    case Dump(i, actor) => i == id && actor == DAEMON_ACTOR
    case Read(i, u, actor, ThenEnd) => i == id && IsDumpUpdate(u) && actor == DAEMON_ACTOR
    case Commit(i, _, u, actor, ThenEnd) => i == id && IsDumpUpdate(u) && actor == DAEMON_ACTOR
    case End => true
    case Released => true
    case Gone => true
    case _ => false
  }

  predicate IsDumpUpdate(u: Update) {
    u.SetStatus? && (u.status == CheckpointCreated || u.status == CheckpointCreationFailed)
  }

  /** What is added up over the workers: those holding a token, those between the token and the wait-group, and the
      steps left to all of them. */
  datatype Tally = Holding | Leaving | Remaining

  function Weight(pc: Pc, tally: Tally): nat {
    match tally
    case Holding => if pc == Released || pc == Gone then 0 else 1
    case Leaving => if pc == Released then 1 else 0
    case Remaining =>
      match pc
      case Read(_, _, _, ThenDump) => 7
      case Commit(_, _, _, _, ThenDump) => 6
      case Dump(_, _) => 5
      case Read(_, _, _, _) => 4
      case Commit(_, _, _, _, _) => 3
      case End => 2
      case Released => 1
      case _ => 0
  }

  ghost predicate Distinct(ws: seq<nat>) {
    forall i, k :: 0 <= i < k < |ws| ==> ws[i] != ws[k]
  }

  function Total(ws: seq<nat>, threads: map<nat, Thread>, tally: Tally): nat {
    if ws == [] then 0
    else
      var last := ws[|ws| - 1];
      Total(ws[..|ws| - 1], threads, tally) + (if last in threads then Weight(threads[last].pc, tally) else 0)
  }

  lemma {:induction false} TotalElsewhere(ws: seq<nat>, threads: map<nat, Thread>, p: nat, th: Thread, tally: Tally)
    requires p !in ws
    ensures Total(ws, threads[p := th], tally) == Total(ws, threads, tally)
  {
    if ws == [] {
    } else {
      TotalElsewhere(ws[..|ws| - 1], threads, p, th, tally);
    }
  }

  lemma {:induction false} TotalMoves(ws: seq<nat>, threads: map<nat, Thread>, p: nat, th: Thread, tally: Tally)
    requires Distinct(ws) && p in ws && p in threads
    ensures Total(ws, threads[p := th], tally) + Weight(threads[p].pc, tally) ==
            Total(ws, threads, tally) + Weight(th.pc, tally)
  {
    var n := |ws| - 1;
    if ws[n] == p {
      TotalElsewhere(ws[..n], threads, p, th, tally);
    } else {
      assert p in ws[..n];
      TotalMoves(ws[..n], threads, p, th, tally);
    }
  }

  lemma TotalGrows(ws: seq<nat>, threads: map<nat, Thread>, p: nat, th: Thread, tally: Tally)
    requires p !in ws
    ensures Total(ws + [p], threads[p := th], tally) == Total(ws, threads, tally) + Weight(th.pc, tally)
  {
    assert (ws + [p])[..|ws|] == ws;
    TotalElsewhere(ws, threads, p, th, tally);
  }

  lemma {:induction false} SomeWorker(ws: seq<nat>, threads: map<nat, Thread>, tally: Tally) returns (i: nat)
    requires Total(ws, threads, tally) > 0
    ensures i < |ws| && ws[i] in threads && Weight(threads[ws[i]].pc, tally) > 0
  {
    var n := |ws| - 1;
    if ws[n] in threads && Weight(threads[ws[n]].pc, tally) > 0 {
      i := n;
    } else {
      i := SomeWorker(ws[..n], threads, tally);
    }
  }

  lemma {:induction false} WorkerCounts(ws: seq<nat>, threads: map<nat, Thread>, tally: Tally, i: nat)
    requires i < |ws| && ws[i] in threads
    ensures Weight(threads[ws[i]].pc, tally) <= Total(ws, threads, tally)
  {
    var n := |ws| - 1;
    if i < n {
      WorkerCounts(ws[..n], threads, tally, i);
    }
  }

  predicate Active(fan: Fan) {
    fan.pc == Adding || fan.pc == Acquiring || fan.pc == Spawning || fan.pc == Waiting
  }

  /** The crew: every thread of the fan-out's is at its place in checkpointJob, and no other worker is left over. */
  ghost predicate CrewOk(plan: seq<int>, workers: seq<nat>, threads: map<nat, Thread>) {
    && |workers| <= |plan|
    && Distinct(workers)
    && (forall i :: 0 <= i < |workers| ==> OnDuty(workers[i], plan[i], threads))
    && (forall p :: p in threads && p !in workers ==> OffDuty(threads[p]))
  }

  predicate OnDuty(p: nat, id: int, threads: map<nat, Thread>) {
    p in threads && threads[p].worker && WorkerAt(threads[p].pc, id)
  }

  predicate OffDuty(th: Thread) {
    if th.worker then th.pc == Gone else th.pc != Released
  }

  /** The books: tokens and wait-group agree with what the workers and the loop hold. */
  ghost predicate BooksOk(fan: Fan, threads: map<nat, Thread>, max: nat) {
    var holding, leaving := Total(fan.workers, threads, Holding), Total(fan.workers, threads, Leaving);
    && fan.tokens == holding + (if fan.pc == Spawning then 1 else 0)
    && fan.waiting == holding + leaving + (if fan.pc == Acquiring || fan.pc == Spawning then 1 else 0)
    && fan.tokens <= max
    && (fan.pc == Acquiring || fan.pc == Spawning ==> |fan.workers| < |fan.plan|)
    && (fan.pc == Waiting || fan.pc == Returned ==> |fan.workers| == |fan.plan|)
    && (!Active(fan) ==> fan.waiting == 0)
  }

  ghost predicate FanOk(s: State) {
    CrewOk(s.fan.plan, s.fan.workers, s.threads) && BooksOk(s.fan, s.threads, s.max)
  }

  function LoopWeight(pc: FanPc): nat {
    match pc
    case Adding => 3
    case Acquiring => 2
    case Spawning => 1
    case Waiting => 2
    case _ => 0
  }

  /** Steps the fan-out and its workers can still take. */
  function Measure(s: State): nat
    requires |s.fan.workers| <= |s.fan.plan|
  {
    Total(s.fan.workers, s.threads, Remaining) + 11 * (|s.fan.plan| - |s.fan.workers|) + LoopWeight(s.fan.pc)
  }

  lemma WorkerMoves(s: State, i: nat, c: Choice)
    requires FanOk(s) && i < |s.fan.workers|
    ensures var p := s.fan.workers[i];
            var th, pc' := s.threads[p], NextPc(s, s.threads[p], c);
            && WorkerAt(pc', s.fan.plan[i])
            && (th.pc == End ==> pc' == Released) && (th.pc == Released ==> pc' == Gone)
            && (th.pc == Gone ==> pc' == Gone)
            && (th.pc != End && th.pc != Released && th.pc != Gone ==> pc' != Released && pc' != Gone)
            && (th.pc != Gone ==> Weight(pc', Remaining) < Weight(th.pc, Remaining))
  {
    var p := s.fan.workers[i];
    assert WorkerAt(s.threads[p].pc, s.fan.plan[i]);
    WorkerCounts(s.fan.workers, s.threads, Holding, i);
    WorkerCounts(s.fan.workers, s.threads, Leaving, i);
  }

  lemma CrewMoves(plan: seq<int>, workers: seq<nat>, threads: map<nat, Thread>, i: nat, pc: Pc)
    requires CrewOk(plan, workers, threads) && i < |workers| && WorkerAt(pc, plan[i])
    ensures CrewOk(plan, workers, threads[workers[i] := threads[workers[i]].(pc := pc)])
  {
  }

  lemma FanRunWorker(s: State, i: nat, c: Choice)
    requires FanOk(s) && i < |s.fan.workers|
    ensures FanOk(Advance(s, s.fan.workers[i], c))
  {
    var p := s.fan.workers[i];
    var th' := s.threads[p].(pc := NextPc(s, s.threads[p], c));
    WorkerMoves(s, i, c);
    CrewMoves(s.fan.plan, s.fan.workers, s.threads, i, th'.pc);
    TotalMoves(s.fan.workers, s.threads, p, th', Holding);
    TotalMoves(s.fan.workers, s.threads, p, th', Leaving);
  }

  lemma HandlerMoves(s: State, th: Thread, c: Choice)
    requires OffDuty(th)
    ensures NextFan(s.fan, th) == s.fan
    ensures OffDuty(th.(pc := NextPc(s, th, c)))
  {
  }

  lemma FanElsewhere(s: State, p: nat, th: Thread)
    requires FanOk(s) && p !in s.fan.workers
    requires OffDuty(th)
    ensures CrewOk(s.fan.plan, s.fan.workers, s.threads[p := th]) && BooksOk(s.fan, s.threads[p := th], s.max)
  {
    TotalElsewhere(s.fan.workers, s.threads, p, th, Holding);
    TotalElsewhere(s.fan.workers, s.threads, p, th, Leaving);
  }

  lemma FanRunHandler(s: State, p: nat, c: Choice)
    requires FanOk(s) && p in s.threads && p !in s.fan.workers
    ensures FanOk(Advance(s, p, c))
    ensures Advance(s, p, c).fan == s.fan
  {
    HandlerMoves(s, s.threads[p], c);
    FanElsewhere(s, p, s.threads[p].(pc := NextPc(s, s.threads[p], c)));
  }

  lemma CrewGrows(plan: seq<int>, workers: seq<nat>, threads: map<nat, Thread>, p: nat)
    requires CrewOk(plan, workers, threads) && p !in threads && |workers| < |plan|
    ensures CrewOk(plan, workers + [p], threads[p := Thread(true, Marking(plan[|workers|]))])
  {
    var threads' := threads[p := Thread(true, Marking(plan[|workers|]))];
    forall i | 0 <= i < |workers| + 1
      ensures OnDuty((workers + [p])[i], plan[i], threads')
    {
      if i < |workers| {
        assert OnDuty(workers[i], plan[i], threads);
      }
    }
  }

  lemma BooksSpawn(fan: Fan, threads: map<nat, Thread>, max: nat, p: nat, th: Thread)
    requires BooksOk(fan, threads, max) && fan.pc == Spawning && p !in fan.workers
    requires th.pc.Read? && th.pc.next == ThenDump
    ensures BooksOk(fan.(pc := Adding, workers := fan.workers + [p]), threads[p := th], max)
    ensures Total(fan.workers + [p], threads[p := th], Remaining) == Total(fan.workers, threads, Remaining) + 7
  {
    TotalGrows(fan.workers, threads, p, th, Holding);
    TotalGrows(fan.workers, threads, p, th, Leaving);
    TotalGrows(fan.workers, threads, p, th, Remaining);
  }

  lemma FanSpawn(s: State, p: nat)
    requires FanOk(s) && p !in s.threads && s.fan.pc == Spawning
    ensures FanOk(FanStep(s, p))
    ensures Measure(FanStep(s, p)) < Measure(s)
  {
    CrewGrows(s.fan.plan, s.fan.workers, s.threads, p);
    assert p !in s.fan.workers;
    BooksSpawn(s.fan, s.threads, s.max, p, Thread(true, Marking(s.fan.plan[|s.fan.workers|])));
  }

  lemma FanLoop(s: State, p: nat)
    requires FanOk(s)
    ensures FanOk(FanStep(s, p))
    ensures FanStep(s, p) == s || Measure(FanStep(s, p)) < Measure(s)
  {
    if s.fan.pc == Spawning {
      if p !in s.threads {
        FanSpawn(s, p);
      }
    }
  }

  /** When the wait-group is empty every worker is gone. */
  lemma AllGone(s: State)
    requires FanOk(s) && s.fan.waiting == 0
    ensures s.fan.tokens == 0
    ensures forall p :: p in s.threads && s.threads[p].worker ==> s.threads[p].pc == Gone
  {
    forall i | 0 <= i < |s.fan.workers|
      ensures s.threads[s.fan.workers[i]].pc == Gone
    {
      WorkerCounts(s.fan.workers, s.threads, Holding, i);
      WorkerCounts(s.fan.workers, s.threads, Leaving, i);
    }
  }

  lemma FanOkStep(s: State, a: Action)
    requires FanOk(s)
    ensures FanOk(Step(s, a))
  {
    match a
    case Run(p, c) =>
      if p in s.threads && Plausible(c) {
        if p in s.fan.workers {
          var i :| 0 <= i < |s.fan.workers| && s.fan.workers[i] == p;
          FanRunWorker(s, i, c);
        } else {
          FanRunHandler(s, p, c);
        }
      }
    case Arrive(p, r) =>
      if p !in s.threads {
        FanElsewhere(s, p, Thread(false, Begin(r)));
      }
    case Signal =>
    case Snapshot(jobs) =>
      if s.fan.pc == Latched {
        AllGone(s);
      }
    case FanOut(p) => FanLoop(s, p);
  }

  lemma MaxFixed(s: State, a: Action)
    ensures Step(s, a).max == s.max
  {
  }

  lemma {:induction false} FanOkExec(base: Path, max: nat, acts: seq<Action>)
    ensures FanOk(Exec(Init(base, max), acts)) && Exec(Init(base, max), acts).max == max
  {
    if acts == [] {
    } else {
      FanOkExec(base, max, acts[..|acts| - 1]);
      FanOkStep(Exec(Init(base, max), acts[..|acts| - 1]), acts[|acts| - 1]);
      MaxFixed(Exec(Init(base, max), acts[..|acts| - 1]), acts[|acts| - 1]);
    }
  }

  // ---------------------------------------------------------------- the bound, progress and termination

  /** In every reachable state the workers inside checkpointJob hold a token each, there are at most as many tokens
      out as the bound allows, and a fan-out that has returned has no token out, nobody in its wait-group and no
      worker left. */
  lemma SemaphoreDiscipline(base: Path, max: nat, acts: seq<Action>)
    ensures var s := Exec(Init(base, max), acts);
            && |InsideFirst(s, |s.fan.workers|)| <= s.fan.tokens <= max
            && (forall p :: p in s.threads && s.threads[p].worker && p !in s.fan.workers ==> s.threads[p].pc == Gone)
            && (s.fan.pc == Returned ==>
                  && s.fan.tokens == 0 && s.fan.waiting == 0
                  && forall p :: p in s.threads && s.threads[p].worker ==> s.threads[p].pc == Gone)
  {
    FanOkExec(base, max, acts);
    var s := Exec(Init(base, max), acts);
    InsideCount(s, |s.fan.workers|);
    assert s.fan.workers[..|s.fan.workers|] == s.fan.workers;
    if s.fan.pc == Returned {
      AllGone(s);
    }
  }

  /** Callbacks run inline, so the machine takes a signal only between fan-outs. In every reachable state, then, a signal
      during a fan-out starts nothing, and when a fan-out does start the one before it has no token out, nobody in its
      wait-group and no worker left: fan-outs never overlap. */
  lemma {:induction false} FanOutsDoNotOverlap(base: Path, max: nat, acts: seq<Action>)
    ensures var s := Exec(Init(base, max), acts);
            if Active(s.fan) || s.fan.pc == Latched then Step(s, Signal) == s
            else
              && Step(s, Signal).fan.pc == Latched && s.fan.tokens == 0 && s.fan.waiting == 0
              && forall p :: p in s.threads && s.threads[p].worker ==> s.threads[p].pc == Gone
  {
    FanOkExec(base, max, acts);
    var s := Exec(Init(base, max), acts);
    if !Active(s.fan) {
      AllGone(s);
    }
  }

  /** Worker i is inside checkpointJob. */
  predicate Inside(s: State, i: int)
    requires 0 <= i < |s.fan.workers|
  {
    var p := s.fan.workers[i];
    p in s.threads && s.threads[p].pc != End && s.threads[p].pc != Released && s.threads[p].pc != Gone
  }

  ghost function InsideFirst(s: State, n: nat): set<int>
    requires n <= |s.fan.workers|
  {
    set i | 0 <= i < n && Inside(s, i)
  }

  lemma InsideMore(s: State, n: nat)
    requires n < |s.fan.workers|
    ensures InsideFirst(s, n + 1) == InsideFirst(s, n) + (if Inside(s, n) then {n} else {})
  {
  }

  lemma {:induction false} InsideCount(s: State, n: nat)
    requires n <= |s.fan.workers|
    ensures |InsideFirst(s, n)| <= Total(s.fan.workers[..n], s.threads, Holding)
  {
    if n == 0 {
    } else {
      InsideCount(s, n - 1);
      InsideMore(s, n - 1);
      assert s.fan.workers[..n][..n - 1] == s.fan.workers[..n - 1];
    }
  }

  /** The action is a step the fan-out or one of its workers can actually take. */
  predicate Works(s: State, a: Action) {
    match a
    case FanOut(p) => FanStep(s, p) != s
    case Run(p, c) => Plausible(c) && p in s.fan.workers && p in s.threads && s.threads[p].pc != Gone
    case _ => false
  }

  lemma RunMeasure(s: State, p: nat, c: Choice)
    requires FanOk(s) && p in s.threads && Plausible(c)
    ensures FanOk(Advance(s, p, c))
    ensures Measure(Advance(s, p, c)) + (if Works(s, Run(p, c)) then 1 else 0) <= Measure(s)
  {
    var th' := s.threads[p].(pc := NextPc(s, s.threads[p], c));
    if p in s.fan.workers {
      var i :| 0 <= i < |s.fan.workers| && s.fan.workers[i] == p;
      FanRunWorker(s, i, c);
      WorkerMoves(s, i, c);
      TotalMoves(s.fan.workers, s.threads, p, th', Remaining);
    } else {
      FanRunHandler(s, p, c);
      TotalElsewhere(s.fan.workers, s.threads, p, th', Remaining);
    }
  }

  /** Every effective step of the fan-out uses up measure, and no handler adds any. */
  lemma MeasureStep(s: State, a: Action)
    requires FanOk(s) && !a.Snapshot?
    ensures FanOk(Step(s, a))
    ensures Measure(Step(s, a)) + (if Works(s, a) then 1 else 0) <= Measure(s)
  {
    match a
    case Run(p, c) =>
      if p in s.threads && Plausible(c) {
        RunMeasure(s, p, c);
      }
    case Arrive(p, r) =>
      if p !in s.threads {
        FanElsewhere(s, p, Thread(false, Begin(r)));
        TotalElsewhere(s.fan.workers, s.threads, p, Thread(false, Begin(r)), Remaining);
      }
    case Signal =>
    case FanOut(p) => FanLoop(s, p);
  }

  /** How many steps of the fan-out and its workers a schedule holds. */
  ghost function WorkDone(s: State, acts: seq<Action>): nat {
    if acts == [] then 0
    else
      var front := acts[..|acts| - 1];
      WorkDone(s, front) + if Works(Exec(s, front), acts[|acts| - 1]) then 1 else 0
  }

  /** Once its snapshot is taken a fan-out does a bounded amount of work, however handlers interleave with it. */
  lemma {:induction false} BoundedWork(s: State, acts: seq<Action>)
    requires FanOk(s)
    requires forall i :: 0 <= i < |acts| ==> !acts[i].Snapshot?
    ensures FanOk(Exec(s, acts))
    ensures WorkDone(s, acts) + Measure(Exec(s, acts)) <= Measure(s)
  {
    if acts == [] {
    } else {
      BoundedWork(s, acts[..|acts| - 1]);
      MeasureStep(Exec(s, acts[..|acts| - 1]), acts[|acts| - 1]);
    }
  }

  lemma {:induction false} SpareId(ids: set<nat>) returns (p: nat)
    ensures forall q :: q in ids ==> q < p
    decreases |ids|
  {
    if forall q :: q !in ids {
      p := 0;
    } else {
      var q :| q in ids;
      p := SpareId(ids - {q});
      assert ids == (ids - {q}) + {q};
      p := if p <= q then q + 1 else p;
    }
  }

  /** Never stuck: as long as the fan-out has not returned, it or one of its workers can take a step. */
  lemma NoDeadlock(s: State) returns (a: Action)
    requires FanOk(s) && Active(s.fan) && s.max > 0
    ensures Works(s, a) && (a.FanOut? || a.Run?)
  {
    var p := SpareId(s.threads.Keys);
    if (s.fan.pc == Acquiring && s.fan.tokens == s.max) || (s.fan.pc == Waiting && s.fan.waiting > 0) {
      var tally := if Total(s.fan.workers, s.threads, Holding) > 0 then Holding else Leaving;
      var i := SomeWorker(s.fan.workers, s.threads, tally);
      a := Run(s.fan.workers[i], YES);
    } else {
      a := FanOut(p);
    }
  }

  /** Its loop is held up before a worker exactly when as many as the bound allows have their tokens. */
  lemma HeldUpIff(s: State, p: nat)
    requires FanOk(s) && s.fan.pc == Acquiring
    ensures Step(s, FanOut(p)) == s <==> Total(s.fan.workers, s.threads, Holding) == s.max
  {
  }

  /** And so it returns: from every state some schedule of its own steps brings it to the end. */
  lemma {:induction false} ReturnsEventually(s: State) returns (acts: seq<Action>)
    requires FanOk(s) && Active(s.fan) && s.max > 0
    ensures |acts| <= Measure(s) && forall i :: 0 <= i < |acts| ==> acts[i].FanOut? || acts[i].Run?
    ensures Exec(s, acts).fan.pc == Returned
    decreases Measure(s)
  {
    var a := NoDeadlock(s);
    var s1 := Step(s, a);
    MeasureStep(s, a);
    MaxFixed(s, a);
    StaysActive(s, a);
    var rest := [];
    if s1.fan.pc != Returned {
      rest := ReturnsEventually(s1);
    }
    acts := [a] + rest;
    ExecSplit(s, [a], rest);
    assert [a][..0] == [];
  }

  lemma StaysActive(s: State, a: Action)
    requires Active(s.fan) && (a.FanOut? || a.Run?)
    ensures Active(Step(s, a).fan) || Step(s, a).fan.pc == Returned
  {
  }
}
