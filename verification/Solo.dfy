/** The two granularities agree: a handler whose goroutine runs undisturbed does to the tables exactly what the
    whole-request function says. */
module Solo {
  import opened Lifecycle
  import opened JobTable
  import opened Requests
  import opened Machine
  import opened WholeRequests

  /** The state after thread p has taken n steps in a row. */
  ghost function Alone(s: State, p: nat, c: Choice, n: nat): State
    decreases n
  {
    if n == 0 then s else Alone(Step(s, Run(p, c)), p, c, n - 1)
  }

  /** After n steps of its own, handler p has ended and left table t. */
  ghost predicate Ends(s: State, p: nat, c: Choice, n: nat, t: Table) {
    var s' := Alone(s, p, c, n);
    p in s'.threads && s'.threads[p] == Thread(false, End) && s'.t == t
  }

  predicate Handler(s: State, p: nat, c: Choice) {
    p in s.threads && !s.threads[p].worker && Plausible(c)
  }

  lemma OneStep(s: State, p: nat, c: Choice)
    requires Handler(s, p, c)
    ensures var s' := Step(s, Run(p, c));
            && Handler(s', p, c) && s'.latch == s.latch && s'.base == s.base
            && s'.threads[p].pc == NextPc(s, s.threads[p], c) && s'.t == NextTable(s, s.threads[p].pc)
  {
  }

  /** One more step in front. */
  lemma Prefix(s: State, p: nat, c: Choice, n: nat, t: Table)
    requires n > 0 && Ends(Step(s, Run(p, c)), p, c, n - 1, t)
    ensures Ends(s, p, c, n, t)
  {
  }

  lemma {:induction false} Ended(s: State, p: nat, c: Choice, n: nat)
    requires Handler(s, p, c) && s.threads[p].pc == End
    ensures Ends(s, p, c, n, s.t)
    decreases n
  {
    if n > 0 {
      OneStep(s, p, c);
      Ended(Step(s, Run(p, c)), p, c, n - 1);
    }
  }

  lemma ReadAccepted(s: State, p: nat, c: Choice)
    requires Handler(s, p, c) && s.threads[p].pc.Read? && s.t.Accepts(s.threads[p].pc.id, s.threads[p].pc.u)
    ensures var s', pc := Step(s, Run(p, c)), s.threads[p].pc;
            && Handler(s', p, c) && s'.t == s.t
            && s'.threads[p].pc == Commit(pc.id, s.t.rows[pc.id].status, pc.u, pc.actor, pc.next)
  {
    OneStep(s, p, c);
  }

  lemma CommitStep(s: State, p: nat, c: Choice)
    requires Handler(s, p, c) && s.threads[p].pc.Commit?
    ensures var s', pc := Step(s, Run(p, c)), s.threads[p].pc;
            && Handler(s', p, c) && s'.t == s.t.Commit(pc.id, pc.from, pc.u, pc.actor)
            && s'.threads[p].pc == After(pc.next, pc.id, pc.actor)
  {
    OneStep(s, p, c);
  }

  lemma LastCommit(s: State, p: nat, c: Choice, n: nat)
    requires Handler(s, p, c) && n >= 1 && s.threads[p].pc.Commit? && s.threads[p].pc.next == ThenEnd
    ensures var pc := s.threads[p].pc; Ends(s, p, c, n, s.t.Commit(pc.id, pc.from, pc.u, pc.actor))
  {
    var pc := s.threads[p].pc;
    CommitStep(s, p, c);
    Ended(Step(s, Run(p, c)), p, c, n - 1);
    Prefix(s, p, c, n, s.t.Commit(pc.id, pc.from, pc.u, pc.actor));
  }

  lemma LastRefused(s: State, p: nat, c: Choice, n: nat)
    requires Handler(s, p, c) && n >= 1 && s.threads[p].pc.Read? && s.threads[p].pc.next == ThenEnd
    requires !s.t.Accepts(s.threads[p].pc.id, s.threads[p].pc.u)
    ensures Ends(s, p, c, n, s.t)
  {
    OneStep(s, p, c);
    Ended(Step(s, Run(p, c)), p, c, n - 1);
    Prefix(s, p, c, n, s.t);
  }

  /** A last update, accepted or refused. */
  lemma LastUpdate(s: State, p: nat, c: Choice, n: nat)
    requires Handler(s, p, c) && n >= 2
    requires s.threads[p].pc.Read? && s.threads[p].pc.next == ThenEnd
    ensures var pc := s.threads[p].pc; Ends(s, p, c, n, s.t.Updated(pc.id, pc.u, pc.actor))
  {
    var pc := s.threads[p].pc;
    if s.t.Accepts(pc.id, pc.u) {
      ReadAccepted(s, p, c);
      LastCommit(Step(s, Run(p, c)), p, c, n - 1);
      Prefix(s, p, c, n, s.t.Updated(pc.id, pc.u, pc.actor));
    } else {
      LastRefused(s, p, c, n);
    }
  }

  lemma LastCall(s: State, p: nat, c: Choice, n: nat)
    requires Handler(s, p, c) && n >= 3 && (s.threads[p].pc.Dump? || s.threads[p].pc.Restore?)
    ensures var pc := s.threads[p].pc;
            Ends(s, p, c, n, s.t.Updated(pc.id, if pc.Dump? then DumpUpdate(c) else RestoreUpdate(c), pc.actor))
  {
    var pc := s.threads[p].pc;
    OneStep(s, p, c);
    LastUpdate(Step(s, Run(p, c)), p, c, n - 1);
    Prefix(s, p, c, n, s.t.Updated(pc.id, if pc.Dump? then DumpUpdate(c) else RestoreUpdate(c), pc.actor));
  }

  lemma MarkCommit(s: State, p: nat, c: Choice, n: nat, t: Table)
    requires Handler(s, p, c) && n >= 4 && s.threads[p].pc.Commit? && s.threads[p].pc.next != ThenEnd
    requires var pc := s.threads[p].pc;
             var u := if pc.next == ThenDump then DumpUpdate(c) else RestoreUpdate(c);
             t == s.t.Commit(pc.id, pc.from, pc.u, pc.actor).Updated(pc.id, u, pc.actor)
    ensures Ends(s, p, c, n, t)
  {
    CommitStep(s, p, c);
    LastCall(Step(s, Run(p, c)), p, c, n - 1);
    Prefix(s, p, c, n, t);
  }

  /** From its first Read to its end, a checkpoint or restore of a job that may be marked. */
  lemma MarkAndRecord(s: State, p: nat, c: Choice, n: nat, t: Table)
    requires Handler(s, p, c) && n >= 5
    requires s.threads[p].pc.Read? && s.t.Accepts(s.threads[p].pc.id, s.threads[p].pc.u)
    requires s.threads[p].pc.next != ThenEnd
    requires var pc := s.threads[p].pc;
             var u := if pc.next == ThenDump then DumpUpdate(c) else RestoreUpdate(c);
             t == s.t.Updated(pc.id, pc.u, pc.actor).Updated(pc.id, u, pc.actor)
    ensures Ends(s, p, c, n, t)
  {
    ReadAccepted(s, p, c);
    MarkCommit(Step(s, Run(p, c)), p, c, n - 1, t);
    Prefix(s, p, c, n, t);
  }

  lemma KillThenUpdate(s: State, p: nat, c: Choice, n: nat)
    requires Handler(s, p, c) && n >= 3 && s.threads[p].pc.CancelKill?
    ensures var pc := s.threads[p].pc;
            Ends(s, p, c, n, if c.ok then s.t.Updated(pc.id, SetStatus(Canceled, ""), pc.actor) else s.t)
  {
    var pc, s1 := s.threads[p].pc, Step(s, Run(p, c));
    OneStep(s, p, c);
    if c.ok {
      LastUpdate(s1, p, c, n - 1);
    } else {
      Ended(s1, p, c, n - 1);
    }
    Prefix(s, p, c, n, if c.ok then s.t.Updated(pc.id, SetStatus(Canceled, ""), pc.actor) else s.t);
  }

  /** A Get only reads; the handler then goes where AfterGet says. */
  lemma GetStep(s: State, p: nat, c: Choice)
    requires Handler(s, p, c)
    requires var pc := s.threads[p].pc; pc.PauseGet? || pc.ResumeGet? || pc.CancelGet? || pc.CompleteGet?
    ensures var s' := Step(s, Run(p, c));
            Handler(s', p, c) && s'.t == s.t && s'.threads[p].pc == AfterGet(s.t, s.threads[p].pc)
  {
    OneStep(s, p, c);
  }

  /** From AfterGet's answer to the end of a pause or resume, a cancel, a completion. */
  lemma TransferAlone(s: State, p: nat, r: Request, c: Choice, n: nat)
    requires Handler(s, p, c) && n >= 5 && (r.Pause? || r.Resume?)
    requires s.threads[p].pc == AfterGet(s.t, if r.Pause? then PauseGet(r.name, r.actor) else ResumeGet(r.name, r.actor))
    ensures Ends(s, p, c, n, HandleNamed(s.t, r, s.t.Find(r.name), c))
  {
    if s.threads[p].pc == End {
      Ended(s, p, c, n);
    } else {
      MarkAndRecord(s, p, c, n, HandleNamed(s.t, r, s.t.Find(r.name), c));
    }
  }

  lemma ReportAlone(s: State, p: nat, r: Request, c: Choice, n: nat)
    requires Handler(s, p, c) && n >= 5 && (r.Cancel? || r.Complete?)
    requires s.threads[p].pc == AfterGet(s.t, Begin(r))
    ensures Ends(s, p, c, n, HandleNamed(s.t, r, s.t.Find(r.name), c))
  {
    var pc := s.threads[p].pc;
    if pc == End {
      Ended(s, p, c, n);
    } else if pc.Read? {
      LastUpdate(s, p, c, n);
    } else {
      KillThenUpdate(s, p, c, n);
    }
  }

  /** From the Get of a named job to the end. */
  lemma NamedAlone(s: State, p: nat, r: Request, c: Choice, n: nat)
    requires Handler(s, p, c) && n >= 6
    requires r.Pause? || r.Resume? || r.Cancel? || r.Complete?
    requires s.threads[p].pc == if r.Pause? then PauseGet(r.name, r.actor) else Begin(r)
    ensures Ends(s, p, c, n, HandleNamed(s.t, r, s.t.Find(r.name), c))
  {
    GetStep(s, p, c);
    if r.Pause? || r.Resume? {
      TransferAlone(Step(s, Run(p, c)), p, r, c, n - 1);
    } else {
      ReportAlone(Step(s, Run(p, c)), p, r, c, n - 1);
    }
    Prefix(s, p, c, n, HandleNamed(s.t, r, s.t.Find(r.name), c));
  }

  lemma DirAlone(s: State, p: nat, c: Choice, n: nat)
    requires Handler(s, p, c) && n >= 1 && s.threads[p].pc.RegisterDir?
    ensures Ends(s, p, c, n, s.t.WithDir(s.threads[p].pc.id, DefaultDir(s.base, s.threads[p].pc.id)))
  {
    OneStep(s, p, c);
    Ended(Step(s, Run(p, c)), p, c, n - 1);
    Prefix(s, p, c, n, s.t.WithDir(s.threads[p].pc.id, DefaultDir(s.base, s.threads[p].pc.id)));
  }

  lemma RegisterAlone(s: State, p: nat, r: Request, c: Choice, n: nat)
    requires Handler(s, p, c) && n >= 2 && r.Register? && s.threads[p].pc == RegisterInsert(RegisteredJob(r))
    ensures Ends(s, p, c, n, RegisterJob(s.t, s.base, r))
  {
    OneStep(s, p, c);
    if r.dir == [] {
      DirAlone(Step(s, Run(p, c)), p, c, n - 1);
    } else {
      Ended(Step(s, Run(p, c)), p, c, n - 1);
    }
    Prefix(s, p, c, n, RegisterJob(s.t, s.base, r));
  }

  lemma InsertAlone(s: State, p: nat, c: Choice, n: nat)
    requires Handler(s, p, c) && n >= 1 && s.threads[p].pc.AdoptInsert?
    ensures Ends(s, p, c, n, s.t.Insert(s.threads[p].pc.job))
  {
    OneStep(s, p, c);
    Ended(Step(s, Run(p, c)), p, c, n - 1);
    Prefix(s, p, c, n, s.t.Insert(s.threads[p].pc.job));
  }

  lemma AdoptAlone(s: State, p: nat, r: Request, c: Choice, n: nat)
    requires Handler(s, p, c) && n >= 2 && r.Adopt? && s.threads[p].pc == AdoptScan(AdoptedJob(r))
    ensures Ends(s, p, c, n, if s.t.Occupied(r.dir) then s.t else s.t.Insert(AdoptedJob(r)))
  {
    OneStep(s, p, c);
    if s.t.Occupied(r.dir) {
      Ended(Step(s, Run(p, c)), p, c, n - 1);
    } else {
      InsertAlone(Step(s, Run(p, c)), p, c, n - 1);
    }
    Prefix(s, p, c, n, if s.t.Occupied(r.dir) then s.t else s.t.Insert(AdoptedJob(r)));
  }

  /** A handler that starts by looking at the latch. */
  lemma LatchedAlone(s: State, p: nat, r: Request, c: Choice, n: nat)
    requires Handler(s, p, c) && s.threads[p].pc == Begin(r) && n >= 7 && (r.Register? || r.Adopt? || r.Pause?)
    ensures Ends(s, p, c, n, Handle(s.t, s.latch, s.base, r, c))
  {
    var s1 := Step(s, Run(p, c));
    OneStep(s, p, c);
    if s1.threads[p].pc == End {
      Ended(s1, p, c, n - 1);
    } else if r.Register? {
      RegisterAlone(s1, p, r, c, n - 1);
    } else if r.Adopt? {
      AdoptAlone(s1, p, r, c, n - 1);
    } else {
      NamedAlone(s1, p, r, c, n - 1);
    }
    Prefix(s, p, c, n, Handle(s.t, s.latch, s.base, r, c));
  }

  /** Seven steps are enough for every handler, and they amount to the whole request. */
  lemma UndisturbedHandlerIsWholeRequest(s: State, p: nat, r: Request, c: Choice, n: nat)
    requires p in s.threads && s.threads[p] == Thread(false, Begin(r)) && Plausible(c) && n >= 7
    ensures Ends(s, p, c, n, Handle(s.t, s.latch, s.base, r, c))
  {
    if r.Resume? || r.Cancel? || r.Complete? {
      NamedAlone(s, p, r, c, n);
    } else {
      LatchedAlone(s, p, r, c, n);
    }
  }
}
