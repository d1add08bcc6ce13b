/** Checkpoint images under interleaving: when a dump that overlaps another costs a job the image its record promises.
    Each job has a directory of its own, so the model follows one job's directory at a time. */
module Images {
  import opened Wrappers
  import opened Lifecycle
  import opened JobTable
  import opened Requests
  import opened Machine
  import opened MachineSafety
  import opened Freshness
  import opened Marks

  /** A job's directory: what it holds, and what the job's last successful dump, or its adopt, left there. */
  datatype Copy = Copy(image: Option<Image>, saved: Option<Image>)
  {
    predicate Kept() {
      image.Some? && image == saved
    }
  }

  /** The action dumps job id: successful or not, the dump leaves its answer's image, or nothing, in the directory. */
  predicate Dumps(s: State, a: Action, id: int) {
    && a.Run? && a.p in s.threads && Plausible(a.c)
    && s.threads[a.p].pc.Dump? && s.threads[a.p].pc.id == id
  }

  /** The action inserts job id as an adopted one. */
  predicate Adopts(s: State, a: Action, id: int) {
    && a.Run? && a.p in s.threads && Plausible(a.c)
    && s.threads[a.p].pc.AdoptInsert? && id == s.t.lastId + 1
  }

  function Touch(s: State, a: Action, id: int, k: Copy, found: Image): Copy {
    if Dumps(s, a, id) then Copy(a.c.left, if a.c.ok then a.c.left else k.saved)
    else if Adopts(s, a, id) then Copy(Some(found), Some(found))
    else k
  }

  /** The directory of job id after a schedule; found is what an adopt finds there. */
  ghost function CopyOf(s: State, acts: seq<Action>, id: int, found: Image): Copy {
    if acts == [] then Copy(None, None)
    else
      var front := acts[..|acts| - 1];
      Touch(Exec(s, front), acts[|acts| - 1], id, CopyOf(s, front, id, found), found)
  }

  /** A thread brings the news of a successful dump. */
  predicate Reports(th: Thread, id: int) {
    (th.pc.Read? || th.pc.Commit?) && th.pc.id == id && th.pc.u.To() == CheckpointCreated
  }

  predicate Holds(s: Status) {
    s == CheckpointCreated || s == RestorePending || s == RestoreFailed
  }

  /** Somebody counts on the image: the row says there is one, or a thread is about to make it say so. */
  ghost predicate Relied(s: State, id: int) {
    || (id in s.t.rows && Holds(s.t.rows[id].status))
    || exists p :: p in s.threads && Reports(s.threads[p], id)
  }

  /** A failed dump leaves something else than the last successful one left. */
  predicate Spoils(s: State, a: Action, id: int, k: Copy) {
    Dumps(s, a, id) && !a.c.ok && !Copy(a.c.left, k.saved).Kept()
  }

  /** No dump spoils the image while somebody counts on it. */
  ghost predicate NeverSpoiled(s: State, acts: seq<Action>, id: int, found: Image) {
    acts == [] ||
    var front := acts[..|acts| - 1];
    && NeverSpoiled(s, front, id, found)
    && !(Relied(Exec(s, front), id) && Spoils(Exec(s, front), acts[|acts| - 1], id, CopyOf(s, front, id, found)))
  }

  /** An update makes the row claim an image that nobody counted on and that is not there. */
  ghost predicate Regains(s: State, a: Action, id: int, k: Copy) {
    Commits(s, a, id) && !Relied(s, id) && Holds(s.threads[a.p].pc.u.To()) && !k.Kept()
  }

  ghost predicate NeverRegained(s: State, acts: seq<Action>, id: int, found: Image) {
    acts == [] ||
    var front := acts[..|acts| - 1];
    && NeverRegained(s, front, id, found)
    && !Regains(Exec(s, front), acts[|acts| - 1], id, CopyOf(s, front, id, found))
  }

  /** All along, the image is there whenever somebody counts on it. */
  ghost predicate AlwaysKept(s: State, acts: seq<Action>, id: int, found: Image) {
    && (Relied(Exec(s, acts), id) ==> CopyOf(s, acts, id, found).Kept())
    && (acts == [] || AlwaysKept(s, acts[..|acts| - 1], id, found))
  }

  // ---------------------------------------------------------------- one step

  lemma ReportStep(s: State, th: Thread, c: Choice, id: int)
    requires Reports(th.(pc := NextPc(s, th, c)), id)
    ensures (Reports(th, id) && th.pc.Read?) || (th.pc.Dump? && th.pc.id == id && c.ok)
  {
  }

  /** News of a successful dump comes from such a dump. */
  lemma ReportsBefore(s: State, a: Action, p: nat, id: int)
    requires p in Step(s, a).threads && Reports(Step(s, a).threads[p], id)
    requires !(Dumps(s, a, id) && a.c.ok)
    ensures p in s.threads && Reports(s.threads[p], id)
  {
    if a.Run? && a.p == p && p in s.threads && Plausible(a.c) {
      ReportStep(s, s.threads[p], a.c, id);
    }
  }

  lemma ReliedByRow(s: State, a: Action, id: int)
    requires Safe(s) && id in Step(s, a).t.rows && Holds(Step(s, a).t.rows[id].status)
    ensures Relied(s, id) || Adopts(s, a, id) || (Commits(s, a, id) && Holds(s.threads[a.p].pc.u.To()))
  {
    if id !in s.t.rows {
      Appears(s, a, id);
      AppearsByAdopt(s, a, id);
    } else if Commits(s, a, id) {
      Touched(s, a, id);
    } else {
      Untouched(s, a, id);
    }
  }

  lemma AppearsByAdopt(s: State, a: Action, id: int)
    requires Safe(s) && id !in s.t.rows && id in Step(s, a).t.rows && Step(s, a).t.rows[id].status != Running
    ensures Adopts(s, a, id)
  {
    if a.Run? && a.p in s.threads && Plausible(a.c) {
      assert PcOk(s.t, s.threads[a.p].pc);
    }
  }

  /** Only a successful dump, an adopt or an update makes somebody count on an image nobody counted on. */
  lemma ReliedBefore(s: State, a: Action, id: int)
    requires Safe(s) && Relied(Step(s, a), id) && !(Dumps(s, a, id) && a.c.ok) && !Adopts(s, a, id)
    ensures Relied(s, id) || (Commits(s, a, id) && Holds(s.threads[a.p].pc.u.To()))
  {
    var s' := Step(s, a);
    if p :| p in s'.threads && Reports(s'.threads[p], id) {
      ReportsBefore(s, a, p, id);
    } else {
      ReliedByRow(s, a, id);
    }
  }

  lemma ReliedAfterCommit(s: State, a: Action, id: int)
    requires Safe(s) && Commits(s, a, id) && Holds(s.threads[a.p].pc.u.To())
    ensures Relied(Step(s, a), id)
  {
    assert PcOk(s.t, s.threads[a.p].pc);
    Touched(s, a, id);
  }

  /** A dump takes nobody's confidence away. */
  lemma ReliedAfterDump(s: State, a: Action, id: int)
    requires Dumps(s, a, id) && Relied(s, id)
    ensures Relied(Step(s, a), id)
  {
    var s' := Step(s, a);
    assert s'.t == s.t;
    if p :| p in s.threads && Reports(s.threads[p], id) {
      assert s'.threads[p] == s.threads[p];
    }
  }

  /** One step: an image that was there whenever somebody counted on it stays so unless the step spoils or regains it. */
  lemma KeptStep(s: State, a: Action, id: int, k: Copy, found: Image)
    requires Safe(s) && (Relied(s, id) ==> k.Kept())
    ensures (Relied(Step(s, a), id) ==> Touch(s, a, id, k, found).Kept()) <==>
            !(Relied(s, id) && Spoils(s, a, id, k)) && !Regains(s, a, id, k)
  {
    if Dumps(s, a, id) && Relied(s, id) {
      ReliedAfterDump(s, a, id);
    }
    if Commits(s, a, id) && Holds(s.threads[a.p].pc.u.To()) {
      ReliedAfterCommit(s, a, id);
    }
    if Relied(Step(s, a), id) && !(Dumps(s, a, id) && a.c.ok) && !Adopts(s, a, id) {
      ReliedBefore(s, a, id);
    }
  }

  /** For every schedule, with split updates: the image is there whenever the row, or a report on its way, says so, exactly
      when no failed dump spoils it while that is so and no update makes the row claim one that is gone. */
  lemma {:induction false} ImageKeptIff(base: Path, max: nat, acts: seq<Action>, id: int, found: Image)
    ensures AlwaysKept(Init(base, max), acts, id, found) <==>
            NeverSpoiled(Init(base, max), acts, id, found) && NeverRegained(Init(base, max), acts, id, found)
  {
    var s0 := Init(base, max);
    if acts == [] {
    } else {
      var front, a := acts[..|acts| - 1], acts[|acts| - 1];
      ImageKeptIff(base, max, front, id, found);
      SafeExec(s0, front);
      if AlwaysKept(s0, front, id, found) {
        KeptStep(Exec(s0, front), a, id, CopyOf(s0, front, id, found), found);
      }
    }
  }

  /** So a job that claims an image can be restored from what its last successful dump, or its adopt, left. */
  lemma {:induction false} ResumableHasImage(base: Path, max: nat, acts: seq<Action>, id: int, found: Image)
    requires NeverSpoiled(Init(base, max), acts, id, found) && NeverRegained(Init(base, max), acts, id, found)
    requires id in Exec(Init(base, max), acts).t.rows && Holds(Exec(Init(base, max), acts).t.rows[id].status)
    ensures CopyOf(Init(base, max), acts, id, found).Kept()
  {
    ImageKeptIff(base, max, acts, id, found);
  }

  // ---------------------------------------------------------------- where a lost image comes from

  /** Only a stale commit makes the row claim an image that nobody counted on. */
  lemma {:induction false} FreshNeverRegained(base: Path, max: nat, acts: seq<Action>, id: int, found: Image)
    requires Fresh(Init(base, max), acts, id)
    ensures NeverRegained(Init(base, max), acts, id, found)
  {
    if acts == [] {
    } else {
      var front, a := acts[..|acts| - 1], acts[|acts| - 1];
      FreshNeverRegained(base, max, front, id, found);
      SafeExec(Init(base, max), front);
      FreshIsNoRegain(Exec(Init(base, max), front), a, id);
    }
  }

  lemma FreshIsNoRegain(s: State, a: Action, id: int)
    requires Safe(s) && !Stale(s, a, id)
    ensures Commits(s, a, id) && Holds(s.threads[a.p].pc.u.To()) ==> Relied(s, id)
  {
    if Commits(s, a, id) {
      assert PcOk(s.t, s.threads[a.p].pc);
      if s.threads[a.p].pc.u.To() == CheckpointCreated {
        assert Reports(s.threads[a.p], id);
      }
    }
  }

  /** Only a dump that went ahead after its mark was refused spoils an image, if the job's commits are fresh. */
  lemma {:induction false} OnlyRefusedMarksSpoil(base: Path, max: nat, acts: seq<Action>, id: int, found: Image)
    requires Fresh(Init(base, max), acts, id) && MarksAccepted(Init(base, max), acts, id, Checkpointing)
    ensures NeverSpoiled(Init(base, max), acts, id, found)
  {
    if acts == [] {
    } else {
      var front, a := acts[..|acts| - 1], acts[|acts| - 1];
      OnlyRefusedMarksSpoil(base, max, front, id, found);
      SoleExec(base, max, front, id, Checkpointing);
      var s := Exec(Init(base, max), front);
      if Dumps(s, a, id) {
        assert AtWork(s.threads[a.p].pc, id, Checkpointing);
        forall q | q in s.threads
          ensures !Reports(s.threads[q], id)
        {
          assert Reports(s.threads[q], id) ==> AtWork(s.threads[q].pc, id, Checkpointing);
        }
      }
    }
  }

  /** Fresh commits and accepted marks: a job that claims an image always has it. */
  lemma {:induction false} UndisturbedImageKept(base: Path, max: nat, acts: seq<Action>, id: int, found: Image)
    requires Fresh(Init(base, max), acts, id) && MarksAccepted(Init(base, max), acts, id, Checkpointing)
    ensures AlwaysKept(Init(base, max), acts, id, found)
  {
    OnlyRefusedMarksSpoil(base, max, acts, id, found);
    FreshNeverRegained(base, max, acts, id, found);
    ImageKeptIff(base, max, acts, id, found);
  }
}
