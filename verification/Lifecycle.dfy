/** The lifecycle of a tracked job: its statuses, the transition table and the history a job leaves. */
module Lifecycle {
  import opened Wrappers

  datatype Status =
    | Running
    | CheckpointInProgress
    | CheckpointCreated
    | CheckpointCreationFailed
    | RestorePending
    | RestoreFailed
    | Failed
    | Canceled
    | Completed

  /** The transition table; a status without an entry has no successors. */
  predicate ValidTransition(from: Status, to: Status) {
    match from
    case Running => to == CheckpointInProgress || to == Canceled || to == Completed || to == Failed
    case CheckpointInProgress => to == CheckpointCreated || to == CheckpointCreationFailed
    case CheckpointCreationFailed => to == CheckpointInProgress || to == Canceled
    case CheckpointCreated => to == RestorePending || to == Canceled
    case RestorePending => to == Running || to == RestoreFailed
    case RestoreFailed => to == RestorePending || to == Canceled
    case _ => false
  }

  predicate IsTerminal(s: Status) {
    s == Failed || s == Canceled || s == Completed
  }

  /** The edges of the table, one by one. */
  const EDGES: seq<(Status, Status)> := [
    (Running, CheckpointInProgress), (Running, Canceled), (Running, Completed), (Running, Failed),
    (CheckpointInProgress, CheckpointCreated), (CheckpointInProgress, CheckpointCreationFailed),
    (CheckpointCreationFailed, CheckpointInProgress), (CheckpointCreationFailed, Canceled),
    (CheckpointCreated, RestorePending), (CheckpointCreated, Canceled),
    (RestorePending, Running), (RestorePending, RestoreFailed),
    (RestoreFailed, RestorePending), (RestoreFailed, Canceled)]

  /** There are these 14 edges and no others. */
  lemma TransitionTable(from: Status, to: Status)
    ensures ValidTransition(from, to) <==> (from, to) in EDGES
    ensures |EDGES| == 14 && forall i, k :: 0 <= i < k < |EDGES| ==> EDGES[i] != EDGES[k]
  {
    if ValidTransition(from, to) {
      EdgeListed(from, to);
    }
  }

  lemma EdgeListed(from: Status, to: Status)
    requires ValidTransition(from, to)
    ensures (from, to) in EDGES
  {
    var i := match (from, to)
      case (Running, CheckpointInProgress) => 0
      case (Running, Canceled) => 1
      case (Running, Completed) => 2
      case (Running, Failed) => 3
      case (CheckpointInProgress, CheckpointCreated) => 4
      case (CheckpointInProgress, CheckpointCreationFailed) => 5
      case (CheckpointCreationFailed, CheckpointInProgress) => 6
      case (CheckpointCreationFailed, Canceled) => 7
      case (CheckpointCreated, RestorePending) => 8
      case (CheckpointCreated, Canceled) => 9
      case (RestorePending, Running) => 10
      case (RestorePending, RestoreFailed) => 11
      case (RestoreFailed, RestorePending) => 12
      case _ => 13;
    assert EDGES[i] == (from, to);
  }

  /** The terminal statuses, which the listings and prune go by, are exactly those that no update leaves. */
  lemma TerminalIff(s: Status)
    ensures IsTerminal(s) <==> forall to :: !ValidTransition(s, to)
    ensures IsTerminal(s) <==> s in {Failed, Canceled, Completed}
  {
    if s == RestorePending || s == CheckpointInProgress {
      assert ValidTransition(s, if s == RestorePending then RestoreFailed else CheckpointCreationFailed);
    } else if !IsTerminal(s) {
      assert ValidTransition(s, Canceled);
    }
  }

  /** The statuses that are entered with an error text. */
  predicate Failing(s: Status) {
    s == Failed || s == CheckpointCreationFailed || s == RestoreFailed
  }

  datatype Entry = Entry(id: int, from: Status, to: Status, actor: string)

  /** The entries of one job, oldest first. */
  function Of(h: seq<Entry>, id: int): seq<Entry> {
    if h == [] then []
    else
      var last := h[|h| - 1];
      Of(h[..|h| - 1], id) + (if last.id == id then [last] else [])
  }

  lemma OfAppend(h: seq<Entry>, e: Entry, id: int)
    ensures Of(h + [e], id) == if e.id == id then Of(h, id) + [e] else Of(h, id)
  {
    assert (h + [e])[..|h|] == h;
  }

  /** Every entry of a job's slice is an entry of the whole history. */
  lemma {:induction false} OfSource(h: seq<Entry>, id: int) returns (at: seq<nat>)
    ensures |at| == |Of(h, id)|
    ensures forall i :: 0 <= i < |at| ==> at[i] < |h| && h[at[i]] == Of(h, id)[i] && h[at[i]].id == id
  {
    if h == [] {
      at := [];
    } else {
      at := OfSource(h[..|h| - 1], id);
      if h[|h| - 1].id == id {
        at := at + [|h| - 1];
      }
    }
  }

  /** es is a path of table edges from s0 to s, each entry starting where the previous one ended. */
  predicate Chain(s0: Status, es: seq<Entry>, s: Status) {
    if es == [] then s0 == s
    else
      var last := es[|es| - 1];
      last.to == s && ValidTransition(last.from, last.to) && Chain(s0, es[..|es| - 1], last.from)
  }

  lemma ChainAppend(s0: Status, es: seq<Entry>, s: Status, e: Entry)
    ensures Chain(s0, es + [e], s) <==> e.to == s && ValidTransition(e.from, e.to) && Chain(s0, es, e.from)
  {
    assert (es + [e])[..|es|] == es;
  }

  /** Reading a history forwards: the status it leads to, or None at the first entry that does not fit. */
  function Replay(s0: Status, es: seq<Entry>): Option<Status>
    decreases |es|
  {
    if es == [] then Some(s0)
    else if es[0].from == s0 && ValidTransition(s0, es[0].to) then Replay(es[0].to, es[1..])
    else None
  }

  lemma {:induction false} ReplayAppend(s0: Status, es: seq<Entry>, e: Entry)
    ensures Replay(s0, es + [e]) ==
            match Replay(s0, es)
            case Some(s) => if e.from == s && ValidTransition(s, e.to) then Some(e.to) else None
            case None => None
    decreases |es|
  {
    if es == [] {
      assert (es + [e])[1..] == [];
    } else {
      assert (es + [e])[1..] == es[1..] + [e];
      if es[0].from == s0 && ValidTransition(s0, es[0].to) {
        ReplayAppend(es[0].to, es[1..], e);
      }
    }
  }

  /** Replaying a history yields a status exactly when the history is a chain ending there. */
  lemma {:induction false} ReplayIffChain(s0: Status, es: seq<Entry>, s: Status)
    ensures Replay(s0, es) == Some(s) <==> Chain(s0, es, s)
    decreases |es|
  {
    if es == [] {
    } else {
      var front, last := es[..|es| - 1], es[|es| - 1];
      assert es == front + [last];
      ReplayAppend(s0, front, last);
      ReplayIffChain(s0, front, last.from);
    }
  }

  lemma {:induction false} ChainPrefix(s0: Status, es: seq<Entry>, s: Status, k: nat)
    requires Chain(s0, es, s) && k <= |es|
    ensures Chain(s0, es[..k], if k == |es| then s else es[k].from)
    decreases |es|
  {
    if k == |es| {
      assert es[..k] == es;
    } else {
      ChainPrefix(s0, es[..|es| - 1], es[|es| - 1].from, k);
      assert es[..|es| - 1][..k] == es[..k];
    }
  }

  predicate IsCheckpoint(e: Entry) {
    e.from == CheckpointInProgress && e.to == CheckpointCreated
  }

  predicate IsRestore(e: Entry) {
    e.from == RestorePending && e.to == Running
  }

  /** Successful checkpoints minus successful restores along a history. */
  function Balance(es: seq<Entry>): int {
    if es == [] then 0
    else
      var last := es[|es| - 1];
      Balance(es[..|es| - 1]) + (if IsCheckpoint(last) then 1 else 0) - (if IsRestore(last) then 1 else 0)
  }

  /** How many unspent checkpoints a job in status s holds. */
  predicate HoldsCheckpoints(n: int, s: Status) {
    match s
    case CheckpointCreated | RestorePending | RestoreFailed => n == 1
    case Canceled => n == 0 || n == 1
    case _ => n == 0
  }

  /** On record, checkpoints are neither lost nor spent twice: whatever retries lie on the way, an adopted job starts with
      one, a registered job with none, and the status alone says how many are left. Module Restores is about processes
      that were started and never recorded, module Images about what is on disk. */
  lemma {:induction false} Conservation(s0: Status, es: seq<Entry>, s: Status)
    requires s0 == Running || s0 == CheckpointCreated
    requires Chain(s0, es, s)
    ensures HoldsCheckpoints((if s0 == CheckpointCreated then 1 else 0) + Balance(es), s)
  {
    if es == [] {
    } else {
      Conservation(s0, es[..|es| - 1], es[|es| - 1].from);
    }
  }

  /** Nothing follows a terminal status in a chain. */
  lemma {:induction false} ChainStopsAtTerminal(s0: Status, es: seq<Entry>, s: Status, k: nat)
    requires Chain(s0, es, s) && k < |es| && IsTerminal(es[k].to)
    ensures k == |es| - 1
    decreases |es|
  {
    if k < |es| - 1 {
      ChainPrefix(s0, es, s, k + 1);
      assert Chain(s0, es[..k + 1], es[k + 1].from);
      ChainEdge(s0, es, s, k + 1);
    }
  }

  lemma {:induction false} ChainEdge(s0: Status, es: seq<Entry>, s: Status, k: nat)
    requires Chain(s0, es, s) && k < |es|
    ensures ValidTransition(es[k].from, es[k].to)
    decreases |es|
  {
    if k < |es| - 1 {
      ChainEdge(s0, es[..|es| - 1], es[|es| - 1].from, k);
    }
  }
}
