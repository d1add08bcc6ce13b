/** The IMDS poller: edge-triggered signals over any number of ticks. */
module Poller {

  /** What a poll of one IMDS path returns. */
  datatype Probe = Absent | Present | Broken

  /** One tick of the ticker; the sequence of ticks ends when the context is cancelled. */
  datatype Tick = Tick(rebalance: Probe, action: Probe)

  datatype Callback = OnRebalance(tick: nat) | OnInterruption(tick: nat)

  const SECOND := 1_000_000_000

  /** NewPoller's interval, in nanoseconds: five seconds instead of one that is not positive. */
  function Every(interval: int): (r: int)
    ensures r > 0
    ensures interval > 0 ==> r == interval
    ensures interval <= 0 ==> r == 5_000_000_000
  {
    if interval <= 0 then 5 * SECOND else interval
  }

  /** The loop of Run. Callbacks run inline, so the order in fired is the order in which they happen. */
  method Run(ticks: seq<Tick>) returns (fired: seq<Callback>)
    ensures fired == Signals(ticks)
  {
    fired := [];
    var seenRebalance := false;
    for i := 0 to |ticks|
      invariant FirstRebalance(ticks[..i]) < i <==> seenRebalance
      invariant FirstAction(ticks[..i]) == i
      invariant fired == Signals(ticks[..i])
    {
      OneMore(ticks, i);
      if !seenRebalance {
        if ticks[i].rebalance == Present {
          seenRebalance := true;
          fired := fired + [OnRebalance(i)];
        }
      }
      if ticks[i].action == Broken {
        continue;
      }
      if ticks[i].action == Present {
        fired := fired + [OnInterruption(i)];
        Settled(ticks, i + 1);
        return;
      }
    }
    assert ticks[..|ticks|] == ticks;
  }

  /** The first tick that reports a rebalance recommendation, or the number of ticks. */
  function FirstRebalance(ticks: seq<Tick>): (n: nat)
    ensures n <= |ticks| && (n < |ticks| ==> ticks[n].rebalance == Present)
    ensures forall i :: 0 <= i < n ==> ticks[i].rebalance != Present
  {
    if ticks == [] then 0
    else
      var n := FirstRebalance(ticks[..|ticks| - 1]);
      if n < |ticks| - 1 || ticks[|ticks| - 1].rebalance == Present then n else n + 1
  }

  /** The first tick that reports an interruption notice, or the number of ticks. */
  function FirstAction(ticks: seq<Tick>): (n: nat)
    ensures n <= |ticks| && (n < |ticks| ==> ticks[n].action == Present)
    ensures forall i :: 0 <= i < n ==> ticks[i].action != Present
  {
    if ticks == [] then 0
    else
      var n := FirstAction(ticks[..|ticks| - 1]);
      if n < |ticks| - 1 || ticks[|ticks| - 1].action == Present then n else n + 1
  }

  /** What fires: the first recommendation, unless a notice came before it, and then the first notice. */
  function Signals(ticks: seq<Tick>): seq<Callback> {
    var r, a := FirstRebalance(ticks), FirstAction(ticks);
    (if r < |ticks| && r <= a then [OnRebalance(r)] else []) + (if a < |ticks| then [OnInterruption(a)] else [])
  }

  /** One tick more, when no notice has come yet. */
  lemma OneMore(ticks: seq<Tick>, i: nat)
    requires i < |ticks| && FirstAction(ticks[..i]) == i
    ensures FirstAction(ticks[..i + 1]) == if ticks[i].action == Present then i else i + 1
    ensures var r := FirstRebalance(ticks[..i]);
            var first := r == i && ticks[i].rebalance == Present;
            && FirstRebalance(ticks[..i + 1]) == (if r < i || first then r else i + 1)
            && Signals(ticks[..i + 1]) ==
                 Signals(ticks[..i])
                 + (if first then [OnRebalance(i)] else [])
                 + (if ticks[i].action == Present then [OnInterruption(i)] else [])
  {
    assert ticks[..i + 1][..i] == ticks[..i];
  }

  /** Once a notice is among the first k ticks, later ticks change nothing. */
  lemma Settled(ticks: seq<Tick>, k: nat)
    requires k <= |ticks| && FirstAction(ticks[..k]) < k
    ensures Signals(ticks) == Signals(ticks[..k])
  {
    var a := FirstAction(ticks[..k]);
    assert ticks[a].action == Present && forall i :: 0 <= i < a ==> ticks[..k][i].action == ticks[i].action;
    var r, r' := FirstRebalance(ticks), FirstRebalance(ticks[..k]);
    if r < k {
      assert ticks[..k][r].rebalance == Present;
    }
    if r' < k {
      assert ticks[r'].rebalance == Present;
    }
  }

  /** Over any number of ticks, with any errors and absences: each callback fires at most once and at the first tick
      that reports its signal, nothing fires after the interruption callback, and more ticks never take back or
      reorder what has fired. As the callbacks run inline, a run starts at most two fan-outs, one after the other. */
  lemma SignalDiscipline(ticks: seq<Tick>, k: nat)
    requires k <= |ticks|
    ensures |Signals(ticks)| <= 2 && Signals(ticks[..k]) <= Signals(ticks)
    ensures forall i, j :: 0 <= i < j < |Signals(ticks)| ==> Signals(ticks)[i].OnRebalance? && Signals(ticks)[j].OnInterruption?
    ensures forall c :: c in Signals(ticks) ==> c.tick < |ticks| && c.tick <= FirstAction(ticks)
    ensures forall i: nat :: OnInterruption(i) in Signals(ticks) <==> i < |ticks| && i == FirstAction(ticks)
    ensures forall i: nat :: OnRebalance(i) in Signals(ticks) <==>
                          i < |ticks| && i == FirstRebalance(ticks) && i <= FirstAction(ticks)
  {
    SignalsGrow(ticks, k);
  }

  lemma SignalsGrow(ticks: seq<Tick>, k: nat)
    requires k <= |ticks|
    ensures Signals(ticks[..k]) <= Signals(ticks)
  {
    var a, a' := FirstAction(ticks), FirstAction(ticks[..k]);
    if a' < k {
      Settled(ticks, k);
    } else {
      assert forall i :: 0 <= i < k ==> ticks[..k][i] == ticks[i];
      assert a >= k;
      var r, r' := FirstRebalance(ticks), FirstRebalance(ticks[..k]);
      if r' < k {
        assert ticks[r'].rebalance == Present;
        assert r == r';
      }
    }
  }
}
