/** The status-polling loops of the deploy scripts. Each loop re-reads a remote status until it
    sees a ready status or a failure status; every other status means "poll again". The remote
    answers are given as the finite sequence of statuses the describe calls return, in order. A
    loop that reaches the end of that sequence without stopping has no verdict yet (the script
    itself would go on polling). */
module Polling {
  import opened Basics

  datatype Wait =
    | Ready(polls: nat)   // the polls-th status read was a ready status
    | Failed(polls: nat)  // the polls-th status read was a failure status
    | Stalled             // every status read asked for another poll

  /** A status that ends the loop, one way or the other. */
  predicate Stops(status: string, ready: set<string>, failed: set<string>)
  {
    status in ready || status in failed
  }

  /** Every status in `observed` asks for another poll. */
  predicate KeepsPolling(observed: seq<string>, ready: set<string>, failed: set<string>)
  {
    forall j :: 0 <= j < |observed| ==> !Stops(observed[j], ready, failed)
  }

  /** What the loop concludes from `observed`: it stops at the first status that is ready or
      failed, checking "ready" first. */
  function Verdict(observed: seq<string>, ready: set<string>, failed: set<string>): (w: Wait)
    ensures w.Ready? ==> 1 <= w.polls <= |observed| && observed[w.polls - 1] in ready
    ensures w.Failed? ==> 1 <= w.polls <= |observed| && observed[w.polls - 1] in failed && observed[w.polls - 1] !in ready
    ensures !w.Stalled? ==> KeepsPolling(observed[..w.polls - 1], ready, failed)
    ensures w.Stalled? <==> KeepsPolling(observed, ready, failed)
  {
    match FindFirst(observed, s => Stops(s, ready, failed))
    case None => Stalled
    case Some(k) => if observed[k] in ready then Ready(k + 1) else Failed(k + 1)
  }

  /** The loop itself: read the next status, stop on a ready or failure status, otherwise poll again. */
  method Await(observed: seq<string>, ready: set<string>, failed: set<string>) returns (w: Wait)
    ensures w == Verdict(observed, ready, failed)
  {
    var i := 0;
    while i < |observed|
      invariant 0 <= i <= |observed|
      invariant forall j :: 0 <= j < i ==> !Stops(observed[j], ready, failed)
    {
      var status := observed[i];
      if status in ready || status in failed {
        FindFirstIsFirst(observed, s => Stops(s, ready, failed), i);
        w := if status in ready then Ready(i + 1) else Failed(i + 1);
        return;
      }
      i := i + 1;
    }
    w := Stalled;
  }

  /** A loop whose ready set is wider (same failure set) stops ready no later, and reports failure
      only where the narrower loop does too. This is how the two bot scripts' locale waits relate. */
  lemma WiderReadySettlesNoLater(observed: seq<string>, narrow: set<string>, wide: set<string>, failed: set<string>)
    requires narrow <= wide
    ensures Verdict(observed, narrow, failed).Ready? ==>
              Verdict(observed, wide, failed).Ready? && Verdict(observed, wide, failed).polls <= Verdict(observed, narrow, failed).polls
    ensures Verdict(observed, wide, failed).Failed? ==> Verdict(observed, narrow, failed) == Verdict(observed, wide, failed)
  {
    var n := Verdict(observed, narrow, failed);
    var w := Verdict(observed, wide, failed);
    if n.Ready? {
      var k := n.polls - 1;
      assert Stops(observed[k], wide, failed);
      assert !KeepsPolling(observed, wide, failed);
      if w.Failed? && w.polls > n.polls {
        assert observed[..w.polls - 1][k] == observed[k];
      }
    }
    if w.Failed? {
      var k := w.polls - 1;
      forall j | 0 <= j < k ensures !Stops(observed[j], narrow, failed) {
        assert observed[..k][j] == observed[j];
      }
      FindFirstIsFirst(observed, s => Stops(s, narrow, failed), k);
    }
  }
}
