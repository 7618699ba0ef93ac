/**
 The sliding-window restart budget of the leader transport
 (packages/storage/src/leader.ts, `restartLockRequest`).

 The transport keeps a queue of crash times, drops its stale heads at every crash, and gives
 up when three are left. The queue is related here to the whole crash history.
 */
module RestartBudget {
  const RESTART_WINDOW_MS := 30_000
  const MAX_FAILURES := 3

  /** What the pruning loop leaves: heads older than the cutoff are shifted off, in order,
      until a head at or after the cutoff stops it. */
  function Prune(queue: seq<int>, cutoff: int): seq<int> {
    if queue != [] && queue[0] < cutoff then Prune(queue[1..], cutoff) else queue
  }

  /** The queue after a crash at `now`. */
  function Record(queue: seq<int>, now: int): seq<int> {
    Prune(queue, now - RESTART_WINDOW_MS) + [now]
  }

  /** True when the queue has no restart left in it. */
  predicate Exhausted(queue: seq<int>) {
    |queue| >= MAX_FAILURES
  }

  /** The loop of `restartLockRequest`, as written. */
  method RecordCrash(timestamps: seq<int>, now: int) returns (r: seq<int>, giveUp: bool)
    ensures r == Record(timestamps, now)
    ensures giveUp == Exhausted(r)
  {
    var cutoff := now - RESTART_WINDOW_MS;
    r := timestamps;
    while |r| != 0
      invariant Prune(r, cutoff) == Prune(timestamps, cutoff)
    {
      var head := r[0];
      if head >= cutoff { break; }
      r := r[1..];
    }
    r := r + [now];
    giveUp := |r| >= MAX_FAILURES;
  }

  // ----- the history the queue stands for

  ghost predicate Nondecreasing(times: seq<int>) {
    forall i, j :: 0 <= i < j < |times| ==> times[i] <= times[j]
  }

  /** The queue that a transport holds after crashing at each of `times`. */
  function Queue(times: seq<int>): seq<int> {
    if times == [] then [] else Record(Queue(times[..|times| - 1]), times[|times| - 1])
  }

  /** The crashes at or after `cutoff`, by looking at every crash. */
  function Since(times: seq<int>, cutoff: int): (r: seq<int>)
    ensures |r| <= |times|
  {
    if times == [] then []
    else
      var rest := Since(times[..|times| - 1], cutoff);
      if times[|times| - 1] >= cutoff then rest + [times[|times| - 1]] else rest
  }

  /** The crashes within the window that ends at the latest one. */
  function Recent(times: seq<int>): seq<int> {
    if times == [] then [] else Since(times, times[|times| - 1] - 30_000)
  }

  /** Three crashes in a row that span at most the window. */
  predicate ThreeInWindow(times: seq<int>) {
    |times| >= 3 && times[|times| - 1] - times[|times| - 3] <= 30_000
  }

  lemma {:induction false} SinceKeepsAll(times: seq<int>, cutoff: int)
    requires forall i :: 0 <= i < |times| ==> times[i] >= cutoff
    ensures Since(times, cutoff) == times
  {
    if times != [] {
      SinceKeepsAll(times[..|times| - 1], cutoff);
    }
  }

  lemma {:induction false} SinceDropsHead(times: seq<int>, cutoff: int)
    requires times != [] && times[0] < cutoff
    ensures Since(times, cutoff) == Since(times[1..], cutoff)
  {
    var front := times[..|times| - 1];
    if front != [] {
      SinceDropsHead(front, cutoff);
      assert front[1..] == times[1..][..|times| - 2];
    }
  }

  lemma {:induction false} PruneIsSince(times: seq<int>, cutoff: int)
    requires Nondecreasing(times)
    ensures Prune(times, cutoff) == Since(times, cutoff)
  {
    if times == [] {
    } else if times[0] < cutoff {
      PruneIsSince(times[1..], cutoff);
      SinceDropsHead(times, cutoff);
    } else {
      SinceKeepsAll(times, cutoff);
    }
  }

  lemma {:induction false} SinceSorted(times: seq<int>, cutoff: int)
    requires Nondecreasing(times)
    ensures Nondecreasing(Since(times, cutoff))
    ensures forall x :: x in Since(times, cutoff) ==> x in times
  {
    if times != [] {
      var front, latest := times[..|times| - 1], times[|times| - 1];
      SinceSorted(front, cutoff);
      var rest := Since(front, cutoff);
      forall i | 0 <= i < |rest| ensures rest[i] <= latest {
        assert rest[i] in rest;
        var k :| 0 <= k < |front| && front[k] == rest[i];
        assert times[k] <= latest;
      }
    }
  }

  lemma {:induction false} SinceTwice(times: seq<int>, early: int, late: int)
    requires early <= late
    ensures Since(Since(times, early), late) == Since(times, late)
  {
    if times != [] {
      SinceTwice(times[..|times| - 1], early, late);
      var rest := Since(times[..|times| - 1], early);
      if times[|times| - 1] >= early {
        assert (rest + [times[|times| - 1]])[..|rest|] == rest;
      }
    }
  }

  /** The pruned queue holds exactly the crashes within the window of the latest one. */
  lemma {:induction false} QueueIsWindow(times: seq<int>)
    requires Nondecreasing(times)
    ensures Queue(times) == Recent(times)
  {
    if times != [] {
      var past, now := times[..|times| - 1], times[|times| - 1];
      QueueIsWindow(past);
      RecordKeepsWindow(past, now);
      assert past + [now] == times;
    }
  }

  /** One crash keeps the queue equal to the window: what every step of the transport needs. */
  lemma RecordKeepsWindow(past: seq<int>, now: int)
    requires Nondecreasing(past + [now])
    ensures Record(Recent(past), now) == Recent(past + [now])
  {
    var cutoff := now - RESTART_WINDOW_MS;
    SplitSorted(past, now);
    assert (past + [now])[..|past|] == past;
    if past != [] {
      var early := past[|past| - 1] - RESTART_WINDOW_MS;
      SinceTwice(past, early, cutoff);
      SinceSorted(past, early);
      PruneIsSince(Since(past, early), cutoff);
    }
  }

  lemma SplitSorted(past: seq<int>, now: int)
    requires Nondecreasing(past + [now])
    ensures Nondecreasing(past)
    ensures past != [] ==> past[|past| - 1] <= now
  {
    var times := past + [now];
    assert forall i :: 0 <= i < |past| ==> past[i] == times[i];
    if past != [] { assert times[|past| - 1] <= times[|past|]; }
  }

  lemma {:induction false} SinceDropsAll(times: seq<int>, cutoff: int)
    requires forall i :: 0 <= i < |times| ==> times[i] < cutoff
    ensures Since(times, cutoff) == []
  {
    if times != [] {
      SinceDropsAll(times[..|times| - 1], cutoff);
    }
  }

  /** The transport gives up at a crash exactly when that crash and the two before it span at
      most the window. */
  lemma GivesUpExactly(times: seq<int>)
    requires Nondecreasing(times)
    ensures Exhausted(Recent(times)) <==> ThreeInWindow(times)
  {
    var n := |times|;
    if n >= 3 {
      var cutoff := times[n - 1] - RESTART_WINDOW_MS;
      var one := times[..n - 1];
      var two := one[..n - 2];
      assert times[n - 3] <= times[n - 2] <= times[n - 1];
      assert one[n - 2] == times[n - 2] && two[n - 3] == times[n - 3];
      if two[n - 3] < cutoff {
        forall i | 0 <= i < n - 2 ensures two[i] < cutoff {
          assert times[i] <= times[n - 3];
        }
        SinceDropsAll(two, cutoff);
        assert |Since(one, cutoff)| <= 1;
      } else {
        assert |Since(two, cutoff)| >= 1;
        assert |Since(one, cutoff)| >= 2;
      }
    }
  }
}
