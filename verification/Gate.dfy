/** The fairness gate: `src/narrator/core/gate.py`. */
module Gate {
  import opened Wrappers

  datatype Event = Entered | Exited

  /** The counter key after one event: `fast_exit` never leaves it negative. */
  function Count(counter: int, e: Event): int {
    match e
    case Entered => counter + 1
    case Exited => if counter - 1 < 0 then 0 else counter - 1
  }

  class SynthGate {
    var fastPending: Option<int>   // the key, absent until the first increment

    function Counter(): int
      reads this
    {
      if fastPending.Some? then fastPending.value else 0
    }

    constructor ()
      ensures Counter() == 0
    {
      fastPending := None;
    }

    method FastEnter()
      modifies this
      ensures Counter() == Count(old(Counter()), Entered)
    {
      fastPending := Some(Counter() + 1);
    }

    method FastExit()
      modifies this
      ensures Counter() == Count(old(Counter()), Exited)
    {
      var val := Counter() - 1;
      fastPending := Some(val);
      if val < 0 {
        fastPending := Some(0);
      }
    }
  }

  /** Polling until the counter is read as zero. `readings` is what the reads return, one after another;
      the wait goes on as long as there are more. */
  method BulkWaitTurn(readings: seq<int>) returns (stalled: bool, polls: nat, stalls: nat, resumes: nat)
    requires exists k :: 0 <= k < |readings| && readings[k] <= 0
    ensures polls < |readings| && readings[polls] <= 0 && forall k | 0 <= k < polls :: readings[k] > 0
    ensures stalled <==> readings[0] > 0
    ensures stalls == resumes == if stalled then 1 else 0
  {
    stalled, polls, stalls, resumes := false, 0, 0, 0;
    while readings[polls] > 0
      invariant polls < |readings| && forall k | 0 <= k < polls :: readings[k] > 0
      invariant stalled <==> polls > 0
      invariant stalls == (if stalled then 1 else 0) && resumes == 0
      decreases |readings| - polls
    {
      if !stalled {
        stalled := true;
        stalls := stalls + 1;
      }
      polls := polls + 1;
    }
    if stalled {
      resumes := resumes + 1;
    }
  }

  // --- histories -----------------------------------------------------------------------

  function After(events: seq<Event>): int {
    if events == [] then 0 else Count(After(events[..|events| - 1]), events[|events| - 1])
  }

  /** Entries less exits. */
  function Net(events: seq<Event>): int {
    if events == [] then 0
    else Net(events[..|events| - 1]) + if events[|events| - 1] == Entered then 1 else -1
  }

  /** Whatever the order of entries and exits, even unmatched ones: the counter is the largest number of
      entries less exits over any recent stretch of the history. */
  lemma {:induction false} CounterIsLargestStretch(events: seq<Event>)
    ensures forall k | 0 <= k <= |events| :: Net(events[k..]) <= After(events)
    ensures exists k :: 0 <= k <= |events| && Net(events[k..]) == After(events)
  {
    if events == [] {
      assert Net(events[0..]) == After(events);
    } else {
      var n := |events| - 1;
      var front, e := events[..n], events[n];
      CounterIsLargestStretch(front);
      forall k | 0 <= k <= n ensures Net(events[k..]) == Net(front[k..]) + if e == Entered then 1 else -1 {
        assert events[k..][..n - k] == front[k..];
      }
      assert Net(events[n + 1..]) == 0;
      var k :| 0 <= k <= n && Net(front[k..]) == After(front);
      assert Net(events[k..]) == After(front) + if e == Entered then 1 else -1;
      assert Net(events[if After(events) == 0 then n + 1 else k..]) == After(events);
    }
  }

  /** No exit comes before its entry. */
  predicate Matched(events: seq<Event>) {
    forall k | 0 <= k <= |events| :: Net(events[..k]) >= 0
  }

  /** Then the counter is the number of fast jobs inside. */
  lemma {:induction false} CounterIsJobsInside(events: seq<Event>)
    requires Matched(events)
    ensures After(events) == Net(events) >= 0
  {
    if events != [] {
      var n := |events| - 1;
      assert forall k | 0 <= k <= n :: events[..n][..k] == events[..k];
      CounterIsJobsInside(events[..n]);
      assert events[..n + 1] == events;
    }
  }
}
