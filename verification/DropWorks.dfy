/** What a job, a drop and a listener do when nobody disturbs them, from any state: that they do anything at
    all, which no promise about what never happens can say. */
module DropWorks {
  import opened Wrappers
  import opened EnqueuePolicy
  import opened Drop
  import opened DropRuns

  /** The state with one more thread, at `th`. */
  function With(s: State, th: Thread): State {
    s.(threads := s.threads + [th])
  }

  lemma MoveLast(s: State, th: Thread, th': Thread)
    ensures With(s, th).threads[|s.threads|] == th
    ensures With(s, th).threads[|s.threads| := th'] == With(s, th').threads
  {
  }

  /** A thread's actions alone. */
  predicate ActsOf(t: nat, acts: seq<Act>) {
    forall k | 0 <= k < |acts| :: !Spawning(acts[k]) && acts[k].t == t
  }

  lemma NoActs(s: State)
    ensures LegalRun(s, []) && After(s, []) == s
  {
  }

  lemma {:induction false} Then(start: State, acts: seq<Act>, s: State, a: Act)
    requires LegalRun(start, acts) && After(start, acts) == s && Enabled(s, a)
    ensures LegalRun(start, acts + [a]) && After(start, acts + [a]) == Step(s, a)
  {
    hide Step, Enabled;
    assert (acts + [a])[..|acts|] == acts;
  }

  // --- a deletion -----------------------------------------------------------------------------

  /** The list names every artifact of the set once. */
  predicate Orders(order: seq<Artifact>, artifacts: set<Artifact>) {
    && (forall k | 0 <= k < |order| :: order[k] in artifacts)
    && (forall x | x in artifacts :: x in order)
    && (forall j, k | 0 <= j < k < |order| :: order[j] != order[k])
  }

  lemma {:induction false} SomeOrder(artifacts: set<Artifact>) returns (order: seq<Artifact>)
    ensures Orders(order, artifacts)
  {
    order := [];
    var rest := artifacts;
    while rest != {}
      invariant Orders(order, artifacts - rest) && rest <= artifacts
    {
      var x :| x in rest;
      order, rest := order + [x], rest - {x};
    }
  }

  function Removes(t: nat, order: seq<Artifact>): (acts: seq<Act>)
    ensures |acts| == |order|
  {
    seq(|order|, k requires 0 <= k < |order| => Act.Remove(t, order[k]))
  }

  /** Everything a deletion lists when it starts now. */
  function Todo(artifacts: set<Artifact>): set<Artifact> {
    Listed(artifacts) + {CacheRecord}
  }

  /** The state when the deletion of thread `t` has listed and removed all but `todo`. */
  function Removed(s: State, t: nat, todo: set<Artifact>): State
    requires t < |s.threads| && SweepOf(s.threads[t]).Some?
  {
    var gone := Todo(s.artifacts) - todo;
    var sw := Removing(SweepOf(s.threads[t]).value.tries, Listed(s.artifacts), todo);
    Move(s, t, WithSweep(s.threads[t], sw)).(
      artifacts := s.artifacts - gone, strays := s.strays - gone, abandoned := {})
  }

  lemma {:induction false} RemoveStep(s: State, t: nat, todo: set<Artifact>, x: Artifact)
    requires t < |s.threads| && SweepOf(s.threads[t]).Some? && todo <= Todo(s.artifacts) && x in todo
    ensures var s' := Removed(s, t, todo);
            Enabled(s', Remove(t, x)) && Step(s', Remove(t, x)) == Removed(s, t, todo - {x})
  {
    var gone, gone' := Todo(s.artifacts) - todo, Todo(s.artifacts) - (todo - {x});
    assert gone' == gone + {x};
    assert s.artifacts - gone - {x} == s.artifacts - gone' && s.strays - gone - {x} == s.strays - gone';
    assert Removed(s, t, todo).threads[t := Removed(s, t, todo - {x}).threads[t]] == Removed(s, t, todo - {x}).threads;
  }

  function Those(order: seq<Artifact>): set<Artifact> {
    set x | x in order
  }

  lemma {:induction false} RemovesRun(s: State, t: nat, todo: set<Artifact>, order: seq<Artifact>)
    requires t < |s.threads| && SweepOf(s.threads[t]).Some? && todo <= Todo(s.artifacts)
    requires Orders(order, Those(order)) && Those(order) <= todo
    ensures LegalRun(Removed(s, t, todo), Removes(t, order))
    ensures After(Removed(s, t, todo), Removes(t, order)) == Removed(s, t, todo - Those(order))
    decreases |order|
  {
    hide Step, Enabled, Removed, SweepOf, Todo;
    if order == [] {
      assert todo - Those(order) == todo;
      NoActs(Removed(s, t, todo));
    } else {
      var n := |order| - 1;
      var front, x := order[..n], order[n];
      assert order == front + [x];
      assert Those(order) == Those(front) + {x} && x !in Those(front);
      RemovesRun(s, t, todo, front);
      RemoveStep(s, t, todo - Those(front), x);
      assert todo - Those(front) - {x} == todo - Those(order);
      Then(Removed(s, t, todo), Removes(t, front), Removed(s, t, todo - Those(front)), Act.Remove(t, x));
      assert Removes(t, order) == Removes(t, front) + [Act.Remove(t, x)];
    }
  }

  function Sweeps(t: nat, order: seq<Artifact>): seq<Act> {
    [Act.List(t)] + Removes(t, order) + [Verify(t)]
  }

  /** The state when that deletion has ended with success. */
  function SweptOnce(s: State, t: nat): State
    requires t < |s.threads| && SweepOf(s.threads[t]).Some?
  {
    Move(s, t, Swept(s.threads[t], true)).(
      artifacts := {}, strays := s.strays - Todo(s.artifacts), abandoned := {})
  }

  lemma {:induction false} AllIsListed(artifacts: set<Artifact>)
    ensures artifacts - Todo(artifacts) == {}
  {
    forall x | x in artifacts ensures x in Todo(artifacts) {
      assert x.Tmp? ==> x in TmpsIn(artifacts);
    }
  }

  /** An undisturbed deletion ends with success and leaves nothing, in whatever order it takes the files. */
  lemma {:induction false} SweepClears(s: State, t: nat, order: seq<Artifact>)
    requires t < |s.threads| && SweepOf(s.threads[t]).Some? && SweepOf(s.threads[t]).value.Listing?
    requires Orders(order, Todo(s.artifacts))
    ensures LegalRun(s, Sweeps(t, order)) && After(s, Sweeps(t, order)) == SweptOnce(s, t)
    ensures ActsOf(t, Sweeps(t, order))
  {
    hide Step, Enabled, Removed, SweptOnce, SweepOf, Todo, Move, WithSweep, Swept, LegalRun, After;
    var todo := Todo(s.artifacts);
    assert Those(order) == todo;
    ListStep(s, t);
    NoActs(s);
    Then(s, [], s, Act.List(t));
    assert [] + [Act.List(t)] == [Act.List(t)];
    RemovesRun(s, t, todo, order);
    assert todo - todo == {};
    Compose(s, [Act.List(t)], Removes(t, order));
    VerifyStep(s, t);
    Then(s, [Act.List(t)] + Removes(t, order), Removed(s, t, {}), Verify(t));
  }

  lemma {:induction false} ListStep(s: State, t: nat)
    requires t < |s.threads| && SweepOf(s.threads[t]).Some? && SweepOf(s.threads[t]).value.Listing?
    ensures Enabled(s, Act.List(t)) && Step(s, Act.List(t)) == Removed(s, t, Todo(s.artifacts))
  {
    var none: set<Artifact> := Todo(s.artifacts) - Todo(s.artifacts);
    assert none == {};
    assert s.artifacts - none == s.artifacts && s.strays - none == s.strays;
  }

  lemma {:induction false} VerifyStep(s: State, t: nat)
    requires t < |s.threads| && SweepOf(s.threads[t]).Some?
    ensures Enabled(Removed(s, t, {}), Verify(t)) && Step(Removed(s, t, {}), Verify(t)) == SweptOnce(s, t)
  {
    AllIsListed(s.artifacts);
    var s1 := Removed(s, t, {});
    assert Todo(s.artifacts) - {} == Todo(s.artifacts);
    assert s1.artifacts == {};
    assert s1.threads[t := Swept(s.threads[t], true)] == s.threads[t := Swept(s.threads[t], true)];
    assert Listed(s.artifacts) * s1.artifacts == {};
  }

  // --- a drop ---------------------------------------------------------------------------------

  /** The state when a new drop has read the record and marked the article removed. */
  function Bound(s: State): State {
    var keyed := s.record.Some? && s.record.value.keyed;
    With(s, if keyed then DropSweeping(Listing(0)) else DropOver(true)).(
      record := Some(Record(Deleted(true), keyed)))
  }

  lemma {:induction false} DropBinds(s: State)
    ensures var acts := [DropRequest, BindDeleted(|s.threads|)];
            LegalRun(s, acts) && After(s, acts) == Bound(s)
  {
    MoveLast(s, DropBegun, Bound(s).threads[|s.threads|]);
    ChainRuns([s, With(s, DropBegun), Bound(s)], [DropRequest, BindDeleted(|s.threads|)]);
  }

  lemma {:induction false} DropIsSwept(s: State)
    requires s.record.Some? && s.record.value.keyed
    ensures var t := |s.threads|;
            SweepOf(Bound(s).threads[t]) == Some(Listing(0)) &&
            SweptOnce(Bound(s), t) == With(s, DropOver(true)).(
              record := Some(Record(Deleted(true), true)), artifacts := {}, strays := s.strays - Todo(s.artifacts),
              abandoned := {})
  {
    MoveLast(s, DropSweeping(Listing(0)), DropOver(true));
  }

  /** An undisturbed drop removes the article and everything written for its key, and reports success; without
      a key on the record there is nothing it could look for. */
  lemma {:induction false} DropClears(s: State, order: seq<Artifact>)
    requires Orders(order, Todo(s.artifacts))
    ensures var t := |s.threads|;
            var keyed := s.record.Some? && s.record.value.keyed;
            var acts := [DropRequest, BindDeleted(t)] + if keyed then Sweeps(t, order) else [];
            && LegalRun(s, acts)
            && After(s, acts) == With(s, DropOver(true)).(
                 record := Some(Record(Deleted(true), keyed)),
                 artifacts := if keyed then {} else s.artifacts,
                 strays := if keyed then s.strays - Todo(s.artifacts) else s.strays,
                 abandoned := if keyed then {} else s.abandoned)
  {
    hide Step, Enabled, LegalRun, After, Swept, SweptOnce, Sweeps, Orders, Todo;
    var t := |s.threads|;
    var keyed := s.record.Some? && s.record.value.keyed;
    DropBinds(s);
    var s2 := Bound(s);
    if keyed {
      MoveLast(s, DropSweeping(Listing(0)), DropOver(true));
      SweepClears(s2, t, order);
      Compose(s, [DropRequest, BindDeleted(t)], Sweeps(t, order));
      DropIsSwept(s);
    } else {
      assert [DropRequest, BindDeleted(t)] + [] == [DropRequest, BindDeleted(t)];
    }
  }

  // --- a job ----------------------------------------------------------------------------------

  const LIVE: Option<Record> := Some(Record(Generating, true))

  function Enters(t: nat): seq<Act> {
    [Read(t), TakeLock(t)] + [Announce(t), Check(t)]
  }

  lemma {:induction false} JobAnnounces(s: State)
    requires !IsDeleted(s.record)
    ensures var t := |s.threads|;
            var s2 := With(s, Locked).(lock := Some(t));
            && LegalRun(s2, [Announce(t), Check(t)])
            && After(s2, [Announce(t), Check(t)]) == With(s, Body).(record := LIVE, lock := Some(t))
  {
    var t := |s.threads|;
    MoveLast(s, Locked, Announced);
    MoveLast(s, Announced, Body);
    var s3 := With(s, Announced).(record := LIVE, lock := Some(t));
    ChainRuns([With(s, Locked).(lock := Some(t)), s3, With(s, Body).(record := LIVE, lock := Some(t))],
              [Announce(t), Check(t)]);
  }

  /** A job about a live article comes to the inside of its try. */
  lemma {:induction false} JobEnters(s: State)
    requires s.lock == None && !IsDeleted(s.record)
    ensures var t := |s.threads|;
            && LegalRun(With(s, Begun), Enters(t))
            && After(With(s, Begun), Enters(t)) == With(s, Body).(record := LIVE, lock := Some(t))
  {
    var t := |s.threads|;
    MoveLast(s, Begun, Chosen);
    MoveLast(s, Chosen, Locked);
    ChainRuns([With(s, Begun), With(s, Chosen), With(s, Locked).(lock := Some(t))], [Read(t), TakeLock(t)]);
    JobAnnounces(s);
    hide Step, Enabled, LegalRun, After;
    Compose(With(s, Begun), [Read(t), TakeLock(t)], [Announce(t), Check(t)]);
  }

  /** What a job does inside its try: it writes files, erases temporary ones of its own, reports progress, and
      checks for a drop. */
  predicate IsWork(t: nat, work: seq<Act>) {
    forall k | 0 <= k < |work| ::
      && (work[k].Put? || work[k].Check? || (work[k].Erase? && work[k].artifact.Tmp?) ||
          (work[k].Publish? && !work[k].status.Deleted?))
      && work[k].t == t
  }

  /** The files there are when it has done that. */
  function Made(files: set<Artifact>, work: seq<Act>): set<Artifact> {
    if work == [] then files
    else
      var before, a := Made(files, work[..|work| - 1]), work[|work| - 1];
      if a.Put? then before + {a.artifact} else if a.Erase? then before - {a.artifact} else before
  }

  function Handled(work: seq<Act>): set<Artifact> {
    set k | 0 <= k < |work| && (work[k].Put? || work[k].Erase?) :: work[k].artifact
  }

  /** The status it reported last. */
  function Reported(status: Status, work: seq<Act>): Status {
    if work == [] then status
    else if work[|work| - 1].Publish? then work[|work| - 1].status
    else Reported(status, work[..|work| - 1])
  }

  function Worked(s: State, work: seq<Act>): State {
    s.(artifacts := Made(s.artifacts, work), strays := s.strays - Handled(work),
       abandoned := s.abandoned - Handled(work))
  }

  /** The state of a job at work on a live article. */
  predicate AtWork(s: State, t: nat) {
    t < |s.threads| && s.threads[t].Body? && s.record.Some? && s.record.value.keyed && !IsDeleted(s.record)
  }

  function WorkDone(s: State, work: seq<Act>): State
    requires s.record.Some?
  {
    Worked(s, work).(record := Some(Record(Reported(s.record.value.status, work), true)))
  }

  lemma {:induction false} ReportedIsLive(status: Status, t: nat, work: seq<Act>)
    requires !status.Deleted? && IsWork(t, work)
    ensures !Reported(status, work).Deleted?
    decreases |work|
  {
    if work != [] && !work[|work| - 1].Publish? {
      ReportedIsLive(status, t, work[..|work| - 1]);
    }
  }

  lemma {:induction false} WorkStep(s: State, t: nat, work: seq<Act>, a: Act)
    requires AtWork(s, t) && IsWork(t, work + [a])
    ensures Enabled(WorkDone(s, work), a) && Step(WorkDone(s, work), a) == WorkDone(s, work + [a])
  {
    var all := work + [a];
    assert all[|all| - 1] == a && all[..|all| - 1] == work;
    assert IsWork(t, work) by {
      assert forall k | 0 <= k < |work| :: all[k] == work[k];
    }
    ReportedIsLive(s.record.value.status, t, work);
    assert s.threads[t := Body] == s.threads;
    HandledMore(work, a);
    var more: set<Artifact> := if a.Put? || a.Erase? then {a.artifact} else {};
    assert s.strays - Handled(work) - more == s.strays - Handled(all);
    assert s.abandoned - Handled(work) - more == s.abandoned - Handled(all);
    assert a.Put? ==> Made(s.artifacts, work) - {a.artifact} + {a.artifact} == Made(s.artifacts, work) + {a.artifact};
  }

  lemma HandledMore(work: seq<Act>, a: Act)
    ensures Handled(work + [a]) == Handled(work) + if a.Put? || a.Erase? then {a.artifact} else {}
  {
    var all := work + [a];
    forall x | x in Handled(work) ensures x in Handled(all) {
      var k :| 0 <= k < |work| && (work[k].Put? || work[k].Erase?) && work[k].artifact == x;
      assert all[k] == work[k];
    }
    assert all[|work|] == a;
  }

  lemma {:induction false} WorkRuns(s: State, t: nat, work: seq<Act>)
    requires AtWork(s, t) && IsWork(t, work)
    ensures LegalRun(s, work) && After(s, work) == WorkDone(s, work)
    ensures AtWork(WorkDone(s, work), t)
    decreases |work|
  {
    hide Step, Enabled, Made, Handled;
    ReportedIsLive(s.record.value.status, t, work);
    if work == [] {
      NothingDone(s);
    } else {
      var n := |work| - 1;
      var front, a := work[..n], work[n];
      assert work == front + [a];
      assert forall k | 0 <= k < n :: front[k] == work[k];
      WorkRuns(s, t, front);
      WorkStep(s, t, front, a);
    }
  }

  lemma NothingDone(s: State)
    ensures Worked(s, []) == s
  {
    assert s.strays - Handled([]) == s.strays && s.abandoned - Handled([]) == s.abandoned;
  }

  const READY: Option<Record> := Some(Record(Ready, true))

  /** The end of the finally clause, about a live article. */
  lemma {:induction false} JobUnlocks(s: State, t: nat)
    requires t < |s.threads| && !IsDeleted(s.record)
    ensures LegalRun(Move(s, t, Leaving), [Leave(t), Unlock(t)])
    ensures After(Move(s, t, Leaving), [Leave(t), Unlock(t)]) == Move(s, t, Over(true, false)).(lock := None)
  {
    ChainRuns([Move(s, t, Leaving), Move(s, t, Unlocking), Move(s, t, Over(true, false)).(lock := None)],
              [Leave(t), Unlock(t)]);
  }

  function Leaves(t: nat): seq<Act> {
    [Check(t), Publish(t, Ready), Finish(t)] + [Leave(t), Unlock(t)]
  }

  /** From inside its try, with its audio written, it publishes that and gives the lock back. */
  lemma {:induction false} JobLeaves(s: State, t: nat)
    requires t < |s.threads| && s.threads[t].Body? && !IsDeleted(s.record)
    ensures LegalRun(s, Leaves(t))
    ensures After(s, Leaves(t)) == Move(s, t, Over(true, false)).(record := READY, lock := None)
  {
    var s2 := s.(record := READY);
    assert s.threads[t := Body] == s.threads;
    ChainRuns([s, s, s2, Move(s2, t, Leaving)], [Check(t), Publish(t, Ready), Finish(t)]);
    JobUnlocks(s2, t);
    hide Step, Enabled, LegalRun, After;
    Compose(s, [Check(t), Publish(t, Ready), Finish(t)], [Leave(t), Unlock(t)]);
  }

  function Fails(t: nat): seq<Act> {
    [Fail(t), HandleFailure(t), Report(t)] + [Leave(t), Unlock(t)]
  }

  /** From there it fails, reports a fallback, and gives the lock back all the same. */
  lemma {:induction false} JobFails(s: State, t: nat)
    requires t < |s.threads| && s.threads[t].Body? && !IsDeleted(s.record)
    ensures LegalRun(s, Fails(t))
    ensures After(s, Fails(t)) ==
            Move(s, t, Over(true, false)).(record := Some(Record(Fallback, true)), lock := None)
  {
    var s2 := s.(record := Some(Record(Fallback, true)));
    ChainRuns([s, Move(s, t, Failing), Move(s, t, Reporting), Move(s2, t, Leaving)],
              [Fail(t), HandleFailure(t), Report(t)]);
    JobUnlocks(s2, t);
    hide Step, Enabled, LegalRun, After;
    Compose(s, [Fail(t), HandleFailure(t), Report(t)], [Leave(t), Unlock(t)]);
  }

  /** A request that finds the lock free and the record such that a job is due. */
  function Asks(force: bool): Act {
    Request(false, force, false)
  }

  predicate Due(s: State, force: bool) {
    s.lock == None && Enqueue(s.record, false, force, false, false).1
  }

  /** A job that finds the audio in the cache, the breaker open or the lock held binds that status and is over; one
      that is put off for want of memory is over without a word. */
  lemma {:induction false} ReturningJobBinds(s: State, status: Option<Status>)
    requires !IsDeleted(s.record) && (status.Some? ==> !status.value.Deleted?)
    ensures var t := |s.threads|;
            var acts := [Read(t), Return(t, status)];
            && LegalRun(With(s, Begun), acts)
            && After(With(s, Begun), acts) ==
               With(s, Over(false, false)).(
                 record := if status.Some? then Some(Record(status.value, true)) else s.record)
  {
    var t := |s.threads|;
    var s2 := With(s, Over(false, false)).(
      record := if status.Some? then Some(Record(status.value, true)) else s.record);
    MoveLast(s, Begun, Chosen);
    MoveLast(s, Chosen, Over(false, false));
    ChainRuns([With(s, Begun), With(s, Chosen), s2], [Read(t), Return(t, status)]);
  }

  lemma {:induction false} RequestEnters(s: State, force: bool)
    requires Due(s, force)
    ensures var t := |s.threads|;
            && LegalRun(s, [Asks(force)] + Enters(t))
            && After(s, [Asks(force)] + Enters(t)) == With(s, Body).(record := LIVE, lock := Some(t))
  {
    EnqueueIsExact(s.record, false, force, false, false);
    var s1 := s.(record := Some(Record(Queued, true)));
    assert Step(s, Asks(force)) == With(s1, Begun);
    JobEnters(s1);
    hide Step, Enabled, Enters;
    NoActs(s);
    Then(s, [], s, Asks(force));
    assert [] + [Asks(force)] == [Asks(force)];
    Compose(s, [Asks(force)], Enters(|s.threads|));
    assert With(s1, Body).(record := LIVE, lock := Some(|s.threads|)) ==
           With(s, Body).(record := LIVE, lock := Some(|s.threads|));
  }

  /** Whatever was there before and whatever the job writes, erases and reports on the way: a request for which one
      is due starts it, and undisturbed it ends with the article ready, with the files it has made, and with the
      lock free. */
  lemma {:induction false} UndisturbedJobIsReady(s: State, force: bool, work: seq<Act>)
    requires Due(s, force) && IsWork(|s.threads|, work)
    ensures var t := |s.threads|;
            var acts := [Asks(force)] + Enters(t) + work + Leaves(t);
            && LegalRun(s, acts)
            && After(s, acts) == With(Worked(s, work), Over(true, false)).(record := READY, lock := None)
  {
    hide Step, Enabled, Enters, Leaves, LegalRun, After, Due, IsWork, Made, Handled;
    var t := |s.threads|;
    RequestEnters(s, force);
    var s1 := With(s, Body).(record := LIVE, lock := Some(t));
    WorkRuns(s1, t, work);
    Compose(s, [Asks(force)] + Enters(t), work);
    JobLeaves(WorkDone(s1, work), t);
    MoveLast(s, Body, Over(true, false));
    Compose(s, [Asks(force)] + Enters(t) + work, Leaves(t));
  }

  /** And one that fails on the way ends with a fallback, also with the lock free. */
  lemma {:induction false} FailedJobFallsBack(s: State, force: bool, work: seq<Act>)
    requires Due(s, force) && IsWork(|s.threads|, work)
    ensures var t := |s.threads|;
            var acts := [Asks(force)] + Enters(t) + work + Fails(t);
            && LegalRun(s, acts)
            && After(s, acts) == With(Worked(s, work), Over(true, false)).(
                 record := Some(Record(Fallback, true)), lock := None)
  {
    hide Step, Enabled, Enters, Fails, LegalRun, After, Due, IsWork, Made, Handled;
    var t := |s.threads|;
    RequestEnters(s, force);
    var s1 := With(s, Body).(record := LIVE, lock := Some(t));
    WorkRuns(s1, t, work);
    Compose(s, [Asks(force)] + Enters(t), work);
    JobFails(WorkDone(s1, work), t);
    MoveLast(s, Body, Over(true, false));
    Compose(s, [Asks(force)] + Enters(t) + work, Fails(t));
  }

  // --- a job about a deleted article --------------------------------------------------------------

  /** The state with nothing left of the article, and thread `t` at `th`. */
  function Cleaned(s: State, t: nat, th: Thread): State
    requires t < |s.threads|
  {
    Move(s, t, th).(artifacts := {}, strays := s.strays - Todo(s.artifacts), abandoned := {})
  }

  lemma CleanedTwice(s: State, t: nat, th: Thread, th': Thread)
    requires t < |s.threads|
    ensures Cleaned(Cleaned(s, t, th), t, th') == Cleaned(s, t, th') == Cleaned(Move(s, t, th), t, th')
    ensures Cleaned(s, t, th).threads[t] == th
  {
    assert s.threads[t := th][t := th'] == s.threads[t := th'];
    assert s.strays - Todo(s.artifacts) - Todo({}) == s.strays - Todo(s.artifacts) by {
      assert Todo({}) <= Todo(s.artifacts);
    }
  }

  /** After some actions, the thread's deletion. */
  lemma {:induction false} ThenSweep(start: State, acts: seq<Act>, s: State, t: nat, th: Thread)
    returns (all: seq<Act>)
    requires LegalRun(start, acts) && After(start, acts) == s && ActsOf(t, acts)
    requires t < |s.threads| && s.threads[t] == th
    requires SweepOf(th).Some? && SweepOf(th).value.Listing?
    ensures LegalRun(start, all) && ActsOf(t, all) && After(start, all) == Cleaned(s, t, Swept(th, true))
  {
    hide Step, Enabled, LegalRun, After, Sweeps, SweepOf, Swept, Todo;
    var order := SomeOrder(Todo(s.artifacts));
    SweepClears(s, t, order);
    Compose(start, acts, Sweeps(t, order));
    all := acts + Sweeps(t, order);
  }

  lemma {:induction false} ThenMove(start: State, acts: seq<Act>, s: State, t: nat, a: Act)
    returns (all: seq<Act>)
    requires LegalRun(start, acts) && After(start, acts) == s && ActsOf(t, acts)
    requires !Spawning(a) && a.t == t && Enabled(s, a)
    ensures LegalRun(start, all) && ActsOf(t, all) && After(start, all) == Step(s, a)
  {
    hide Step, Enabled;
    Then(start, acts, s, a);
    all := acts + [a];
  }

  /** A job that starts for a deleted article clears it and is over, without the lock. */
  lemma {:induction false} RefusedJobCleans(s: State, t: nat) returns (acts: seq<Act>)
    requires t < |s.threads| && s.threads[t].Begun? && IsDeleted(s.record)
    ensures LegalRun(s, acts) && ActsOf(t, acts) && After(s, acts) == Cleaned(s, t, Over(false, false))
  {
    var th := Thread.Refused(Listing(0));
    assert Step(s, Read(t)) == Move(s, t, th);
    hide Step, LegalRun, After, Cleaned;
    NoActs(s);
    acts := ThenMove(s, [], s, t, Read(t));
    acts := ThenSweep(s, acts, Move(s, t, th), t, th);
    CleanedTwice(s, t, th, Over(false, false));
  }

  /** One that finds its article deleted between taking the lock and its try clears it too, but is over with the
      lock still taken. */
  lemma {:induction false} EarlyAbortKeepsLock(s: State, t: nat) returns (acts: seq<Act>)
    requires t < |s.threads| && s.threads[t].Announced? && IsDeleted(s.record)
    ensures LegalRun(s, acts) && ActsOf(t, acts) && After(s, acts) == Cleaned(s, t, Over(false, true))
    ensures After(s, acts).lock == s.lock
  {
    var th := Aborting(Listing(0));
    assert Step(s, Check(t)) == Move(s, t, th);
    hide Step, LegalRun, After;
    NoActs(s);
    acts := ThenMove(s, [], s, t, Check(t));
    acts := ThenSweep(s, acts, Move(s, t, th), t, th);
    CleanedTwice(s, t, th, Over(false, true));
  }

  /** A job that finds its article deleted inside its try, by its own check or on the way out of an error,
      clears it, gives the lock back and is over. */
  lemma {:induction false} DroppedJobCleans(s: State, t: nat, failing: bool) returns (acts: seq<Act>)
    requires t < |s.threads| && s.threads[t].Body? && IsDeleted(s.record)
    ensures LegalRun(s, acts) && ActsOf(t, acts)
    ensures After(s, acts) == Cleaned(s, t, Over(true, false)).(lock := None)
  {
    hide LegalRun, After;
    NoActs(s);
    if failing {
      acts := ThenMove(s, [], s, t, Fail(t));
      acts := ThenMove(s, acts, Move(s, t, Failing), t, HandleFailure(t));
      var th := FailingDropped(Listing(0));
      assert s.threads[t := Failing][t := th] == s.threads[t := th];
      acts := ThenSweep(s, acts, Move(s, t, th), t, th);
      CleanedTwice(s, t, th, Leaving);
    } else {
      acts := ThenMove(s, [], s, t, Check(t));
      var th := BodyAborting(Listing(0));
      acts := ThenSweep(s, acts, Move(s, t, th), t, th);
      var th' := Dropped(Listing(0));
      CleanedTwice(s, t, th, th');
      acts := ThenSweep(s, acts, Cleaned(s, t, th'), t, th');
      CleanedTwice(s, t, th', Leaving);
    }
    acts := DroppedJobLeaves(s, t, acts);
  }

  lemma {:induction false} DroppedJobLeaves(s: State, t: nat, before: seq<Act>) returns (acts: seq<Act>)
    requires t < |s.threads| && IsDeleted(s.record)
    requires LegalRun(s, before) && ActsOf(t, before) && After(s, before) == Cleaned(s, t, Leaving)
    ensures LegalRun(s, acts) && ActsOf(t, acts)
    ensures After(s, acts) == Cleaned(s, t, Over(true, false)).(lock := None)
  {
    hide LegalRun, After, Step, Enabled, Cleaned;
    var th := LeavingDropped(Listing(0));
    DroppedJobTurns(s, t);
    CleanedTwice(s, t, Leaving, th);
    CleanedTwice(s, t, th, Unlocking);
    acts := ThenMove(s, before, Cleaned(s, t, Leaving), t, Leave(t));
    acts := ThenSweep(s, acts, Cleaned(s, t, th), t, th);
    acts := ThenMove(s, acts, Cleaned(s, t, Unlocking), t, Unlock(t));
  }

  lemma {:induction false} DroppedJobTurns(s: State, t: nat)
    requires t < |s.threads| && IsDeleted(s.record)
    ensures |Cleaned(s, t, Leaving).threads| == |Cleaned(s, t, Unlocking).threads| == |s.threads|
    ensures |Cleaned(s, t, LeavingDropped(Listing(0))).threads| == |s.threads|
    ensures var s1 := Cleaned(s, t, Leaving);
            Enabled(s1, Leave(t)) && Step(s1, Leave(t)) == Cleaned(s, t, LeavingDropped(Listing(0)))
    ensures var s1 := Cleaned(s, t, Unlocking);
            Enabled(s1, Unlock(t)) && Step(s1, Unlock(t)) == Cleaned(s, t, Over(true, false)).(lock := None)
  {
    assert s.threads[t := Leaving][t := LeavingDropped(Listing(0))] == s.threads[t := LeavingDropped(Listing(0))];
    assert s.threads[t := Unlocking][t := Over(true, false)] == s.threads[t := Over(true, false)];
  }

  // --- attempts that fail -------------------------------------------------------------------------

  /** The thread's deletion tries `k` times, each time failing at some file. */
  function Attempts(t: nat, k: nat): seq<Act> {
    if k == 0 then [] else Attempts(t, k - 1) + [Act.List(t), RemoveFails(t)]
  }

  /** The state when the deletion has failed `k` times. */
  function Tried(s: State, t: nat, k: nat): State
    requires t < |s.threads| && SweepOf(s.threads[t]).Some? && k <= ATTEMPTS
  {
    var th := s.threads[t];
    if k == 0 then s
    else if k < ATTEMPTS then Move(s, t, WithSweep(th, Listing(k))).(abandoned := {})
    else Move(s, t, Swept(th, false)).(abandoned := s.artifacts)
  }

  lemma {:induction false} TryStep(s: State, t: nat, k: nat)
    requires t < |s.threads| && SweepOf(s.threads[t]) == Some(Listing(0)) && k < ATTEMPTS
    ensures var s0 := Tried(s, t, k);
            && LegalRun(s0, [Act.List(t), RemoveFails(t)])
            && After(s0, [Act.List(t), RemoveFails(t)]) == Tried(s, t, k + 1)
  {
    var s0 := Tried(s, t, k);
    var s1 := Removed(s0, t, Todo(s0.artifacts));
    ListStep(s0, t);
    RetryStep(s0, t, k);
    TriedAgain(s, t, k);
    hide Step, Enabled, Tried, Removed;
    ChainRuns([s0, s1, Tried(s, t, k + 1)], [Act.List(t), RemoveFails(t)]);
  }

  /** The state after one more failed attempt. */
  function FailedAgain(s: State, t: nat, k: nat): State
    requires t < |s.threads| && SweepOf(s.threads[t]).Some?
  {
    if k + 1 < ATTEMPTS then Move(s, t, WithSweep(s.threads[t], Listing(k + 1))).(abandoned := {})
    else Move(s, t, Swept(s.threads[t], false)).(abandoned := s.artifacts)
  }

  lemma {:induction false} RetryStep(s: State, t: nat, k: nat)
    requires t < |s.threads| && SweepOf(s.threads[t]) == Some(Listing(k)) && k < ATTEMPTS
    ensures var s1 := Removed(s, t, Todo(s.artifacts));
            Enabled(s1, RemoveFails(t)) && Step(s1, RemoveFails(t)) == FailedAgain(s, t, k)
  {
    ListStep(s, t);
    var s1 := Removed(s, t, Todo(s.artifacts));
    var th := if k + 1 < ATTEMPTS then WithSweep(s.threads[t], Listing(k + 1)) else Swept(s.threads[t], false);
    assert s1.threads[t := th] == s.threads[t := th];
    assert s1.artifacts == s.artifacts && s1.strays == s.strays by {
      assert Todo(s.artifacts) - Todo(s.artifacts) == {};
    }
  }

  lemma {:induction false} TriedAgain(s: State, t: nat, k: nat)
    requires t < |s.threads| && SweepOf(s.threads[t]) == Some(Listing(0)) && k < ATTEMPTS
    ensures var s0 := Tried(s, t, k);
            && t < |s0.threads| && SweepOf(s0.threads[t]) == Some(Listing(k))
            && FailedAgain(s0, t, k) == Tried(s, t, k + 1)
  {
    var s0, s1 := Tried(s, t, k), Tried(s, t, k + 1);
    assert s0.threads[t := s1.threads[t]] == s1.threads;
  }

  lemma {:induction false} AttemptsFail(s: State, t: nat, k: nat)
    requires t < |s.threads| && SweepOf(s.threads[t]) == Some(Listing(0)) && k <= ATTEMPTS
    ensures LegalRun(s, Attempts(t, k)) && After(s, Attempts(t, k)) == Tried(s, t, k)
  {
    hide LegalRun, After, Step, Enabled, Tried, SweepOf;
    if k == 0 {
      NoActs(s);
      assert Tried(s, t, 0) == s by {
        TriedNone(s, t);
      }
    } else {
      AttemptsFail(s, t, k - 1);
      TryStep(s, t, k - 1);
      Compose(s, Attempts(t, k - 1), [Act.List(t), RemoveFails(t)]);
    }
  }

  lemma TriedNone(s: State, t: nat)
    requires t < |s.threads| && SweepOf(s.threads[t]).Some?
    ensures Tried(s, t, 0) == s
  {
  }

  /** A drop whose deletion fails up to four times and then goes through still clears everything and reports
      success; one that fails five times leaves every file and reports failure. */
  lemma {:induction false} DropRetries(s: State, t: nat, k: nat, order: seq<Artifact>)
    requires t < |s.threads| && s.threads[t] == DropSweeping(Listing(0))
    requires k <= 5 && Orders(order, Todo(s.artifacts))
    ensures k <= 4 ==>
              && LegalRun(s, Attempts(t, k) + Sweeps(t, order))
              && After(s, Attempts(t, k) + Sweeps(t, order)) == Cleaned(s, t, DropOver(true))
    ensures k == 5 ==>
              && LegalRun(s, Attempts(t, k))
              && After(s, Attempts(t, k)) == Move(s, t, DropOver(false)).(abandoned := s.artifacts)
  {
    hide LegalRun, After, Step, Enabled;
    AttemptsFail(s, t, k);
    if k < ATTEMPTS {
      SweepClears(Tried(s, t, k), t, order);
      Compose(s, Attempts(t, k), Sweeps(t, order));
      assert Tried(s, t, k).threads[t := DropOver(true)] == s.threads[t := DropOver(true)];
    }
  }

  // --- a dropped job does no more work ------------------------------------------------------------

  /** The thread is past its work. */
  predicate Stopped(th: Thread) {
    th.Aborting? || th.BodyAborting? || th.Dropped? || th.FailingDropped? || th.Leaving? || th.LeavingDropped? ||
    th.Unlocking? || th.Over?
  }

  lemma {:induction false} StepKeepsStopped(s: State, a: Act, t: nat)
    requires Enabled(s, a) && t < |s.threads| && Stopped(s.threads[t])
    ensures t < |Step(s, a).threads| && Stopped(Step(s, a).threads[t])
    ensures !Spawning(a) && a.t == t ==> !a.Put? && !a.Erase? && !a.Publish? && !a.Report?
  {
  }

  lemma {:induction false} CheckStops(s: State, t: nat, a: Act)
    requires (a == Check(t) || a == HandleFailure(t)) && Enabled(s, a) && IsDeleted(s.record)
    ensures t < |Step(s, a).threads| && Stopped(Step(s, a).threads[t])
  {
  }

  /** Once a job has come to a check, or to the handler of an error, with its article deleted, it writes and
      publishes nothing more, whatever the others do. */
  lemma {:induction false} DroppedJobStops(start: State, before: seq<Act>, t: nat, a: Act, more: seq<Act>)
    requires a == Check(t) || a == HandleFailure(t)
    requires LegalRun(start, before + [a] + more) && LegalRun(start, before + [a]) && LegalRun(start, before)
    requires IsDeleted(After(start, before).record)
    ensures forall k | 0 <= k < |more| && !Spawning(more[k]) && more[k].t == t ::
              !more[k].Put? && !more[k].Erase? && !more[k].Publish? && !more[k].Report?
    ensures var s := After(start, before + [a] + more); t < |s.threads| && Stopped(s.threads[t])
    decreases |more|
  {
    hide Step, Enabled, IsDeleted, Stopped;
    if more == [] {
      assert (before + [a])[..|before|] == before;
      assert before + [a] + more == before + [a];
      CheckStops(After(start, before), t, a);
    } else {
      var n := |more| - 1;
      var acts := before + [a] + more;
      assert acts[..|acts| - 1] == before + [a] + more[..n];
      DroppedJobStops(start, before, t, a, more[..n]);
      StepKeepsStopped(After(start, before + [a] + more[..n]), more[n], t);
    }
  }

  // --- a listener ---------------------------------------------------------------------------------

  /** A listener changes no status; with the key it can settle an article for later requests, and does so
      exactly for one that had no record or was ready without a key. */
  lemma {:induction false} ListeningSettles(record: Option<Record>, withKey: bool, force: bool)
    ensures var after := Listened(record, withKey);
            && after.Some?
            && after.value.status == (if record.Some? then record.value.status else Ready)
            && (after.value.keyed <==> (record.Some? && record.value.keyed) || (withKey && !IsDeleted(record)))
            && (Settled(after, force) <==>
                  Settled(record, force) || (withKey && (record == None || record.value.status == Ready)))
  {
  }
}
