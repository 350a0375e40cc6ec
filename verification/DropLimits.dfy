/** Where the promises end: two runs the code allows in which a file outlives a drop that reports success, one in
    which two jobs are at work on an article, and one that leaves an article waiting for nobody. */
module DropLimits {
  import opened Wrappers
  import opened EnqueuePolicy
  import opened Drop
  import opened DropRuns
  import opened DropWorks

  const NOTHING: State := State(None, {}, None, [], {}, {})
  const FALLEN: Option<Record> := Some(Record(Fallback, true))
  const REMOVED: Option<Record> := Some(Record(Deleted(true), true))

  // --- pieces of runs ----------------------------------------------------------------------

  const START: seq<Act> := [Requeue] + Enters(0)

  /** A job comes to the inside of its try. */
  lemma {:induction false} JobStarts()
    ensures LegalRun(NOTHING, START)
    ensures After(NOTHING, START) == State(LIVE, {}, Some(0), [Body], {}, {})
  {
    hide LegalRun, After, Enters;
    assert [] + [Begun] == [Begun] && [] + [Body] == [Body];
    NoActs(NOTHING);
    Then(NOTHING, [], NOTHING, Requeue);
    assert [] + [Requeue] == [Requeue];
    JobEnters(NOTHING);
    Compose(NOTHING, [Requeue], Enters(0));
  }

  const ORDER: seq<Artifact> := [Opus, HdOpus, Meta, Script, CacheRecord]
  const DROP: seq<Act> := [DropRequest, BindDeleted(1)] + Sweeps(1, ORDER)

  /** A drop that meets no file reports success. */
  lemma {:induction false} DropSucceeds(record: Option<Record>, job: Thread, lock: Option<nat>)
    requires record.Some? && record.value.keyed
    ensures var s := State(record, {}, lock, [job], {}, {});
            && LegalRun(s, DROP)
            && After(s, DROP) == State(REMOVED, {}, lock, [job, DropOver(true)], {}, {})
  {
    hide LegalRun, After, Sweeps;
    assert TmpsIn({}) == {};
    DropClears(State(record, {}, lock, [job], {}, {}), ORDER);
    assert [job] + [DropOver(true)] == [job, DropOver(true)];
  }

  // --- a straggler ---------------------------------------------------------------------------

  /** A cloud job fails and ends, the article is dropped with success, and then a synthesis task that the
      job no longer waited for writes its file. */
  const STRAGGLE: seq<Act> := START + Fails(0) + DROP + [Straggle(0, 7)]

  /** Every thread has ended, the drop reported success, no deletion was exhausted, and a file remains. */
  lemma {:induction false} StragglerOutlivesDrop()
    ensures Initial(NOTHING) && LegalRun(NOTHING, STRAGGLE)
    ensures var s := After(NOTHING, STRAGGLE);
            && IsRemoved(s.record) && s.threads == [Over(true, false), DropOver(true)] && s.abandoned == {}
            && s.artifacts == {Tmp(7)}
  {
    hide LegalRun, After, Fails, Sweeps;
    JobStarts();
    var s1 := State(LIVE, {}, Some(0), [Body], {}, {});
    JobFails(s1, 0);
    assert [Body][0 := Over(true, false)] == [Over(true, false)];
    Compose(NOTHING, START, Fails(0));
    DropSucceeds(FALLEN, Over(true, false), None);
    Compose(NOTHING, START + Fails(0), DROP);
    var s3 := State(REMOVED, {}, None, [Over(true, false), DropOver(true)], {}, {});
    Then(NOTHING, START + Fails(0) + DROP, s3, Straggle(0, 7));
    assert {} + {Tmp(7)} == {Tmp(7)};
  }

  // --- an exhausted sweep ----------------------------------------------------------------------

  const FINISH: seq<Act> := [Put(0, Opus), Finish(0), Leave(0)]

  /** The job's own last sweep is about to begin. */
  const LATE: State := State(REMOVED, {Opus}, Some(0), [LeavingDropped(Listing(0)), DropOver(true)], {}, {})

  lemma {:induction false} JobFinishes()
    ensures var s := State(REMOVED, {}, Some(0), [Body, DropOver(true)], {}, {});
            LegalRun(s, FINISH) && After(s, FINISH) == LATE
  {
    var s := State(REMOVED, {}, Some(0), [Body, DropOver(true)], {}, {});
    var s1 := s.(artifacts := {Opus});
    assert {} - {Opus} + {Opus} == {Opus} && {} - {Opus} == {};
    assert [Body, DropOver(true)][0 := Leaving] == [Leaving, DropOver(true)];
    assert [Leaving, DropOver(true)][0 := LeavingDropped(Listing(0))] == [LeavingDropped(Listing(0)), DropOver(true)];
    ChainRuns([s, s1, s1.(threads := [Leaving, DropOver(true)]), LATE], FINISH);
  }

  /** The article is dropped with success while a job is inside its try; the job writes the opus file, and
      its own sweep fails five times. */
  const EXHAUST: seq<Act> := START + DROP + FINISH + Attempts(0, ATTEMPTS) + [Unlock(0)]

  /** Every thread has ended, the drop reported success, no task strayed, and a file remains. */
  lemma {:induction false} ExhaustedSweepOutlivesDrop()
    ensures Initial(NOTHING) && LegalRun(NOTHING, EXHAUST)
    ensures var s := After(NOTHING, EXHAUST);
            && IsRemoved(s.record) && s.threads == [Over(true, false), DropOver(true)] && s.strays == {}
            && s.artifacts == {Opus}
  {
    hide LegalRun, After, Attempts, Sweeps;
    JobStarts();
    DropSucceeds(LIVE, Body, Some(0));
    Compose(NOTHING, START, DROP);
    JobFinishes();
    Compose(NOTHING, START + DROP, FINISH);
    AttemptsFail(LATE, 0, ATTEMPTS);
    Compose(NOTHING, START + DROP + FINISH, Attempts(0, ATTEMPTS));
    var s4 := LATE.(threads := [Unlocking, DropOver(true)], abandoned := {Opus});
    assert LATE.threads[0 := Unlocking] == s4.threads;
    Then(NOTHING, START + DROP + FINISH + Attempts(0, ATTEMPTS), s4, Unlock(0));
    assert s4.threads[0 := Over(true, false)] == [Over(true, false), DropOver(true)];
  }

  // --- an expired lock ---------------------------------------------------------------------------

  /** A job outlives its lock, and another starts for the same article. */
  const TWO_IN: seq<Act> := START + [ExpireLock] + [Requeue] + Enters(1)

  /** Then both are inside their try; and when the first ends it gives away the lock of the second. */
  lemma {:induction false} ExpiryLetsTwoIn()
    ensures Initial(NOTHING) && LegalRun(NOTHING, TWO_IN) && LegalRun(NOTHING, TWO_IN + Fails(0))
    ensures After(NOTHING, TWO_IN).threads == [Body, Body] && After(NOTHING, TWO_IN).lock == Some(1)
    ensures After(NOTHING, TWO_IN + Fails(0)).threads == [Over(true, false), Body]
    ensures After(NOTHING, TWO_IN + Fails(0)).lock == None
  {
    hide LegalRun, After, Enters, Fails;
    JobStarts();
    var s1 := State(LIVE, {}, Some(0), [Body], {}, {});
    var s2, s3 := s1.(lock := None), State(LIVE, {}, Some(1), [Body, Body], {}, {});
    Then(NOTHING, START, s1, ExpireLock);
    Then(NOTHING, START + [ExpireLock], s2, Requeue);
    assert With(s2, Body).threads == s3.threads;
    JobEnters(s2);
    Compose(NOTHING, START + [ExpireLock] + [Requeue], Enters(1));
    JobFails(s3, 0);
    assert s3.threads[0 := Over(true, false)] == [Over(true, false), Body];
    Compose(NOTHING, TWO_IN, Fails(0));
  }

  // --- late progress -----------------------------------------------------------------------------

  /** A cloud job fails and reports its fallback, and then a task it no longer waited for reports progress. */
  const STRAND: seq<Act> := START + Fails(0) + [StragglerPublishes(0)]

  /** Nobody is at work, and the article is said to be generating, so that no request starts a job for it. */
  lemma {:induction false} LateProgressStrands(requestedReady: bool, force: bool, breakerOpen: bool)
    ensures Initial(NOTHING) && LegalRun(NOTHING, STRAND)
    ensures var s := After(NOTHING, STRAND);
            && s.threads == [Over(true, false)] && s.lock == None && s.record == LIVE
            && Enqueue(s.record, requestedReady, force, breakerOpen, false) == (s.record, false)
  {
    hide LegalRun, After, Fails;
    JobStarts();
    var s1 := State(LIVE, {}, Some(0), [Body], {}, {});
    JobFails(s1, 0);
    assert [Body][0 := Over(true, false)] == [Over(true, false)];
    Compose(NOTHING, START, Fails(0));
    Then(NOTHING, START + Fails(0), State(FALLEN, {}, None, [Over(true, false)], {}, {}), StragglerPublishes(0));
  }
}
