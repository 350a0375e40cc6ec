/** Drop always wins, in every interleaving. */
module DropRuns {
  import opened Wrappers
  import opened EnqueuePolicy
  import opened Drop

  // --- runs -----------------------------------------------------------------------------------

  /** Nothing written for the article's key and nobody at work on it. */
  predicate Initial(s: State) {
    s.artifacts == {} && s.lock == None && s.threads == [] && s.strays == {} && s.abandoned == {}
  }

  predicate LegalRun(start: State, acts: seq<Act>)
    decreases |acts|, 0
  {
    acts == [] ||
    (LegalRun(start, acts[..|acts| - 1]) && Enabled(After(start, acts[..|acts| - 1]), acts[|acts| - 1]))
  }

  function After(start: State, acts: seq<Act>): State
    requires LegalRun(start, acts)
    decreases |acts|, 1
  {
    if acts == [] then start else Step(After(start, acts[..|acts| - 1]), acts[|acts| - 1])
  }

  lemma {:induction false} Compose(start: State, acts: seq<Act>, more: seq<Act>)
    requires LegalRun(start, acts) && LegalRun(After(start, acts), more)
    ensures LegalRun(start, acts + more) && After(start, acts + more) == After(After(start, acts), more)
    decreases |more|
  {
    hide Step, Enabled;
    if more == [] {
      assert acts + more == acts;
    } else {
      Compose(start, acts, more[..|more| - 1]);
      assert (acts + more)[..|acts + more| - 1] == acts + more[..|more| - 1];
    }
  }

  /** Each action leads from one state of the list to the next. */
  predicate Chain(states: seq<State>, acts: seq<Act>) {
    |states| == |acts| + 1 &&
    forall k | 0 <= k < |acts| :: Enabled(states[k], acts[k]) && Step(states[k], acts[k]) == states[k + 1]
  }

  lemma {:induction false} ChainRuns(states: seq<State>, acts: seq<Act>)
    requires Chain(states, acts)
    ensures LegalRun(states[0], acts) && After(states[0], acts) == states[|acts|]
    decreases |acts|
  {
    hide Step, Enabled;
    if acts != [] {
      var n := |acts| - 1;
      ChainRuns(states[..n + 1], acts[..n]);
      assert Enabled(states[n], acts[n]) && Step(states[n], acts[n]) == states[n + 1];
    }
  }

  // --- the tombstone ------------------------------------------------------------------------

  lemma {:induction false} StepKeepsRemoved(s: State, a: Act)
    requires Enabled(s, a) && IsRemoved(s.record)
    ensures IsRemoved(Step(s, a).record)
  {
  }

  /** An article once removed stays removed, whatever requests, jobs and listeners do. */
  lemma {:induction false} RemovedStaysRemoved(start: State, before: seq<Act>, more: seq<Act>)
    requires LegalRun(start, before + more) && LegalRun(start, before) && IsRemoved(After(start, before).record)
    ensures IsRemoved(After(start, before + more).record)
    decreases |more|
  {
    hide Step, Enabled, IsRemoved;
    if more == [] {
      assert before + more == before;
    } else {
      var n := |more| - 1;
      var acts := before + more;
      assert acts[..|acts| - 1] == before + more[..n];
      RemovedStaysRemoved(start, before, more[..n]);
      StepKeepsRemoved(After(start, before + more[..n]), more[n]);
    }
  }

  // --- the invariant -----------------------------------------------------------------------

  /** The sweep will still remove the artifact, or fail to. */
  predicate SweepCovers(sw: Sweep, x: Artifact) {
    sw.Listing? || x in sw.todo
  }

  /** The thread answers for the artifact: on a removed article it cannot end before a sweep of its own
      has removed it, or failed to. */
  predicate Covers(th: Thread, x: Artifact) {
    match th
    case Body => true
    case BodyAborting(_) => true
    case Dropped(_) => true
    case Failing => true
    case FailingDropped(_) => true
    case Reporting => true
    case Leaving => true
    case LeavingDropped(sw) => SweepCovers(sw, x)
    case Refused(sw) => SweepCovers(sw, x)
    case Aborting(sw) => SweepCovers(sw, x)
    case DropSweeping(sw) => SweepCovers(sw, x)
    case _ => false
  }

  predicate Covered(threads: seq<Thread>, x: Artifact) {
    exists t :: 0 <= t < |threads| && Covers(threads[t], x)
  }

  /** Nobody need answer for it: a task wrote it that no job waited for, or a deletion gave it up. */
  predicate Excused(s: State, x: Artifact) {
    x in s.strays || x in s.abandoned
  }

  /** On a removed article every other artifact has a thread to answer for it. */
  predicate Answered(s: State) {
    && s.strays <= s.artifacts && s.abandoned <= s.artifacts
    && (IsRemoved(s.record) ==> forall x | x in s.artifacts && !Excused(s, x) :: Covered(s.threads, x))
  }

  predicate InTry(th: Thread) {
    th.Body? || th.BodyAborting? || th.Dropped? || PastTry(th)
  }

  /** The record carries the key before anything can be written under it. */
  predicate KeyedFor(record: Option<Record>, th: Thread) {
    && (InTry(th) ==> record.Some? && record.value.keyed)
    && (th.Announced? ==> record.Some? && (record.value.keyed || record.value.status.Deleted?))
  }

  predicate Keyed(s: State) {
    && (s.artifacts != {} ==> s.record.Some? && s.record.value.keyed)
    && (forall t | 0 <= t < |s.threads| :: KeyedFor(s.record, s.threads[t]))
  }

  // --- what every step keeps --------------------------------------------------------------

  lemma {:induction false} CoveredKept(threads: seq<Thread>, t: nat, th: Thread, x: Artifact)
    requires t < |threads| && Covered(threads, x) && (Covers(threads[t], x) ==> Covers(th, x))
    ensures Covered(threads[t := th], x)
  {
    hide Covers;
    var u :| 0 <= u < |threads| && Covers(threads[u], x);
    assert Covers(threads[t := th][u], x);
  }

  lemma {:induction false} CoveredGrows(threads: seq<Thread>, more: seq<Thread>, x: Artifact)
    requires Covered(threads, x)
    ensures Covered(threads + more, x)
  {
    hide Covers;
    var u :| 0 <= u < |threads| && Covers(threads[u], x);
    assert Covers((threads + more)[u], x);
  }

  lemma {:induction false} RequestKeepsAnswered(s: State, a: Act)
    requires Spawning(a) && Answered(s)
    ensures Answered(Step(s, a))
  {
    hide Covered;
    var s' := Step(s, a);
    assert IsRemoved(s'.record) <==> IsRemoved(s.record);
    forall x | x in s.artifacts && Covered(s.threads, x) ensures Covered(s'.threads, x) {
      CoveredGrows(s.threads, s'.threads[|s.threads|..], x);
      assert s'.threads == s.threads + s'.threads[|s.threads|..];
    }
  }

  /** A thread that moves on without giving up what it answers for, unless that is excused. */
  lemma {:induction false} MoveKeepsAnswered(s: State, t: nat, th: Thread, s': State)
    requires t < |s.threads| && s'.threads == s.threads[t := th]
    requires Answered(s) && (IsRemoved(s'.record) ==> IsRemoved(s.record))
    requires s'.strays <= s'.artifacts && s'.abandoned <= s'.artifacts
    requires IsRemoved(s'.record) ==>
               forall x | x in s'.artifacts && !Excused(s', x) && !Covers(th, x) ::
                 x in s.artifacts && !Excused(s, x) && !Covers(s.threads[t], x)
    ensures Answered(s')
  {
    hide Covers, Covered, Excused;
    if IsRemoved(s'.record) {
      forall x | x in s'.artifacts && !Excused(s', x) ensures Covered(s'.threads, x) {
        if Covers(th, x) {
          OneCovers(s'.threads, t, x);
        } else {
          CoveredKept(s.threads, t, th, x);
        }
      }
    }
  }

  lemma OneCovers(threads: seq<Thread>, t: nat, x: Artifact)
    requires t < |threads| && Covers(threads[t], x)
    ensures Covered(threads, x)
  {
  }

  predicate Sweeping(a: Act) {
    a.List? || a.Remove? || a.RemoveFails? || a.Verify?
  }

  lemma {:induction false} SweepKeepsAnswered(s: State, a: Act)
    requires Sweeping(a) && Enabled(s, a) && Answered(s) && !a.List?
    ensures Answered(Step(s, a))
  {
    var s' := Step(s, a);
    assert s'.threads == s.threads[a.t := s'.threads[a.t]];
    MoveKeepsAnswered(s, a.t, s'.threads[a.t], s');
  }

  lemma {:induction false} ListAnswers(s: State, a: Act)
    requires a.List? && Enabled(s, a) && Answered(s)
    ensures Answered(Step(s, a))
  {
    var s' := Step(s, a);
    forall x | x in s'.artifacts ensures Covered(s'.threads, x) {
      assert x in Listed(s.artifacts) + {CacheRecord};
      OneCovers(s'.threads, a.t, x);
    }
  }

  lemma {:induction false} BindAnswers(s: State, a: Act)
    requires a.BindDeleted? && Enabled(s, a) && Keyed(s) && Answered(s)
    ensures Answered(Step(s, a))
  {
    var s' := Step(s, a);
    forall x | x in s'.artifacts ensures Covered(s'.threads, x) {
      OneCovers(s'.threads, a.t, x);
    }
  }

  lemma {:induction false} JobKeepsAnswered(s: State, a: Act)
    requires !Spawning(a) && !Sweeping(a) && !a.BindDeleted? && Enabled(s, a) && Answered(s)
    ensures Answered(Step(s, a))
  {
    var s' := Step(s, a);
    assert s'.threads == s.threads[a.t := s'.threads[a.t]];
    MoveKeepsAnswered(s, a.t, s'.threads[a.t], s');
  }

  lemma {:induction false} StepKeepsAnswered(s: State, a: Act)
    requires Enabled(s, a) && Answered(s) && Keyed(s)
    ensures Answered(Step(s, a))
  {
    hide Answered, Keyed, Step, Enabled;
    if Spawning(a) {
      RequestKeepsAnswered(s, a);
    } else if a.List? {
      ListAnswers(s, a);
    } else if Sweeping(a) {
      SweepKeepsAnswered(s, a);
    } else if a.BindDeleted? {
      BindAnswers(s, a);
    } else {
      JobKeepsAnswered(s, a);
    }
  }

  /** The key, once in the record, stays there. */
  predicate KeyStays(record: Option<Record>, record': Option<Record>) {
    record.Some? ==>
      record'.Some? && (record.value.keyed ==> record'.value.keyed) &&
      (record.value.status.Deleted? ==> record'.value.keyed || record'.value.status.Deleted?)
  }

  lemma {:induction false} RequestKeepsKeyed(s: State, a: Act)
    requires Spawning(a) && Keyed(s)
    ensures Keyed(Step(s, a))
  {
    var s' := Step(s, a);
    RecordKeepsKey(s, a);
    forall t | 0 <= t < |s'.threads| ensures KeyedFor(s'.record, s'.threads[t]) {
      if t < |s.threads| {
        KeyedForKept(s.record, s'.record, s.threads[t]);
      }
    }
  }

  lemma {:induction false} StepKeepsKeyed(s: State, a: Act)
    requires Enabled(s, a) && Keyed(s)
    ensures Keyed(Step(s, a))
  {
    hide Step, Enabled, KeyStays, KeyedFor;
    if Spawning(a) {
      RequestKeepsKeyed(s, a);
    } else {
      var s' := Step(s, a);
      RecordKeepsKey(s, a);
      OnlyOneMoves(s, a);
      if Sweeping(a) {
        SweeperIsKeyed(s, a);
      } else if Entering(a) {
        EntrantIsKeyed(s, a);
      } else {
        WorkerIsKeyed(s, a);
      }
      ArtifactsAreKeyed(s, a);
      forall t | 0 <= t < |s'.threads| && t != a.t ensures KeyedFor(s'.record, s'.threads[t]) {
        KeyedForKept(s.record, s'.record, s.threads[t]);
      }
    }
  }

  lemma KeyedForKept(record: Option<Record>, record': Option<Record>, th: Thread)
    requires KeyStays(record, record') && KeyedFor(record, th)
    ensures KeyedFor(record', th)
  {
  }

  lemma {:induction false} RecordKeepsKey(s: State, a: Act)
    requires Enabled(s, a)
    ensures KeyStays(s.record, Step(s, a).record)
  {
  }

  lemma {:induction false} OnlyOneMoves(s: State, a: Act)
    requires Enabled(s, a) && !Spawning(a)
    ensures a.t < |s.threads|
    ensures var s' := Step(s, a); |s'.threads| == |s.threads| && s'.threads == s.threads[a.t := s'.threads[a.t]]
  {
  }

  /** A sweep that goes on, or that begins again, leaves its thread where it was; one that ends takes it on. */
  lemma {:induction false} SweepStaysKeyed(record: Option<Record>, th: Thread, sw: Sweep, ok: bool)
    requires SweepOf(th).Some? && KeyedFor(record, th)
    ensures KeyedFor(record, WithSweep(th, sw)) && KeyedFor(record, Swept(th, ok))
  {
  }

  lemma {:induction false} SweeperIsKeyed(s: State, a: Act)
    requires Enabled(s, a) && Sweeping(a) && Keyed(s)
    ensures a.t < |Step(s, a).threads| && KeyedFor(Step(s, a).record, Step(s, a).threads[a.t])
  {
    var th := s.threads[a.t];
    assert KeyedFor(s.record, th);
    forall sw, ok ensures KeyedFor(s.record, WithSweep(th, sw)) && KeyedFor(s.record, Swept(th, ok)) {
      SweepStaysKeyed(s.record, th, sw, ok);
    }
    hide KeyedFor, WithSweep, Swept;
  }

  /** Steps on the way into the try. */
  predicate Entering(a: Act) {
    a.Read? || a.Return? || a.TakeLock? || a.Announce? || a.Check?
  }

  lemma {:induction false} EntrantIsKeyed(s: State, a: Act)
    requires Enabled(s, a) && Entering(a) && Keyed(s)
    ensures a.t < |Step(s, a).threads| && KeyedFor(Step(s, a).record, Step(s, a).threads[a.t])
  {
    assert KeyedFor(s.record, s.threads[a.t]);
  }

  lemma {:induction false} WorkerIsKeyed(s: State, a: Act)
    requires Enabled(s, a) && !Spawning(a) && !Sweeping(a) && !Entering(a) && Keyed(s)
    ensures a.t < |Step(s, a).threads| && KeyedFor(Step(s, a).record, Step(s, a).threads[a.t])
  {
    assert KeyedFor(s.record, s.threads[a.t]);
  }

  lemma {:induction false} ArtifactsAreKeyed(s: State, a: Act)
    requires Enabled(s, a) && !Spawning(a) && Keyed(s)
    ensures var s' := Step(s, a); s'.artifacts != {} ==> s'.record.Some? && s'.record.value.keyed
  {
    assert KeyedFor(s.record, s.threads[a.t]);
    RecordKeepsKey(s, a);
  }

  lemma {:induction false} RunIsGood(start: State, acts: seq<Act>)
    requires Initial(start) && LegalRun(start, acts)
    ensures Keyed(After(start, acts)) && Answered(After(start, acts))
    decreases |acts|
  {
    hide Step, Enabled;
    if acts != [] {
      hide Keyed, Answered;
      RunIsGood(start, acts[..|acts| - 1]);
      StepKeepsKeyed(After(start, acts[..|acts| - 1]), acts[|acts| - 1]);
      StepKeepsAnswered(After(start, acts[..|acts| - 1]), acts[|acts| - 1]);
    }
  }

  // --- the results ----------------------------------------------------------------------------

  /** The thread has not yet come to where it writes or deletes, or is past that. */
  predicate Quiet(th: Thread) {
    th.Begun? || th.Chosen? || th.Locked? || th.Announced? || th.Unlocking? || th.Over? || th.DropBegun? || th.DropOver?
  }

  /** Drop always wins: once the article is removed, and every job that was writing and every deletion has
      ended, what remains of the article's audio is exactly what tasks wrote that their job no longer waited
      for, and what a deletion that ran out of attempts left. */
  lemma {:induction false} DropWins(start: State, acts: seq<Act>)
    requires Initial(start) && LegalRun(start, acts)
    requires var s := After(start, acts);
             IsRemoved(s.record) && forall t | 0 <= t < |s.threads| :: Quiet(s.threads[t])
    ensures var s := After(start, acts); s.artifacts == s.strays + s.abandoned
  {
    hide Step, Enabled;
    RunIsGood(start, acts);
    var s := After(start, acts);
    forall x | x in s.artifacts ensures x in s.strays + s.abandoned {
      forall t | 0 <= t < |s.threads| ensures !Covers(s.threads[t], x) {
        assert Quiet(s.threads[t]);
      }
    }
  }

  // --- what remains, from the schedule alone ---------------------------------------------

  /** The action removes the artifact or writes it anew. */
  predicate Touches(a: Act, x: Artifact) {
    (a.Put? || a.Erase? || a.Remove?) && a.artifact == x
  }

  /** A task wrote the file after its job had left the try, and nothing has touched it since. */
  ghost predicate Strayed(acts: seq<Act>, x: Artifact) {
    exists i :: 0 <= i < |acts| && Stray(acts[i], x) && forall j | i < j < |acts| :: !Touches(acts[j], x)
  }

  predicate Stray(a: Act, x: Artifact) {
    a.Straggle? && Tmp(a.n) == x
  }

  /** The action is the last failure of a `delete_artifacts`. */
  predicate Exhausts(s: State, a: Act)
    requires Enabled(s, a)
  {
    && (a.RemoveFails? || (a.Verify? && SweepOf(s.threads[a.t]).value.listed * s.artifacts != {}))
    && SweepOf(s.threads[a.t]).value.tries + 1 >= ATTEMPTS
  }

  /** Action `i` exhausts a deletion with the artifact still there. */
  predicate GivesUp(start: State, acts: seq<Act>, i: nat, x: Artifact)
    requires LegalRun(start, acts) && i < |acts|
  {
    LegalRun(start, acts[..i]) && Enabled(After(start, acts[..i]), acts[i]) &&
    Exhausts(After(start, acts[..i]), acts[i]) && x in After(start, acts[..i]).artifacts
  }

  /** A deletion gave the artifact up, and since then nothing has touched it and no deletion has listed
      the files. */
  ghost predicate GivenUp(start: State, acts: seq<Act>, x: Artifact)
    requires LegalRun(start, acts)
  {
    exists i :: 0 <= i < |acts| && GivesUp(start, acts, i, x) &&
                forall j | i < j < |acts| :: !Touches(acts[j], x) && !acts[j].List?
  }

  lemma {:induction false} StrayedStep(acts: seq<Act>, a: Act, x: Artifact)
    ensures Strayed(acts + [a], x) <==> Stray(a, x) || (Strayed(acts, x) && !Touches(a, x))
  {
    var all := acts + [a];
    if Strayed(acts, x) && !Touches(a, x) {
      var i :| 0 <= i < |acts| && Stray(acts[i], x) && forall j | i < j < |acts| :: !Touches(acts[j], x);
      assert Stray(all[i], x) && forall j | i < j < |all| :: !Touches(all[j], x);
    }
    if Stray(a, x) {
      assert Stray(all[|acts|], x);
    }
    if Strayed(all, x) && !Stray(a, x) {
      var i :| 0 <= i < |all| && Stray(all[i], x) && forall j | i < j < |all| :: !Touches(all[j], x);
      assert Stray(acts[i], x) && !Touches(all[|acts|], x);
      assert forall j | i < j < |acts| :: acts[j] == all[j];
    }
  }

  lemma {:induction false} GivenUpStep(start: State, acts: seq<Act>, a: Act, x: Artifact)
    requires LegalRun(start, acts + [a]) && LegalRun(start, acts) && Enabled(After(start, acts), a)
    ensures GivenUp(start, acts + [a], x) <==>
            || (Exhausts(After(start, acts), a) && x in After(start, acts).artifacts)
            || (GivenUp(start, acts, x) && !Touches(a, x) && !a.List?)
  {
    hide LegalRun, After, Enabled, Exhausts, GivesUp, Touches;
    var all := acts + [a];
    GivesUpFront(start, acts, a, x);
    if GivenUp(start, acts, x) && !Touches(a, x) && !a.List? {
      var i :| 0 <= i < |acts| && GivesUp(start, acts, i, x) &&
               forall j | i < j < |acts| :: !Touches(acts[j], x) && !acts[j].List?;
      assert GivesUp(start, all, i, x) && forall j | i < j < |all| :: !Touches(all[j], x) && !all[j].List?;
    }
    if GivesUp(start, all, |acts|, x) {
      assert GivenUp(start, all, x);
    } else if GivenUp(start, all, x) {
      var i :| 0 <= i < |all| && GivesUp(start, all, i, x) &&
               forall j | i < j < |all| :: !Touches(all[j], x) && !all[j].List?;
      assert GivesUp(start, acts, i, x) && !Touches(all[|acts|], x) && !all[|acts|].List?;
    }
  }

  lemma {:induction false} GivesUpFront(start: State, acts: seq<Act>, a: Act, x: Artifact)
    requires LegalRun(start, acts + [a]) && LegalRun(start, acts) && Enabled(After(start, acts), a)
    ensures forall i | 0 <= i < |acts| ::
              (acts + [a])[i] == acts[i] && GivesUp(start, acts + [a], i, x) == GivesUp(start, acts, i, x)
    ensures GivesUp(start, acts + [a], |acts|, x) <==>
            Exhausts(After(start, acts), a) && x in After(start, acts).artifacts
  {
    hide LegalRun, After, Enabled, Exhausts;
    var all := acts + [a];
    assert all[..|acts|] == acts;
    forall i | 0 <= i < |acts| ensures all[i] == acts[i] && GivesUp(start, all, i, x) == GivesUp(start, acts, i, x) {
      assert all[..i] == acts[..i];
    }
  }

  /** What a step does to the two sets. */
  lemma {:induction false} StepExcuses(s: State, a: Act, x: Artifact)
    requires Enabled(s, a) && s.abandoned <= s.artifacts
    ensures x in Step(s, a).strays <==> Stray(a, x) || (x in s.strays && !Touches(a, x))
    ensures x in Step(s, a).abandoned <==>
            (Exhausts(s, a) && x in s.artifacts) || (x in s.abandoned && !Touches(a, x) && !a.List?)
  {
  }

  lemma {:induction false} ExcusesAreScheduled(start: State, acts: seq<Act>, x: Artifact)
    requires Initial(start) && LegalRun(start, acts)
    ensures x in After(start, acts).strays <==> Strayed(acts, x)
    ensures x in After(start, acts).abandoned <==> GivenUp(start, acts, x)
    decreases |acts|
  {
    hide Step, Enabled, Strayed, GivenUp, Exhausts, Touches, Stray;
    if acts == [] {
      NothingExcused(start, x);
    } else {
      var front, a := acts[..|acts| - 1], acts[|acts| - 1];
      assert acts == front + [a];
      ExcusesAreScheduled(start, front, x);
      RunIsGood(start, front);
      StepExcuses(After(start, front), a, x);
      StrayedStep(front, a, x);
      GivenUpStep(start, front, a, x);
    }
  }

  lemma NothingExcused(start: State, x: Artifact)
    requires Initial(start)
    ensures !Strayed([], x) && !GivenUp(start, [], x)
  {
  }

  /** So, once all has ended, a file of a removed article remains if and only if an abandoned task wrote it
      and nothing touched it later, or an exhausted deletion left it and none began later. */
  lemma {:induction false} RemainsIff(start: State, acts: seq<Act>, x: Artifact)
    requires Initial(start) && LegalRun(start, acts)
    requires var s := After(start, acts);
             IsRemoved(s.record) && forall t | 0 <= t < |s.threads| :: Quiet(s.threads[t])
    ensures x in After(start, acts).artifacts <==> Strayed(acts, x) || GivenUp(start, acts, x)
  {
    hide Step, Enabled, Strayed, GivenUp;
    DropWins(start, acts);
    ExcusesAreScheduled(start, acts, x);
  }

  // --- nothing comes back ---------------------------------------------------------------------

  /** Removed, and nobody writing. */
  predicate Gone(s: State) {
    IsRemoved(s.record) && forall t | 0 <= t < |s.threads| :: !s.threads[t].Body?
  }

  lemma {:induction false} StepStaysGone(s: State, a: Act, x: Artifact)
    requires Enabled(s, a) && Gone(s)
    ensures Gone(Step(s, a))
    ensures x in Step(s, a).artifacts <==> Stray(a, x) || (x in s.artifacts && !Touches(a, x))
  {
    StepKeepsRemoved(s, a);
    if Spawning(a) {
      assert Step(s, a).artifacts == s.artifacts;
    } else {
      OnlyOneMoves(s, a);
      MoverStaysOut(s, a, x);
      hide Step, IsRemoved;
    }
  }

  lemma {:induction false} MoverStaysOut(s: State, a: Act, x: Artifact)
    requires Enabled(s, a) && !Spawning(a) && IsDeleted(s.record) && !s.threads[a.t].Body?
    ensures a.t < |Step(s, a).threads| && !Step(s, a).threads[a.t].Body?
    ensures x in Step(s, a).artifacts <==> Stray(a, x) || (x in s.artifacts && !Touches(a, x))
  {
  }

  /** Once an article is removed and no job is writing, files only go, but for what abandoned tasks write:
      whatever jobs were waiting or are requested later, nothing comes back. */
  lemma {:induction false} GoneForGood(start: State, before: seq<Act>, more: seq<Act>, x: Artifact)
    requires LegalRun(start, before + more) && LegalRun(start, before) && Gone(After(start, before))
    ensures Gone(After(start, before + more))
    ensures x in After(start, before + more).artifacts <==>
            || Strayed(more, x)
            || (x in After(start, before).artifacts && forall j | 0 <= j < |more| :: !Touches(more[j], x))
    decreases |more|
  {
    hide Step, Enabled, Gone, Strayed, Touches, Stray;
    if more == [] {
      assert before + more == before;
      NothingExcused(State(None, {}, None, [], {}, {}), x);
    } else {
      var n := |more| - 1;
      var acts, front := before + more, more[..|more| - 1];
      assert acts[..|acts| - 1] == before + front && more == front + [more[n]];
      GoneForGood(start, before, front, x);
      StepStaysGone(After(start, before + front), more[n], x);
      StrayedStep(front, more[n], x);
      assert forall j | 0 <= j < n :: more[j] == front[j];
    }
  }

  // --- the lock -------------------------------------------------------------------------------

  predicate MayHoldLock(th: Thread) {
    th.Locked? || th.Announced? || th.Aborting? || th.Body? || th.BodyAborting? || th.Dropped? || th.Failing? ||
    th.FailingDropped? || th.Reporting? || th.Leaving? || th.LeavingDropped? || th.Unlocking? ||
    (th.Over? && th.leaked && !th.ran)
  }

  predicate LockIsHeld(s: State) {
    s.lock.Some? ==> s.lock.value < |s.threads| && MayHoldLock(s.threads[s.lock.value])
  }

  lemma {:induction false} StepKeepsLock(s: State, a: Act)
    requires Enabled(s, a) && LockIsHeld(s)
    ensures LockIsHeld(Step(s, a))
  {
    if !Spawning(a) {
      OnlyOneMoves(s, a);
      MoverKeepsLock(s, a);
      hide Step, MayHoldLock;
    }
  }

  lemma {:induction false} MoverKeepsLock(s: State, a: Act)
    requires Enabled(s, a) && !Spawning(a) && (s.lock == Some(a.t) ==> MayHoldLock(s.threads[a.t]))
    ensures var s' := Step(s, a);
            && (s'.lock == Some(a.t) ==> a.t < |s'.threads| && MayHoldLock(s'.threads[a.t]))
            && (s'.lock == s.lock || s'.lock == None || s'.lock == Some(a.t))
  {
  }

  /** A job that entered the try has given the lock back when it is over; only one stopped by the check
      before the try can have left it behind. */
  lemma {:induction false} LockIsReleased(start: State, acts: seq<Act>)
    requires Initial(start) && LegalRun(start, acts)
    ensures var s := After(start, acts);
            LockIsHeld(s) &&
            forall t | 0 <= t < |s.threads| && s.threads[t].Over? && s.lock == Some(t) ::
              s.threads[t].leaked && !s.threads[t].ran
    decreases |acts|
  {
    hide Step, Enabled;
    if acts != [] {
      LockIsReleased(start, acts[..|acts| - 1]);
      StepKeepsLock(After(start, acts[..|acts| - 1]), acts[|acts| - 1]);
    }
  }

  /** Between taking the lock and giving it back. */
  predicate AtLock(th: Thread) {
    MayHoldLock(th) && !th.Over?
  }

  /** Whoever is there holds the lock. */
  predicate Exclusive(s: State) {
    forall t | 0 <= t < |s.threads| && AtLock(s.threads[t]) :: s.lock == Some(t)
  }

  lemma {:induction false} MoverStaysExclusive(s: State, a: Act)
    requires Enabled(s, a) && !Spawning(a) && (AtLock(s.threads[a.t]) ==> s.lock == Some(a.t))
    ensures var s' := Step(s, a);
            && a.t < |s'.threads| && (AtLock(s'.threads[a.t]) ==> s'.lock == Some(a.t))
            && (s'.lock == s.lock || s.lock == None || s.lock == Some(a.t))
  {
  }

  /** While no lock expires, at most one job at a time is at work on an article: the one that holds its lock. */
  lemma {:induction false} OneAtATime(start: State, acts: seq<Act>)
    requires Initial(start) && LegalRun(start, acts) && ExpireLock !in acts
    ensures Exclusive(After(start, acts))
    ensures var threads := After(start, acts).threads;
            forall t, u | 0 <= t < u < |threads| :: !(AtLock(threads[t]) && AtLock(threads[u]))
    decreases |acts|
  {
    hide Step, Enabled, AtLock, Spawning;
    if acts != [] {
      var n := |acts| - 1;
      assert forall a | a in acts[..n] :: a in acts;
      assert acts[n] in acts;
      OneAtATime(start, acts[..n]);
      StepStaysExclusive(After(start, acts[..n]), acts[n]);
    }
  }

  lemma {:induction false} StepStaysExclusive(s: State, a: Act)
    requires Enabled(s, a) && Exclusive(s) && !a.ExpireLock?
    ensures Exclusive(Step(s, a))
  {
    if Spawning(a) {
      RequestStaysExclusive(s, a);
    } else {
      OnlyOneMoves(s, a);
      MoverStaysExclusive(s, a);
      hide Step, Enabled, AtLock;
      var s' := Step(s, a);
      forall t | 0 <= t < |s'.threads| && AtLock(s'.threads[t]) ensures s'.lock == Some(t) {
        assert t != a.t ==> s'.threads[t] == s.threads[t] && s.lock == Some(t);
      }
    }
  }

  lemma {:induction false} RequestStaysExclusive(s: State, a: Act)
    requires Enabled(s, a) && Spawning(a) && Exclusive(s) && !a.ExpireLock?
    ensures Exclusive(Step(s, a))
  {
    hide Enqueue, Listened;
  }
}
