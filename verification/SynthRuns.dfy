/** Whole runs of the synthesis stage: every entry is dispatched once, a crash loses little, and a fast
    job or a cancellation takes effect within one chunk. */
module SynthRuns {
  import opened Wrappers
  import opened Files
  import opened Synth
  import opened SynthControl
  import Gate

  predicate LegalRun(start: State, acts: seq<Act>)
    requires start.fs.Valid()
    decreases |acts|, 0
  {
    acts == [] ||
    (LegalRun(start, acts[..|acts| - 1]) && Enabled(After(start, acts[..|acts| - 1]), acts[|acts| - 1]))
  }

  function After(start: State, acts: seq<Act>): (s: State)
    requires start.fs.Valid() && LegalRun(start, acts)
    ensures s.fs.Valid()
    decreases |acts|, 1
  {
    if acts == [] then start else Step(After(start, acts[..|acts| - 1]), acts[|acts| - 1])
  }

  lemma {:induction false} OneMore(start: State, acts: seq<Act>, a: Act)
    requires start.fs.Valid() && LegalRun(start, acts) && Enabled(After(start, acts), a)
    ensures LegalRun(start, acts + [a]) && After(start, acts + [a]) == Step(After(start, acts), a)
  {
    hide Step, Enabled;
    assert (acts + [a])[..|acts|] == acts;
  }

  lemma {:induction false} TwoSteps(s: State, a: Act, b: Act)
    requires s.fs.Valid() && Enabled(s, a) && Enabled(Step(s, a), b)
    ensures LegalRun(s, [a, b]) && After(s, [a, b]) == Step(Step(s, a), b)
  {
    hide Step, Enabled;
    OneMore(s, [], a);
    assert [] + [a] == [a];
    OneMore(s, [a], b);
    assert [a] + [b] == [a, b];
  }

  lemma {:induction false} Compose(start: State, acts: seq<Act>, more: seq<Act>)
    requires start.fs.Valid() && LegalRun(start, acts) && LegalRun(After(start, acts), more)
    ensures LegalRun(start, acts + more) && After(start, acts + more) == After(After(start, acts), more)
    decreases |more|
  {
    hide Step, Enabled;
    if more == [] {
      assert acts + more == acts;
    } else {
      Compose(start, acts, more[..|more| - 1]);
      assert (acts + more)[..|acts + more| - 1] == acts + more[..|more| - 1];
    }
  }

  ghost predicate Consistent(s: State) {
    match s.phase
    case Idle => true
    case Loaded(entries, n) => n > 0 && forall i | 0 <= i < |entries| :: entries[i].status != Failed
    case Running(r) => |r.workers| > 0 && s.disk.Some? && Control(r, s.disk.value)
  }

  lemma {:induction false} StepIsConsistent(s: State, a: Act)
    requires s.fs.Valid() && Consistent(s) && Enabled(s, a)
    ensures Consistent(Step(s, a))
  {
    hide Control, WorkerEnabled, WorkerFiles, WorkerMade, WorkerStep, IsValidWav, LinkOrCopy;
    if OwnAct(a) {
      ControlStep(s, s.phase.run, a, s.disk.value);
      ActsInPlace(s, s.phase.run, a);
    } else if a.Open? {
      ControlAtStart(s.phase.entries, s.phase.n);
    }
  }

  lemma {:induction false} ActsInPlace(s: State, r: Run, a: Act)
    requires OwnAct(a) && s.fs.Valid() && WorkerEnabled(s, r, a)
    ensures a.w < |r.workers| && (a.Write? ==> r.workers[a.w].Saving?)
  {
    hide IsValidWav;
  }

  lemma {:induction false} RunIsConsistent(start: State, acts: seq<Act>)
    requires start.fs.Valid() && start.phase.Idle? && LegalRun(start, acts)
    ensures Consistent(After(start, acts))
    decreases |acts|
  {
    hide Consistent, Step, Enabled;
    if acts == [] {
      assert Consistent(start) by { IdleIsConsistent(start); }
    } else {
      RunIsConsistent(start, acts[..|acts| - 1]);
      StepIsConsistent(After(start, acts[..|acts| - 1]), acts[|acts| - 1]);
    }
  }

  lemma IdleIsConsistent(s: State)
    requires s.phase.Idle?
    ensures Consistent(s)
  {
  }

  // --- exactly once ------------------------------------------------------------------------

  /** What a run that comes to its normal end without a cancellation has done. */
  ghost predicate Complete(r: Run) {
    // the pending entries are those that could not be reused, each once
    && Increasing(r.pending, |r.loaded|)
    && (forall i: nat | i < |r.loaded| :: i in r.pending <==> r.loaded[i].status != Done)
    // each was started once, by one worker, in order
    && |r.started| == |r.pending| && (forall k | 0 <= k < |r.started| :: r.started[k] == k)
    // only they reached the engine
    && r.engine <= (set i | i in r.pending)
    // all are done or failed, and nothing else changed
    && |r.mem| == |r.loaded|
    && (forall i | 0 <= i < |r.mem| :: r.mem[i].status != Pending && r.mem[i].hash == r.loaded[i].hash)
    && (forall i | 0 <= i < |r.mem| && r.loaded[i].status == Done :: r.mem[i] == r.loaded[i])
  }

  /** A run that ends normally and was not cancelled has given each pending entry to one worker, once. */
  lemma {:induction false} ExactlyOnce(start: State, acts: seq<Act>)
    requires start.fs.Valid() && start.phase.Idle? && LegalRun(start, acts + [End])
    ensures LegalRun(start, acts) && After(start, acts).phase.Running?
    ensures var s := After(start, acts);
            && (!s.phase.run.cancelled ==> Complete(s.phase.run))
            && After(start, acts + [End]).disk == Some(s.phase.run.mem)
  {
    hide Complete, Control;
    assert (acts + [End])[..|acts|] == acts;
    RunIsConsistent(start, acts);
    var s := After(start, acts);
    if !s.phase.run.cancelled {
      EndIsComplete(s.phase.run, s.disk.value);
    }
  }

  lemma {:induction false} EndIsComplete(r: Run, disk: seq<Entry>)
    requires Control(r, disk) && AllStopped(r) && |r.workers| > 0 && !r.cancelled
    ensures Complete(r)
  {
    hide Images, Apart;
    assert Seat(r, 0);
    assert r.next == |r.pending| && Undisturbed(r);
    forall w: nat | w < |r.workers| ensures r.dispatcher != Some(w) {
      assert Seat(r, w);
    }
    assert r.dispatcher == None;
    PendingFacts(r.loaded);
    FillsUp(r.started);
    forall i | 0 <= i < |r.mem| ensures r.mem[i].status != Pending {
      if i in r.pending {
        var p :| 0 <= p < |r.pending| && r.pending[p] == i;
        assert StatusAt(r.mem, r.pending, p) != Pending;
      }
    }
  }

  /** An increasing list of as many numbers as its bound leaves none out. */
  lemma {:induction false} FillsUp(s: seq<nat>)
    requires Increasing(s, |s|)
    ensures forall k | 0 <= k < |s| :: s[k] == k
  {
    if s != [] {
      var n := |s| - 1;
      assert forall i | 0 <= i < n :: s[i] < s[n];
      FillsUp(s[..n]);
      forall k | 0 <= k < n ensures s[k] == k {
        assert s[..n][k] == k;
      }
      assert n > 0 ==> s[n - 1] < s[n];
      assert s[n] == n;
    }
  }

  /** However a run is cut short, no entry is started twice in it. */
  lemma {:induction false} NeverTwice(start: State, acts: seq<Act>)
    requires start.fs.Valid() && start.phase.Idle? && LegalRun(start, acts) && After(start, acts).phase.Running?
    ensures var r := After(start, acts).phase.run;
            && Increasing(r.started, r.next) && Increasing(r.pending, |r.mem|) && r.next <= |r.pending|
            && (forall v, w | 0 <= v < w < |r.workers| && Owner(r.workers[v]) && Owner(r.workers[w]) ::
                  r.workers[v].pos != r.workers[w].pos)
  {
    hide Images, Marks, Seats, PendingOf;
    RunIsConsistent(start, acts);
  }

  /** The worker has not had an answer from the engine for its entry: it is on its way to the first attempt, skips
      the chunk, or takes it from the cache. */
  predicate Unasked(wk: Worker) {
    Dispatching(wk) || (wk.Working? && wk.tries == 0) || (wk.Silencing? && wk.status == Done) || wk.Fetching? ||
    wk.CopyingIn?
  }

  /** It has: it is between two attempts, has audio from the engine, or has given the chunk up. */
  predicate Asked(wk: Worker) {
    (wk.Working? && wk.tries > 0) || ((wk.Silencing? || wk.Finished?) && wk.status == Failed) || wk.Speaking? ||
    wk.Persisted? || wk.Storing? || wk.Linking? || wk.CopyingOut?
  }

  /** The entries for which the engine was called: none that no worker has had or that is at a stage before or
      without it, and all at a stage after it or failed. */
  predicate EngineLog(r: Run) {
    && r.next <= |r.pending|
    && (forall p | r.next <= p < |r.pending| :: r.pending[p] !in r.engine)
    && (forall w | 0 <= w < |r.workers| && Unasked(r.workers[w]) && r.workers[w].pos < |r.pending| ::
          r.pending[r.workers[w].pos] !in r.engine)
    && (forall w | 0 <= w < |r.workers| && Asked(r.workers[w]) && r.workers[w].pos < |r.pending| ::
          r.pending[r.workers[w].pos] in r.engine)
    && (forall i: nat | i < |r.mem| && r.mem[i].status == Failed :: i in r.engine)
  }

  lemma {:induction false} ChunkStays(s: State, r: Run, a: Act)
    requires ChunkAct(a) && s.fs.Valid() && WorkerEnabled(s, r, a)
    ensures var r', wk, wk' := WorkerStep(s, r, a), r.workers[a.w], Advance(s, r, a);
            && r'.workers == r.workers[a.w := wk'] && r'.pending == r.pending && r'.next == r.next && r'.mem == r.mem
            && Owner(wk) && wk.pos < |r.pending|
            && r'.engine == if CallsEngine(wk, a) then r.engine + {r.pending[wk.pos]} else r.engine
  {
    hide IsValidWav, Advance, CallsEngine;
  }

  lemma {:induction false} ChunkAsks(s: State, r: Run, a: Act)
    requires ChunkAct(a) && s.fs.Valid() && WorkerEnabled(s, r, a) && Owner(r.workers[a.w])
    ensures var wk, wk' := r.workers[a.w], Advance(s, r, a);
            && Owner(wk') && wk'.pos == wk.pos
            && (Unasked(wk') ==> Unasked(wk) && !CallsEngine(wk, a))
            && (Asked(wk') ==> Asked(wk) || CallsEngine(wk, a))
  {
    hide IsValidWav;
  }

  lemma {:induction false} AcquireAsks(s: State, r: Run, a: Act)
    requires a.Acquire? && s.fs.Valid() && WorkerEnabled(s, r, a)
    ensures var r', wk' := WorkerStep(s, r, a), WorkerStep(s, r, a).workers[a.w];
            && r'.workers == r.workers[a.w := wk'] && r'.pending == r.pending && r'.engine == r.engine
            && r'.mem == r.mem && !Asked(wk')
            && ((r'.next == r.next && !Unasked(wk')) ||
                (r'.next == r.next + 1 <= |r.pending| && wk' == Checking(r.next)))
  {
    hide IsValidWav;
  }

  lemma {:induction false} LoopAsks(s: State, r: Run, a: Act)
    requires LoopAct(a) && !a.Acquire? && s.fs.Valid() && WorkerEnabled(s, r, a)
    ensures var r', wk, wk' := WorkerStep(s, r, a), r.workers[a.w], WorkerStep(s, r, a).workers[a.w];
            && r'.workers == r.workers[a.w := wk'] && r'.pending == r.pending && r'.next == r.next
            && Owner(wk) && wk.pos < |r.pending| && !Asked(wk')
            && (r'.engine == r.engine || (!Unasked(wk') && r'.engine == r.engine + {r.pending[wk.pos]}))
            && (Unasked(wk') ==> Unasked(wk) && wk'.pos == wk.pos)
  {
    hide IsValidWav;
  }

  lemma {:induction false} LoopMarks(s: State, r: Run, a: Act)
    requires LoopAct(a) && s.fs.Valid() && WorkerEnabled(s, r, a)
    ensures var r', wk := WorkerStep(s, r, a), r.workers[a.w];
            && r.engine <= r'.engine && |r'.mem| == |r.mem|
            && forall i | 0 <= i < |r.mem| && r'.mem[i] != r.mem[i] ::
                 && Owner(wk) && wk.pos < |r.pending| && i == r.pending[wk.pos]
                 && (r'.mem[i].status == Failed ==> Asked(wk))
  {
    hide IsValidWav;
  }

  lemma {:induction false} OthersAreLogged(r: Run, disk: seq<Entry>, w: nat, engine: set<nat>)
    requires Control(r, disk) && EngineLog(r) && w < |r.workers|
    requires engine == r.engine ||
             (Owner(r.workers[w]) && r.workers[w].pos < |r.pending| &&
              engine == r.engine + {r.pending[r.workers[w].pos]})
    ensures forall p | r.next <= p < |r.pending| :: r.pending[p] !in engine
    ensures forall v | 0 <= v < |r.workers| && v != w && Unasked(r.workers[v]) && r.workers[v].pos < |r.pending| ::
              r.pending[r.workers[v].pos] !in engine
  {
    hide Images, Marks, Log, PendingOf;
    assert Seat(r, w);
    forall v | 0 <= v < |r.workers| && v != w && Unasked(r.workers[v]) && r.workers[v].pos < |r.pending|
      ensures r.pending[r.workers[v].pos] !in engine
    {
      UnaskedIsOwner(r.workers[v]);
    }
  }

  lemma UnaskedIsOwner(wk: Worker)
    requires Unasked(wk)
    ensures Owner(wk)
  {
  }

  /** Worker `w` goes on with its entry, and if it calls the engine it has called it. */
  lemma {:induction false} MoverIsLogged(r: Run, r': Run, disk: seq<Entry>, w: nat)
    requires Control(r, disk) && EngineLog(r) && w < |r.workers| && |r'.workers| == |r.workers|
    requires r'.workers == r.workers[w := r'.workers[w]] && r'.pending == r.pending && r'.next == r.next
    requires Owner(r.workers[w]) && r.workers[w].pos < |r.pending|
    requires r'.engine == r.engine ||
             (!Unasked(r'.workers[w]) && r'.engine == r.engine + {r.pending[r.workers[w].pos]})
    requires Unasked(r'.workers[w]) ==> Unasked(r.workers[w]) && r'.workers[w].pos == r.workers[w].pos
    requires Asked(r'.workers[w]) ==>
               && r'.workers[w].pos == r.workers[w].pos
               && (Asked(r.workers[w]) || r.pending[r.workers[w].pos] in r'.engine)
    requires forall i: nat | i < |r'.mem| && r'.mem[i].status == Failed :: i in r'.engine
    ensures EngineLog(r')
  {
    OthersAreLogged(r, disk, w, r'.engine);
    hide Control;
  }

  lemma {:induction false} AcquirerIsLogged(r: Run, r': Run, disk: seq<Entry>, w: nat)
    requires Control(r, disk) && EngineLog(r) && w < |r.workers| && |r'.workers| == |r.workers|
    requires r'.workers == r.workers[w := r'.workers[w]] && r'.pending == r.pending && r'.engine == r.engine
    requires r'.mem == r.mem && !Asked(r'.workers[w])
    requires (r'.next == r.next && !Unasked(r'.workers[w])) ||
             (r'.next == r.next + 1 <= |r.pending| && r'.workers[w] == Checking(r.next))
    ensures EngineLog(r')
  {
    OthersAreLogged(r, disk, w, r.engine);
    hide Control;
  }

  lemma {:induction false} FailedIsLogged(s: State, r: Run, a: Act)
    requires LoopAct(a) && s.fs.Valid() && WorkerEnabled(s, r, a) && EngineLog(r)
    ensures var r' := WorkerStep(s, r, a);
            forall i: nat | i < |r'.mem| && r'.mem[i].status == Failed :: i in r'.engine
  {
    LoopMarks(s, r, a);
    hide WorkerStep, WorkerEnabled, Asked, Unasked, IsValidWav;
    assert Asked(r.workers[a.w]) && r.workers[a.w].pos < |r.pending| ==> r.pending[r.workers[a.w].pos] in r.engine by {
      AskedIsOwner(r.workers[a.w]);
    }
  }

  lemma AskedIsOwner(wk: Worker)
    ensures Asked(wk) ==> Owner(wk)
  {
  }

  lemma {:induction false} StepIsLogged(s: State, r: Run, a: Act, disk: seq<Entry>)
    requires OwnAct(a) && s.fs.Valid() && WorkerEnabled(s, r, a) && Control(r, disk) && EngineLog(r)
    ensures EngineLog(WorkerStep(s, r, a))
  {
    var r' := WorkerStep(s, r, a);
    if ChunkAct(a) {
      ChunkStays(s, r, a);
      ChunkAsks(s, r, a);
      hide WorkerStep, WorkerEnabled, Advance, CallsEngine, Unasked, Asked, Control, IsValidWav;
      MoverIsLogged(r, r', disk, a.w);
    } else if a.Acquire? {
      AcquireAsks(s, r, a);
      hide WorkerStep, WorkerEnabled, Unasked, Asked, Control, EngineLog, IsValidWav;
      AcquirerIsLogged(r, r', disk, a.w);
    } else {
      LoopAsks(s, r, a);
      FailedIsLogged(s, r, a);
      hide WorkerStep, WorkerEnabled, Unasked, Asked, Control, EngineLog, IsValidWav;
      MoverIsLogged(r, r', disk, a.w);
    }
  }

  /** At every instant of every run the engine has been called for exactly those: a skipped or cached chunk never
      reaches it, and none is given up without it. */
  lemma {:induction false} EngineIsLogged(start: State, acts: seq<Act>)
    requires start.fs.Valid() && start.phase.Idle? && LegalRun(start, acts)
    ensures After(start, acts).phase.Running? ==> EngineLog(After(start, acts).phase.run)
    decreases |acts|
  {
    hide Control, EngineLog, WorkerEnabled, WorkerStep, WorkerFiles, WorkerMade, IsValidWav;
    if acts != [] {
      var front, a := acts[..|acts| - 1], acts[|acts| - 1];
      EngineIsLogged(start, front);
      RunIsConsistent(start, front);
      var s := After(start, front);
      if OwnAct(a) {
        StepIsLogged(s, s.phase.run, a, s.disk.value);
      } else if a.Open? {
        NobodyAskedYet(s.phase.entries, s.phase.n);
      }
    }
  }

  lemma NobodyAskedYet(entries: seq<Entry>, n: nat)
    requires forall i | 0 <= i < |entries| :: entries[i].status != Failed
    ensures EngineLog(Opened(entries, n))
  {
    hide PendingOf;
  }

  // --- bounded loss --------------------------------------------------------------------------

  /** The entries done in memory but not in the manifest on disk. */
  function Lost(mem: seq<Entry>, disk: seq<Entry>): set<nat>
    requires |mem| == |disk|
  {
    set i: nat | i < |mem| && mem[i].status == Done && disk[i].status != Done
  }

  /** At every instant of every run, at most as many as there are workers. */
  lemma {:induction false} LossIsBounded(start: State, acts: seq<Act>)
    requires start.fs.Valid() && start.phase.Idle? && LegalRun(start, acts) && After(start, acts).phase.Running?
    ensures var s := After(start, acts);
            && s.disk.Some? && |s.phase.run.mem| == |s.disk.value|
            && |Lost(s.phase.run.mem, s.disk.value)| <= |s.phase.run.workers|
            // and what the disk calls done is done
            && (forall i | 0 <= i < |s.disk.value| && s.disk.value[i].status == Done ::
                  s.phase.run.mem[i] == s.disk.value[i])
  {
    hide Control;
    RunIsConsistent(start, acts);
    var s := After(start, acts);
    LossBound(s.phase.run, s.disk.value);
  }

  lemma {:induction false} LossBound(r: Run, disk: seq<Entry>)
    requires Control(r, disk)
    ensures Image(r, disk, |r.workers|) && |Lost(r.mem, disk)| <= |r.workers|
  {
    forall i | i in Lost(r.mem, disk) ensures i in Held(r, |r.workers|) {
      assert HeldByOther(r, |r.workers|, i);
      var v :| 0 <= v < |r.workers| && v != |r.workers| && Holds(r, r.workers[v], i);
      HeldHas(r, |r.workers|, v);
    }
    HeldBound(r, |r.workers|);
    Subset(Lost(r.mem, disk), Held(r, |r.workers|));
  }

  /** The entries held by the first `n` workers. */
  function Held(r: Run, n: nat): set<nat>
    requires n <= |r.workers|
  {
    if n == 0 then {}
    else
      var wk := r.workers[n - 1];
      Held(r, n - 1) + if Holding(wk) && wk.pos < |r.pending| then {r.pending[wk.pos]} else {}
  }

  lemma {:induction false} HeldHas(r: Run, n: nat, v: nat)
    requires v < n <= |r.workers| && Holding(r.workers[v]) && r.workers[v].pos < |r.pending|
    ensures r.pending[r.workers[v].pos] in Held(r, n)
  {
    if v < n - 1 {
      HeldHas(r, n - 1, v);
    }
  }

  lemma {:induction false} HeldBound(r: Run, n: nat)
    requires n <= |r.workers|
    ensures |Held(r, n)| <= n
  {
    if n > 0 {
      HeldBound(r, n - 1);
    }
  }

  lemma {:induction false} Subset(a: set<nat>, b: set<nat>)
    requires a <= b
    ensures |a| <= |b|
  {
    assert b == a + (b - a);
  }

  // --- resuming ----------------------------------------------------------------------------

  /** The chunk texts of a manifest. */
  function HashesOf(entries: seq<Entry>): (hashes: seq<string>)
    ensures |hashes| == |entries| && forall i | 0 <= i < |entries| :: hashes[i] == entries[i].hash
  {
    seq(|entries|, i requires 0 <= i < |entries| => entries[i].hash)
  }

  /** Every done entry's file is a valid wav. */
  predicate WavsStand(fs: FileSystem, entries: seq<Entry>)
    requires fs.Valid()
  {
    forall i: nat | i < |entries| && entries[i].status == Done :: HoldsWav(fs, i)
  }

  /** The job is run again over the texts its manifest has. */
  function Again(entries: seq<Entry>, n: nat): seq<Act> {
    [Load(HashesOf(entries), true, n), Open]
  }

  lemma {:induction false} AgainRuns(s: State, entries: seq<Entry>, n: nat)
    requires s.fs.Valid() && s.phase.Idle? && s.disk == Some(entries) && n > 0 && WavsStand(s.fs, entries)
    ensures LegalRun(s, Again(entries, n)) && After(s, Again(entries, n)).phase.Running?
    ensures var r := After(s, Again(entries, n)).phase.run;
            && |r.mem| == |entries| && Increasing(r.pending, |entries|)
            && (forall i: nat | i < |entries| :: i in r.pending <==> entries[i].status != Done)
            && (forall i | 0 <= i < |entries| && entries[i].status == Done :: r.mem[i] == entries[i])
  {
    hide HoldsWav, IsValidWav, PendingOf;
    var load, hashes := Load(HashesOf(entries), true, n), HashesOf(entries);
    OneMore(s, [], load);
    assert [] + [load] == [load];
    OneMore(s, [load], Open);
    assert [load] + [Open] == Again(entries, n);
    var loaded := Reload(s.fs, entries, hashes);
    ResumeRedoesExactly(s.fs, entries, hashes);
    PendingFacts(loaded);
    assert After(s, Again(entries, n)).phase.run == Opened(loaded, n);
    forall i: nat | i < |entries| && entries[i].status == Done ensures loaded[i] == entries[i] {
      assert entries[i] == Entry(hashes[i], Done);
      assert i !in PendingOf(loaded);
    }
  }

  /** Run again after a complete run, a job redoes exactly the chunks that failed. */
  lemma {:induction false} CompleteIsResumed(start: State, acts: seq<Act>, n: nat)
    requires start.fs.Valid() && start.phase.Idle? && LegalRun(start, acts + [End]) && n > 0
    requires LegalRun(start, acts) && After(start, acts).phase.Running? && !After(start, acts).phase.run.cancelled
    requires WavsStand(After(start, acts).fs, After(start, acts).phase.run.mem)
    ensures var mem := After(start, acts).phase.run.mem;
            var again := acts + [End] + Again(mem, n);
            && LegalRun(start, again) && After(start, again).phase.Running?
            && forall i: nat | i < |mem| :: i in After(start, again).phase.run.pending <==> mem[i].status == Failed
  {
    hide WavsStand, Complete, Enabled, Control, Step, LegalRun, After;
    var s, s' := After(start, acts), After(start, acts + [End]);
    ExactlyOnce(start, acts);
    CompleteIsSettled(s.phase.run);
    EndOf(start, acts);
    AgainRuns(s', s.phase.run.mem, n);
    Compose(start, acts + [End], Again(s.phase.run.mem, n));
  }

  lemma EndOf(start: State, acts: seq<Act>)
    requires start.fs.Valid() && LegalRun(start, acts + [End]) && LegalRun(start, acts)
    ensures After(start, acts).phase.Running?
    ensures After(start, acts + [End]) ==
            After(start, acts).(disk := Some(After(start, acts).phase.run.mem), phase := Phase.Idle)
  {
    hide Step, Enabled;
    assert (acts + [End])[..|acts|] == acts;
    EndStep(After(start, acts));
  }

  lemma EndStep(s: State)
    requires s.fs.Valid() && Enabled(s, End)
    ensures s.phase.Running? && Step(s, End) == s.(disk := Some(s.phase.run.mem), phase := Phase.Idle)
  {
    hide WorkerEnabled, WorkerStep, WorkerFiles, WorkerMade, IsValidWav, Reload, Opened;
  }

  lemma CrashGoes(s: State, a: Act)
    requires s.fs.Valid() && (a == Crash || (a == Abort && s.phase.Running? && AllOver(s.phase.run)))
    ensures Enabled(s, a) && Step(s, a) == s.(phase := Phase.Idle)
  {
  }

  lemma CompleteIsSettled(r: Run)
    requires Complete(r)
    ensures forall i | 0 <= i < |r.mem| :: r.mem[i].status != Pending
  {
  }

  /** Run again after a crash anywhere, or after a worker has raised and the others have come to their end, a job
      keeps every chunk that is done on disk, so of the chunks that were done at most as many as there were workers
      are synthesised again. */
  lemma {:induction false} CrashIsResumed(start: State, acts: seq<Act>, end: Act, n: nat)
    requires n > 0 && start.fs.Valid() && start.phase.Idle? && LegalRun(start, acts)
    requires After(start, acts).phase.Running?
    requires end == Crash || (end == Abort && AllOver(After(start, acts).phase.run))
    requires After(start, acts).disk.Some? && WavsStand(After(start, acts).fs, After(start, acts).disk.value)
    ensures var r, disk := After(start, acts).phase.run, After(start, acts).disk.value;
            var again := acts + [end] + Again(disk, n);
            && LegalRun(start, again) && After(start, again).phase.Running?
            && (forall i: nat | i < |disk| :: i in After(start, again).phase.run.pending <==> disk[i].status != Done)
            && |r.mem| == |disk|
            && |set i | i in After(start, again).phase.run.pending && i < |r.mem| && r.mem[i].status == Done| <=
               |r.workers|
  {
    hide WavsStand, Enabled, Control, Step, LegalRun, After;
    var s := After(start, acts);
    CrashGoes(s, end);
    OneMore(start, acts, end);
    LossIsBounded(start, acts);
    var s' := After(start, acts + [end]);
    AgainRuns(s', s.disk.value, n);
    Compose(start, acts + [end], Again(s.disk.value, n));
    var pending := After(s', Again(s.disk.value, n)).phase.run.pending;
    assert (set i | i in pending && i < |s.phase.run.mem| && s.phase.run.mem[i].status == Done) ==
           Lost(s.phase.run.mem, s.disk.value);
  }

  // --- the gate ------------------------------------------------------------------------------

  /** What the run shows the fairness gate. */
  function GateEvents(acts: seq<Act>): seq<Gate.Event> {
    if acts == [] then []
    else
      var a := acts[|acts| - 1];
      GateEvents(acts[..|acts| - 1]) +
      if a.FastEnter? then [Gate.Entered] else if a.FastExit? then [Gate.Exited] else []
  }

  lemma {:induction false} CounterStep(s: State, a: Act)
    requires s.fs.Valid() && Enabled(s, a)
    ensures Step(s, a).fastPending == if a.FastEnter? then Gate.Count(s.fastPending, Gate.Entered)
                                      else if a.FastExit? then Gate.Count(s.fastPending, Gate.Exited)
                                      else s.fastPending
  {
    hide WorkerEnabled, WorkerStep, WorkerFiles, WorkerMade, IsValidWav, Reload, Opened;
  }

  /** The counter that bulk runs wait for is that of the gate. */
  lemma {:induction false} FastPendingIsGate(start: State, acts: seq<Act>)
    requires start.fs.Valid() && start.fastPending == 0 && LegalRun(start, acts)
    ensures After(start, acts).fastPending == Gate.After(GateEvents(acts))
    decreases |acts|
  {
    hide Step, Enabled;
    if acts != [] {
      var front, a := acts[..|acts| - 1], acts[|acts| - 1];
      FastPendingIsGate(start, front);
      CounterStep(After(start, front), a);
      var events := GateEvents(front);
      assert (events + [Gate.Entered])[..|events|] == events && (events + [Gate.Exited])[..|events|] == events;
      assert events + [] == events;
    }
  }

  // --- preemption and cancellation ----------------------------------------------------------

  /** How many chunks are started. */
  function Starts(acts: seq<Act>): nat {
    if acts == [] then 0 else Starts(acts[..|acts| - 1]) + if acts[|acts| - 1].Start? then 1 else 0
  }

  /** A fast job is pending before a bulk run. */
  predicate Preempting(s: State) {
    s.bulk && s.fastPending > 0
  }

  /** The worker at the dispatch lock is bound to start its chunk: it has passed the gate, or, as far as a
      cancellation is concerned, the test of the flag. */
  function Past(r: Run, early: bool): nat {
    if r.dispatcher.Some? && r.dispatcher.value < |r.workers| &&
       (r.workers[r.dispatcher.value].Cleared? || (early && r.workers[r.dispatcher.value].Yielding?))
    then 1 else 0
  }

  function PastGate(s: State, early: bool): nat {
    if s.phase.Running? then Past(s.phase.run, early) else 0
  }

  function StartsNow(a: Act): nat {
    if a.Start? then 1 else 0
  }

  /** Nobody is let through: by the gate, or by the cancel flag. */
  predicate Shut(s: State, early: bool) {
    if early then s.cancelFlag else Preempting(s)
  }

  lemma {:induction false} LoopPast(s: State, r: Run, a: Act, early: bool)
    requires LoopAct(a) && s.fs.Valid() && WorkerEnabled(s, r, a) && Seat(r, a.w) && Shut(s, early)
    ensures Past(WorkerStep(s, r, a), early) + StartsNow(a) <= Past(r, early)
  {
    hide IsValidWav;
  }

  lemma {:induction false} ChunkPast(s: State, r: Run, a: Act, early: bool)
    requires ChunkAct(a) && s.fs.Valid() && WorkerEnabled(s, r, a) && Seat(r, a.w)
    ensures Past(WorkerStep(s, r, a), early) <= Past(r, early)
  {
    hide IsValidWav, Advance;
    ChunkKeepsPlace(s, r, a);
  }

  lemma {:induction false} ChunkKeepsPlace(s: State, r: Run, a: Act)
    requires ChunkAct(a) && s.fs.Valid() && WorkerEnabled(s, r, a)
    ensures !Dispatching(r.workers[a.w]) && !Dispatching(Advance(s, r, a))
  {
    hide IsValidWav;
  }

  lemma {:induction false} GateStep(s: State, a: Act, early: bool)
    requires s.fs.Valid() && Consistent(s) && Enabled(s, a) && Shut(s, early)
    ensures PastGate(Step(s, a), early) + StartsNow(a) <= PastGate(s, early)
  {
    hide WorkerEnabled, WorkerStep, WorkerFiles, WorkerMade, Seats, Images, Log, Shape, Marks, Apart, Shut;
    if OwnAct(a) {
      ActsInPlace(s, s.phase.run, a);
      SeatOf(s.phase.run, a.w);
      if ChunkAct(a) {
        ChunkPast(s, s.phase.run, a, early);
      } else {
        LoopPast(s, s.phase.run, a, early);
      }
    }
  }

  /** While nobody is let through, whatever happens, at most one further chunk is started. */
  lemma {:induction false} AtMostOneStart(start: State, before: seq<Act>, during: seq<Act>, early: bool)
    requires start.fs.Valid() && start.phase.Idle? && LegalRun(start, before + during)
    requires forall k | 0 <= k <= |during| ::
               LegalRun(start, before + during[..k]) && Shut(After(start, before + during[..k]), early)
    ensures Starts(during) + PastGate(After(start, before + during), early) <= 1
    decreases |during|
  {
    hide Consistent, Step, Enabled, Shut;
    if during != [] {
      hide PastGate;
      var n := |during| - 1;
      var acts := before + during;
      assert acts[..|acts| - 1] == before + during[..n] && acts[|acts| - 1] == during[n];
      assert forall k | 0 <= k <= n :: during[..n][..k] == during[..k];
      AtMostOneStart(start, before, during[..n], early);
      RunIsConsistent(start, before + during[..n]);
      GateStep(After(start, before + during[..n]), during[n], early);
    }
  }

  /** While a fast job stays pending, a bulk run starts at most one further chunk. */
  lemma {:induction false} Preemption(start: State, before: seq<Act>, during: seq<Act>)
    requires start.fs.Valid() && start.phase.Idle? && LegalRun(start, before + during)
    requires forall k | 0 <= k <= |during| ::
               LegalRun(start, before + during[..k]) && Preempting(After(start, before + during[..k]))
    ensures Starts(during) <= 1
  {
    AtMostOneStart(start, before, during, false);
  }

  /** Once the cancel flag is set, and while it stays, any run starts at most one further chunk. */
  lemma {:induction false} Cancellation(start: State, before: seq<Act>, during: seq<Act>)
    requires start.fs.Valid() && start.phase.Idle? && LegalRun(start, before + during)
    requires forall k | 0 <= k <= |during| ::
               LegalRun(start, before + during[..k]) && After(start, before + during[..k]).cancelFlag
    ensures Starts(during) <= 1
  {
    AtMostOneStart(start, before, during, true);
  }
}
