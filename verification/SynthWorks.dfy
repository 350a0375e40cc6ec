/** That the synthesis stage gets anywhere: its workers never block each other for good, take boundedly many
    steps, and can always bring the run to its normal end. */
module SynthWorks {
  import opened Wrappers
  import opened Files
  import opened Synth
  import opened SynthControl
  import opened SynthRuns

  // --- how much is left to do ------------------------------------------------------------------

  /** A bound on the steps the worker takes before it has to ask for another entry. */
  function Rank(wk: Worker): nat {
    match wk
    case Waiting => 1
    case Checking(_) => 25
    case Yielding(_) => 24
    case Cleared(_) => 23
    case Working(_, tries) => 16 + if tries < MAX_CHUNK_ATTEMPTS then MAX_CHUNK_ATTEMPTS - tries else 0
    case Silencing(_, _, _) => 8
    case Fetching(_) => 9
    case CopyingIn(_, _, _, _) => 8
    case Speaking(_, _, _) => 15
    case Persisted(_, _) => 14
    case Storing(_) => 13
    case Linking(_) => 12
    case CopyingOut(_, _) => 11
    case Finished(_, _) => 7
    case Marked(_) => 6
    case Saving(_, _) => 5
    case Publishing(_) => 4
    case Dead(_) => 0
    case Stopped => 0
  }

  const PER_ENTRY: nat := 25

  function Ranks(workers: seq<Worker>): nat {
    if workers == [] then 0 else Ranks(workers[..|workers| - 1]) + Rank(workers[|workers| - 1])
  }

  /** A bound on the steps all workers together still take. */
  function Left(r: Run): nat {
    Ranks(r.workers) + PER_ENTRY * if r.next < |r.pending| then |r.pending| - r.next else 0
  }

  lemma {:induction false} RanksMove(workers: seq<Worker>, w: nat, wk: Worker)
    requires w < |workers|
    ensures Ranks(workers[w := wk]) == Ranks(workers) - Rank(workers[w]) + Rank(wk)
  {
    hide Rank;
    var n := |workers| - 1;
    if w < n {
      assert workers[w := wk][..n] == workers[..n][w := wk];
      RanksMove(workers[..n], w, wk);
    } else {
      assert workers[w := wk][..n] == workers[..n];
    }
  }

  lemma {:induction false} RanksOfWaiting(n: nat)
    ensures Ranks(seq(n, i => Waiting)) == n
  {
    var workers := seq(n, i => Waiting);
    if n > 0 {
      assert workers[..n - 1] == seq(n - 1, i => Waiting);
      RanksOfWaiting(n - 1);
    }
  }

  /** Every worker's step brings the run nearer to its end, and nobody else's takes it further away. */
  lemma {:induction false} StepsRunOut(s: State, r: Run, a: Act)
    requires OwnAct(a) && s.fs.Valid() && WorkerEnabled(s, r, a)
    ensures Left(WorkerStep(s, r, a)) < Left(r)
  {
    var r' := WorkerStep(s, r, a);
    OneWorkerMoves(s, r, a);
    RanksMove(r.workers, a.w, r'.workers[a.w]);
  }

  lemma {:induction false} OneWorkerMoves(s: State, r: Run, a: Act)
    requires OwnAct(a) && s.fs.Valid() && WorkerEnabled(s, r, a)
    ensures var r' := WorkerStep(s, r, a);
            && r'.workers == r.workers[a.w := r'.workers[a.w]] && r'.pending == r.pending
            && (if a.Acquire? && r'.workers[a.w].Checking? then r.next < |r.pending| && r'.next == r.next + 1
                else r'.next == r.next && Rank(r'.workers[a.w]) < Rank(r.workers[a.w]))
            && (a.Acquire? ==> Rank(r.workers[a.w]) == 1 && Rank(r'.workers[a.w]) <= PER_ENTRY)
  {
    if ChunkAct(a) {
      ChunkMoves(s, r, a);
      hide Rank, Advance, WorkerEnabled, IsValidWav;
      assert !a.Acquire?;
    } else if a.Acquire? {
      AcquireMoves(s, r, a);
      hide Rank, WorkerStep, WorkerEnabled, IsValidWav;
    } else {
      LoopMoves(s, r, a);
      hide Rank, WorkerStep, WorkerEnabled, IsValidWav;
    }
  }

  lemma {:induction false} ChunkMoves(s: State, r: Run, a: Act)
    requires ChunkAct(a) && s.fs.Valid() && WorkerEnabled(s, r, a)
    ensures Rank(Advance(s, r, a)) < Rank(r.workers[a.w])
  {
    hide IsValidWav;
  }

  lemma {:induction false} LoopMoves(s: State, r: Run, a: Act)
    requires LoopAct(a) && !a.Acquire? && s.fs.Valid() && WorkerEnabled(s, r, a)
    ensures var r' := WorkerStep(s, r, a);
            && r'.workers == r.workers[a.w := r'.workers[a.w]] && r'.pending == r.pending
            && r'.next == r.next && Rank(r'.workers[a.w]) < Rank(r.workers[a.w])
  {
    hide IsValidWav;
  }

  lemma {:induction false} AcquireMoves(s: State, r: Run, a: Act)
    requires a.Acquire? && s.fs.Valid() && WorkerEnabled(s, r, a)
    ensures var r' := WorkerStep(s, r, a);
            && r'.workers == r.workers[a.w := r'.workers[a.w]] && r'.pending == r.pending
            && (if r'.workers[a.w].Checking? then r.next < |r.pending| && r'.next == r.next + 1
                else r'.next == r.next && Rank(r'.workers[a.w]) < Rank(r.workers[a.w]))
            && Rank(r.workers[a.w]) == 1 && Rank(r'.workers[a.w]) <= PER_ENTRY
  {
    hide IsValidWav;
  }

  /** The workers' own steps. */
  function OwnSteps(acts: seq<Act>): nat {
    if acts == [] then 0 else OwnSteps(acts[..|acts| - 1]) + if OwnAct(acts[|acts| - 1]) then 1 else 0
  }

  /** The run stays the one it is. */
  predicate Within(a: Act) {
    !a.Load? && !a.Open? && !a.End? && !a.Abort? && !a.Crash?
  }

  predicate WithinRun(acts: seq<Act>) {
    forall k | 0 <= k < |acts| :: Within(acts[k])
  }

  lemma {:induction false} StepStaysInRun(s: State, a: Act)
    requires s.fs.Valid() && s.phase.Running? && Enabled(s, a) && Within(a)
    ensures Step(s, a).phase.Running?
    ensures OwnAct(a) ==> Left(Step(s, a).phase.run) < Left(s.phase.run)
    ensures !OwnAct(a) ==> Step(s, a).phase == s.phase
  {
    hide WorkerEnabled, WorkerStep, WorkerFiles, WorkerMade, IsValidWav, Left;
    if OwnAct(a) {
      StepsRunOut(s, s.phase.run, a);
    }
  }

  /** Whatever the rest of the system does, and however the workers are interleaved, they take only so many
      steps: from the start of a run at most twenty-five for each pending entry and one for each worker. */
  lemma {:induction false} WorkersRunOut(s: State, acts: seq<Act>)
    requires s.fs.Valid() && s.phase.Running? && LegalRun(s, acts) && WithinRun(acts)
    ensures After(s, acts).phase.Running?
    ensures OwnSteps(acts) + Left(After(s, acts).phase.run) <= Left(s.phase.run)
    ensures forall entries, n | s.phase.run == Opened(entries, n) ::
              OwnSteps(acts) <= PER_ENTRY * |PendingOf(entries)| + n
    decreases |acts|
  {
    hide Step, Enabled, Left, OwnAct, PendingOf;
    if acts != [] {
      var n := |acts| - 1;
      assert forall k | 0 <= k < n :: acts[..n][k] == acts[k];
      WorkersRunOut(s, acts[..n]);
      StepStaysInRun(After(s, acts[..n]), acts[n]);
    }
    forall entries, n | s.phase.run == Opened(entries, n)
      ensures OwnSteps(acts) <= PER_ENTRY * |PendingOf(entries)| + n
    {
      LeftAtStart(entries, n);
    }
  }

  lemma {:induction false} LeftAtStart(entries: seq<Entry>, n: nat)
    ensures Left(Opened(entries, n)) == PER_ENTRY * |PendingOf(entries)| + n
  {
    hide PendingOf;
    RanksOfWaiting(n);
    assert Opened(entries, n).workers == seq(n, i => Waiting);
  }

  // --- the files the workers count on ----------------------------------------------------------

  /** No other path leads to the inode of `p`. */
  ghost predicate Alone(fs: FileSystem, p: Path) {
    p in fs.dir ==> forall q | q in fs.dir && q != p :: fs.dir[q] != fs.dir[p]
  }

  /** A worker finds its own chunk file there, or gone, as it left it, and an answer kept in it is nowhere else. */
  ghost predicate Staged(fs: FileSystem, wk: Worker, own: Path) {
    match wk
    case Silencing(_, _, _) => fs.Exists(own)
    case Fetching(_) => !fs.Exists(own)
    case CopyingIn(_, _, src, _) => fs.Exists(own) && src < |fs.inodes|
    case Persisted(_, _) => fs.Exists(own) && Alone(fs, own)
    case Storing(_) => fs.Exists(own) && Alone(fs, own)
    case Linking(_) => fs.Exists(own) && Alone(fs, own)
    case CopyingOut(_, copy) => fs.Exists(own) && copy.dst < |fs.inodes|
    case _ => true
  }

  ghost predicate AllStaged(fs: FileSystem, r: Run) {
    forall w | 0 <= w < |r.workers| && Owner(r.workers[w]) && r.workers[w].pos < |r.pending| ::
      Staged(fs, r.workers[w], OwnChunk(r.pending[r.workers[w].pos]))
  }

  /** Nothing a worker with chunk file `p` counts on has changed. */
  ghost predicate Calm(fs: FileSystem, fs': FileSystem, p: Path) {
    && |fs.inodes| <= |fs'.inodes|
    && (p in fs'.dir <==> p in fs.dir) && (p in fs.dir ==> fs'.dir[p] == fs.dir[p])
    && (Alone(fs, p) ==> Alone(fs', p))
  }

  lemma {:induction false} OtherPathIsCalm(fs: FileSystem, p: Path, q: Path, b: Bytes)
    requires fs.Valid() && p != q
    ensures Calm(fs, fs, p) && Calm(fs, fs.Unlink(q), p) && Calm(fs, fs.Replace(q, b), p) &&
            Calm(fs, fs.Overwrite(q, b), p)
    ensures forall src | fs.Exists(src) && src != p :: Calm(fs, fs.Link(src, q), p)
    ensures forall n | 0 <= n < |fs.inodes| :: Calm(fs, fs.WriteInode(n, b), p)
  {
  }

  lemma {:induction false} LoopLeavesFiles(s: State, r: Run, a: Act)
    requires LoopAct(a) && s.fs.Valid() && WorkerEnabled(s, r, a)
    ensures WorkerFiles(s, r, a) == s.fs
  {
    hide IsValidWav;
  }

  lemma {:induction false} ChunkIsCalm(s: State, r: Run, a: Act, p: Path)
    requires ChunkAct(a) && s.fs.Valid() && WorkerEnabled(s, r, a) && p.ChunkFile?
    requires OwnChunk(EntryOf(r, r.workers[a.w])) != p
    ensures Calm(s.fs, WorkerFiles(s, r, a), p)
  {
    var wk := r.workers[a.w];
    hide IsValidWav, Calm;
    var own, cached := OwnChunk(EntryOf(r, wk)), CacheFile(HashOf(r, wk));
    var bytes := if a.BeginSilence? || a.BeginCopyHit? || a.BeginCopyStore? then a.junk
                 else if a.EndSilence? || a.EndCopyHit? || a.EndCopyStore? then a.result
                 else if a.Persist? then wk.audio else [];
    OtherPathIsCalm(s.fs, p, own, bytes);
    OtherPathIsCalm(s.fs, p, cached, bytes);
  }

  lemma {:induction false} ForeignIsCalm(s: State, a: Act, p: Path)
    requires s.fs.Valid() && !OwnAct(a) && Enabled(s, a) && p.ChunkFile? && p.job == JOB
    ensures Calm(s.fs, Step(s, a).fs, p)
  {
    hide IsValidWav, Calm, Reload, Opened, WorkerEnabled, WorkerStep, WorkerFiles, WorkerMade;
    var q := if a.Evict? then CacheFile(a.key)
             else if a.ForeignPut? || a.ForeignBeginCopy? then CacheFile(a.key)
             else if a.ForeignPersist? || a.ForeignGet? || a.ForeignFill? || a.ForeignSilence? then a.p
             else CacheFile("");
    var bytes := if a.ForeignPersist? then a.audio
                 else if a.ForeignBeginCopy? then a.junk
                 else if a.ForeignEndCopy? then a.result
                 else if a.ForeignFill? || a.ForeignSilence? then a.bytes else [];
    OtherPathIsCalm(s.fs, p, q, bytes);
  }

  lemma {:induction false} StagedKept(fs: FileSystem, fs': FileSystem, wk: Worker, p: Path)
    requires Calm(fs, fs', p) && Staged(fs, wk, p)
    ensures Staged(fs', wk, p)
  {
    hide Alone;
  }

  predicate Keeping(a: Act) {
    a.LookUp? || a.ClearCache? || a.LinkStore?
  }

  /** What a step of `_synth_one` leaves its own worker with. */
  lemma {:induction false} OwnStaged(s: State, r: Run, a: Act)
    requires ChunkAct(a) && !Keeping(a) && s.fs.Valid() && WorkerEnabled(s, r, a)
    requires Staged(s.fs, r.workers[a.w], OwnChunk(EntryOf(r, r.workers[a.w])))
    ensures Staged(WorkerFiles(s, r, a), Advance(s, r, a), OwnChunk(EntryOf(r, r.workers[a.w])))
  {
    hide IsValidWav;
  }

  lemma {:induction false} KeptStaged(s: State, r: Run, a: Act)
    requires Keeping(a) && s.fs.Valid() && WorkerEnabled(s, r, a)
    requires Staged(s.fs, r.workers[a.w], OwnChunk(EntryOf(r, r.workers[a.w])))
    ensures Staged(WorkerFiles(s, r, a), Advance(s, r, a), OwnChunk(EntryOf(r, r.workers[a.w])))
  {
    hide IsValidWav, Alone;
    var own, cached := OwnChunk(EntryOf(r, r.workers[a.w])), CacheFile(HashOf(r, r.workers[a.w]));
    OtherPathIsCalm(s.fs, own, cached, []);
  }

  lemma {:induction false} OtherEntry(r: Run, disk: seq<Entry>, v: nat, w: nat)
    requires Control(r, disk) && v < |r.workers| && w < |r.workers| && v != w
    requires Owner(r.workers[v]) && Owner(r.workers[w])
    ensures r.workers[v].pos < |r.pending| && r.workers[w].pos < |r.pending|
    ensures r.pending[r.workers[v].pos] != r.pending[r.workers[w].pos]
  {
    hide Images, Marks, Log, PendingOf;
    assert Seat(r, v) && Seat(r, w);
    assert r.workers[v].pos != r.workers[w].pos;
  }

  lemma {:induction false} OwnKeepsStaged(s: State, r: Run, a: Act, disk: seq<Entry>)
    requires OwnAct(a) && s.fs.Valid() && WorkerEnabled(s, r, a) && Control(r, disk) && AllStaged(s.fs, r)
    ensures AllStaged(WorkerFiles(s, r, a), WorkerStep(s, r, a))
  {
    hide WorkerStep, WorkerFiles, Control, Staged, Advance, Calm, IsValidWav;
    var r' := WorkerStep(s, r, a);
    OneWorkerMoves(s, r, a);
    if ChunkAct(a) {
      ChunkLands(s, r, a);
    }
    forall v | 0 <= v < |r'.workers| && Owner(r'.workers[v]) && r'.workers[v].pos < |r.pending|
      ensures Staged(WorkerFiles(s, r, a), r'.workers[v], OwnChunk(r.pending[r'.workers[v].pos]))
    {
      if v != a.w {
        var own := OwnChunk(r.pending[r.workers[v].pos]);
        assert Staged(s.fs, r.workers[v], own);
        if ChunkAct(a) {
          OtherEntry(r, disk, v, a.w);
          ChunkIsCalm(s, r, a, own);
          StagedKept(s.fs, WorkerFiles(s, r, a), r.workers[v], own);
        } else {
          LoopLeavesFiles(s, r, a);
        }
      } else if ChunkAct(a) {
        assert Staged(s.fs, r.workers[v], OwnChunk(r.pending[r.workers[v].pos]));
        if Keeping(a) {
          KeptStaged(s, r, a);
        } else {
          OwnStaged(s, r, a);
        }
      } else {
        LoopLeavesFiles(s, r, a);
        LoopLands(s, r, a, OwnChunk(r.pending[r'.workers[v].pos]));
      }
    }
  }

  /** Where a worker's step leaves it: with its entry, or with nothing it counts on. */
  lemma {:induction false} ChunkLands(s: State, r: Run, a: Act)
    requires ChunkAct(a) && s.fs.Valid() && WorkerEnabled(s, r, a)
    ensures var wk, wk' := r.workers[a.w], WorkerStep(s, r, a).workers[a.w];
            wk' == Advance(s, r, a) && Owner(wk) && Owner(wk') && wk'.pos == wk.pos
  {
    hide IsValidWav;
  }

  lemma {:induction false} LoopLands(s: State, r: Run, a: Act, p: Path)
    requires LoopAct(a) && s.fs.Valid() && WorkerEnabled(s, r, a)
    ensures var workers := WorkerStep(s, r, a).workers; a.w < |workers| ==> Staged(s.fs, workers[a.w], p)
  {
    hide IsValidWav, Alone;
  }

  /** The files are as the workers left them, at every instant. */
  ghost predicate Orderly(s: State) {
    Consistent(s) && (s.phase.Running? ==> AllStaged(s.fs, s.phase.run))
  }

  lemma {:induction false} StepIsOrderly(s: State, a: Act)
    requires s.fs.Valid() && Orderly(s) && Enabled(s, a)
    ensures Orderly(Step(s, a))
  {
    hide Control, WorkerEnabled, WorkerStep, WorkerFiles, WorkerMade, IsValidWav, Staged, Calm;
    StepIsConsistent(s, a);
    if OwnAct(a) {
      OwnKeepsStaged(s, s.phase.run, a, s.disk.value);
    } else if s.phase.Running? && Within(a) {
      var r := s.phase.run;
      StepStaysInRun(s, a);
      forall w | 0 <= w < |r.workers| && Owner(r.workers[w]) && r.workers[w].pos < |r.pending|
        ensures Staged(Step(s, a).fs, r.workers[w], OwnChunk(r.pending[r.workers[w].pos]))
      {
        var own := OwnChunk(r.pending[r.workers[w].pos]);
        ForeignIsCalm(s, a, own);
        StagedKept(s.fs, Step(s, a).fs, r.workers[w], own);
      }
    }
  }

  lemma IdleIsOrderly(s: State)
    requires s.phase.Idle?
    ensures Orderly(s)
  {
  }

  lemma {:induction false} RunIsOrderly(start: State, acts: seq<Act>)
    requires start.fs.Valid() && start.phase.Idle? && LegalRun(start, acts)
    ensures Orderly(After(start, acts))
    decreases |acts|
  {
    hide Orderly, Step, Enabled;
    if acts == [] {
      IdleIsOrderly(start);
    } else {
      RunIsOrderly(start, acts[..|acts| - 1]);
      StepIsOrderly(After(start, acts[..|acts| - 1]), acts[|acts| - 1]);
    }
  }

  // --- nobody is stuck -----------------------------------------------------------------------------

  /** No fast job holds the run up. */
  predicate Passable(s: State, r: Run) {
    s.fastPending <= 0 || (!s.bulk && forall w | 0 <= w < |r.workers| :: !r.workers[w].Yielding?)
  }

  /** The cache file that a worker has set out to link is still there. */
  predicate Findable(fs: FileSystem, r: Run, wk: Worker) {
    wk.Fetching? && Placed(r, wk) ==> fs.Exists(CacheFile(HashOf(r, wk)))
  }

  /** Nothing has happened that makes a worker raise. */
  predicate Hale(s: State, r: Run) {
    Passable(s, r) && forall w | 0 <= w < |r.workers| :: !r.workers[w].Dead? && Findable(s.fs, r, r.workers[w])
  }

  /** The next step of an undisturbed `_synth_one` whose engine answers with `audio`. */
  function ChunkNext(s: State, r: Run, w: nat, audio: Bytes): Act
    requires s.fs.Valid() && w < |r.workers| && Placed(r, r.workers[w]) && Unmarked(r.workers[w])
  {
    match r.workers[w]
    case Checking(_) => CheckCancel(w)
    case Yielding(_) => Poll(w)
    case Cleared(_) => Act.Start(w)
    case Working(_, tries) => if tries < MAX_CHUNK_ATTEMPTS then Speak(w, audio, true) else BeginSilence(w, Failed, [])
    case Silencing(_, status, _) => EndSilence(w, Placeholder(status))
    case Fetching(_) => LinkHit(w)
    case CopyingIn(_, cached, _, _) => EndCopyHit(w, cached)
    case Speaking(_, _, _) => Persist(w)
    case Persisted(_, _) => LookUp(w)
    case Storing(_) => ClearCache(w)
    case Linking(_) => if s.fs.Exists(CacheFile(HashOf(r, r.workers[w]))) then BeginCopyStore(w, []) else LinkStore(w)
    case CopyingOut(_, copy) => EndCopyStore(w, copy.audio)
    case Finished(_, _) => Mark(w)
  }

  lemma {:induction false} ChunkNextGoes(s: State, r: Run, w: nat, audio: Bytes)
    requires s.fs.Valid() && w < |r.workers| && Placed(r, r.workers[w]) && Unmarked(r.workers[w])
    requires Staged(s.fs, r.workers[w], OwnChunk(EntryOf(r, r.workers[w]))) && Findable(s.fs, r, r.workers[w])
    requires r.workers[w].Yielding? ==> s.fastPending <= 0
    requires r.workers[w].Silencing? ==> r.workers[w].status != Pending
    ensures var a := ChunkNext(s, r, w, audio); OwnAct(a) && a.w == w && !a.Raise? && WorkerEnabled(s, r, a)
  {
    hide IsValidWav, Silence;
  }

  /** A step that an undisturbed worker takes, with an engine that always answers. */
  predicate Smooth(r: Run, a: Act)
    requires OwnAct(a) && a.w < |r.workers|
  {
    !a.Raise? && !a.DropForHit? && !a.Retry? &&
    (a.BeginSilence? && r.workers[a.w].Working? ==> r.workers[a.w].tries >= MAX_CHUNK_ATTEMPTS)
  }

  /** Some worker can go on without raising, unless all are over. */
  lemma {:induction false} Pick(s: State, r: Run, audio: Bytes) returns (a: Act)
    requires s.fs.Valid() && s.phase == Running(r) && Orderly(s) && Hale(s, r) && !AllStopped(r)
    ensures OwnAct(a) && !a.Raise? && WorkerEnabled(s, r, a) && Smooth(r, a)
    ensures a.LinkHit? || forall w | 0 <= w < |r.workers| :: !r.workers[w].Fetching?
  {
    hide Images, Marks, Log, PendingOf, WorkerEnabled, Staged, Findable, HashOf, IsValidWav;
    if w :| 0 <= w < |r.workers| && r.workers[w].Fetching? {
      a := PickUnmarked(s, r, w, audio);
    } else if w :| 0 <= w < |r.workers| && Unmarked(r.workers[w]) {
      a := PickUnmarked(s, r, w, audio);
    } else if w :| 0 <= w < |r.workers| && Writing(r.workers[w]) {
      a := PickWriting(s, r, w);
    } else if w :| 0 <= w < |r.workers| && r.workers[w].Marked? {
      a := PickMarked(s, r, w);
    } else {
      a := PickWaiting(s, r);
    }
  }

  lemma {:induction false} PickUnmarked(s: State, r: Run, w: nat, audio: Bytes) returns (a: Act)
    requires s.fs.Valid() && s.phase == Running(r) && Orderly(s) && Hale(s, r)
    requires w < |r.workers| && Unmarked(r.workers[w])
    ensures Placed(r, r.workers[w]) && a == ChunkNext(s, r, w, audio)
    ensures OwnAct(a) && !a.Raise? && WorkerEnabled(s, r, a)
  {
    hide Images, Marks, Log, PendingOf, WorkerEnabled, Staged, Findable, HashOf, IsValidWav, ChunkNext;
    assert Seat(r, w);
    assert Placed(r, r.workers[w]);
    a := ChunkNext(s, r, w, audio);
    ChunkNextGoes(s, r, w, audio);
  }

  lemma {:induction false} LocksAreHeld(r: Run, disk: seq<Entry>)
    requires Control(r, disk)
    ensures r.saver.Some? ==> r.saver.value < |r.workers| && Writing(r.workers[r.saver.value])
    ensures r.dispatcher.Some? ==> r.dispatcher.value < |r.workers| && Dispatching(r.workers[r.dispatcher.value])
  {
    hide Images, Marks, Log, PendingOf;
    assert r.saver.Some? ==> Seat(r, r.saver.value);
    assert r.dispatcher.Some? ==> Seat(r, r.dispatcher.value);
  }

  lemma {:induction false} PickWriting(s: State, r: Run, w: nat) returns (a: Act)
    requires s.fs.Valid() && s.phase == Running(r) && Orderly(s) && w < |r.workers| && Writing(r.workers[w])
    ensures (a.Write? || a.Release?) && WorkerEnabled(s, r, a)
  {
    hide Images, Marks, Log, PendingOf, Staged, Findable, HashOf, IsValidWav;
    assert Seat(r, w);
    a := if r.workers[w].Saving? then Write(w) else Release(w);
  }

  lemma {:induction false} PickMarked(s: State, r: Run, w: nat) returns (a: Act)
    requires s.fs.Valid() && s.phase == Running(r) && Orderly(s) && w < |r.workers| && r.workers[w].Marked?
    requires forall v | 0 <= v < |r.workers| :: !Writing(r.workers[v])
    ensures a.Snapshot? && WorkerEnabled(s, r, a)
  {
    hide Images, Marks, Log, PendingOf, Staged, Findable, HashOf, IsValidWav;
    assert Seat(r, w);
    LocksAreHeld(r, s.disk.value);
    a := Snapshot(w);
  }

  lemma {:induction false} PickWaiting(s: State, r: Run) returns (a: Act)
    requires s.fs.Valid() && s.phase == Running(r) && Orderly(s) && Hale(s, r) && !AllStopped(r)
    requires forall v | 0 <= v < |r.workers| ::
               !Unmarked(r.workers[v]) && !Writing(r.workers[v]) && !r.workers[v].Marked?
    ensures a.Acquire? && WorkerEnabled(s, r, a)
  {
    hide Images, Marks, Log, PendingOf, Staged, Findable, HashOf, IsValidWav;
    var w :| 0 <= w < |r.workers| && !r.workers[w].Stopped?;
    assert !Unmarked(r.workers[w]);
    LocksAreHeld(r, s.disk.value);
    a := Acquire(w);
  }

  // --- every run can be brought to its end -----------------------------------------------------------

  /** No chunk of the run has failed. */
  predicate Well(r: Run) {
    && (forall i | 0 <= i < |r.mem| :: r.mem[i].status != Failed)
    && (forall w | 0 <= w < |r.workers| :: WellAt(r.workers[w]))
  }

  predicate WellAt(wk: Worker) {
    && (wk.Silencing? || wk.Finished? ==> wk.status != Failed)
    && (wk.Working? ==> wk.tries < MAX_CHUNK_ATTEMPTS)
  }

  lemma {:induction false} SmoothChunk(s: State, r: Run, a: Act)
    requires ChunkAct(a) && s.fs.Valid() && WorkerEnabled(s, r, a) && Smooth(r, a)
    ensures var wk' := Advance(s, r, a);
            && !wk'.Dead? && !wk'.Fetching? && !wk'.Yielding?
            && (WellAt(r.workers[a.w]) ==> WellAt(wk'))
  {
    hide IsValidWav;
  }

  lemma {:induction false} ChunkKeepsMem(s: State, r: Run, a: Act)
    requires ChunkAct(a) && s.fs.Valid() && WorkerEnabled(s, r, a)
    ensures var r' := WorkerStep(s, r, a);
            r'.workers[a.w] == Advance(s, r, a) && r'.mem == r.mem && r'.cancelled == r.cancelled
  {
    hide IsValidWav, Advance;
  }

  lemma {:induction false} SmoothLoop(s: State, r: Run, a: Act)
    requires LoopAct(a) && s.fs.Valid() && WorkerEnabled(s, r, a) && Smooth(r, a)
    ensures var r', wk' := WorkerStep(s, r, a), WorkerStep(s, r, a).workers[a.w];
            && !wk'.Dead? && !wk'.Fetching? && (wk'.Yielding? ==> s.bulk) && WellAt(wk')
            && (!s.cancelFlag && !r.cancelled ==> !r'.cancelled)
            && (r'.mem == r.mem || exists i | 0 <= i < |r.mem| ::
                  r'.mem == r.mem[i := Entry(r.mem[i].hash, r.workers[a.w].status)]
                  && r.workers[a.w].Finished?)
  {
    hide IsValidWav;
    var r' := WorkerStep(s, r, a);
    if a.Mark? {
      var i := EntryOf(r, r.workers[a.w]);
      assert r'.mem == r.mem[i := Entry(r.mem[i].hash, r.workers[a.w].status)];
    }
  }

  lemma {:induction false} SmoothStep(s: State, r: Run, a: Act)
    requires OwnAct(a) && s.fs.Valid() && WorkerEnabled(s, r, a) && Smooth(r, a)
    ensures var r', wk' := WorkerStep(s, r, a), WorkerStep(s, r, a).workers[a.w];
            && !wk'.Dead? && !wk'.Fetching? && (wk'.Yielding? ==> s.bulk)
            && (WellAt(r.workers[a.w]) ==> WellAt(wk'))
            && |r'.mem| == |r.mem|
            && (WellAt(r.workers[a.w]) && (forall i | 0 <= i < |r.mem| :: r.mem[i].status != Failed) ==>
                  forall i | 0 <= i < |r.mem| :: r'.mem[i].status != Failed)
            && (!s.cancelFlag && !r.cancelled ==> !r'.cancelled)
  {
    if ChunkAct(a) {
      ChunkKeepsMem(s, r, a);
      SmoothChunk(s, r, a);
      hide WorkerStep, WorkerEnabled, Advance, WellAt, IsValidWav;
    } else {
      SmoothLoop(s, r, a);
      hide WorkerStep, WorkerEnabled, IsValidWav;
    }
  }

  lemma {:induction false} PickedKeepsHale(s: State, r: Run, a: Act)
    requires s.fs.Valid() && s.phase == Running(r) && Orderly(s) && Hale(s, r)
    requires OwnAct(a) && WorkerEnabled(s, r, a) && Smooth(r, a)
    requires a.LinkHit? || forall w | 0 <= w < |r.workers| :: !r.workers[w].Fetching?
    ensures Enabled(s, a) && Step(s, a).phase.Running?
    ensures Hale(Step(s, a), Step(s, a).phase.run) && Left(Step(s, a).phase.run) < Left(r)
    ensures !s.cancelFlag && !r.cancelled ==> !Step(s, a).phase.run.cancelled
    ensures var s' := Step(s, a); s'.cancelFlag == s.cancelFlag && s'.phase.run.pending == r.pending
  {
    hide WorkerEnabled, WorkerFiles, WorkerMade, WorkerStep, Orderly, Left, IsValidWav, WellAt, Smooth;
    var r' := WorkerStep(s, r, a);
    OneWorkerMoves(s, r, a);
    StepsRunOut(s, r, a);
    SmoothStep(s, r, a);
    forall w | 0 <= w < |r'.workers| ensures Findable(WorkerFiles(s, r, a), r', r'.workers[w]) {
      if w != a.w && a.LinkHit? {
        HitLeavesCache(s, r, a);
        assert Findable(s.fs, r, r.workers[w]);
      }
    }
  }

  lemma {:induction false} SmoothKeepsWell(s: State, r: Run, a: Act)
    requires s.fs.Valid() && OwnAct(a) && WorkerEnabled(s, r, a) && Smooth(r, a) && Well(r)
    ensures Well(WorkerStep(s, r, a))
  {
    assert WellAt(r.workers[a.w]);
    hide WorkerEnabled, WorkerStep, IsValidWav, WellAt, Smooth, Rank;
    var r' := WorkerStep(s, r, a);
    OneWorkerMoves(s, r, a);
    SmoothStep(s, r, a);
    forall w | 0 <= w < |r'.workers| ensures WellAt(r'.workers[w]) {
      assert w != a.w ==> r'.workers[w] == r.workers[w] && WellAt(r.workers[w]);
    }
  }

  lemma {:induction false} PickedKeepsWell(s: State, r: Run, a: Act)
    requires s.fs.Valid() && s.phase == Running(r) && OwnAct(a) && WorkerEnabled(s, r, a) && Smooth(r, a)
    ensures Enabled(s, a) && Step(s, a).phase.Running? && (Well(r) ==> Well(Step(s, a).phase.run))
  {
    hide WorkerEnabled, WorkerStep, WorkerFiles, WorkerMade, Smooth, Well;
    if Well(r) {
      SmoothKeepsWell(s, r, a);
    }
  }

  lemma {:induction false} HitLeavesCache(s: State, r: Run, a: Act)
    requires a.LinkHit? && s.fs.Valid() && WorkerEnabled(s, r, a)
    ensures forall key | s.fs.Exists(CacheFile(key)) :: WorkerFiles(s, r, a).Exists(CacheFile(key))
    ensures WorkerStep(s, r, a).mem == r.mem
  {
    hide IsValidWav;
  }

  /** The workers' own steps, none of which raises. */
  predicate Unaided(acts: seq<Act>) {
    forall k | 0 <= k < |acts| :: OwnAct(acts[k]) && !acts[k].Raise?
  }

  lemma {:induction false} WorkersCanStop(s: State, audio: Bytes) returns (acts: seq<Act>)
    requires s.fs.Valid() && s.phase.Running? && Orderly(s) && Hale(s, s.phase.run)
    ensures LegalRun(s, acts) && Unaided(acts) && |acts| <= Left(s.phase.run)
    ensures After(s, acts).phase.Running? && AllStopped(After(s, acts).phase.run)
    ensures Well(s.phase.run) ==> Well(After(s, acts).phase.run)
    ensures !s.cancelFlag && !s.phase.run.cancelled ==> !After(s, acts).phase.run.cancelled
    decreases Left(s.phase.run)
  {
    hide Step, Enabled, Orderly, Hale, Well, AllStopped, Left, WorkerEnabled, Smooth, OwnAct;
    acts := [];
    if !AllStopped(s.phase.run) {
      var a := Pick(s, s.phase.run, audio);
      PickedKeepsHale(s, s.phase.run, a);
      PickedKeepsWell(s, s.phase.run, a);
      StepIsOrderly(s, a);
      OneMore(s, [], a);
      assert [] + [a] == [a];
      var rest := WorkersCanStop(Step(s, a), audio);
      Compose(s, [a], rest);
      acts := [a] + rest;
    }
  }

  /** From every state a run can come to, its workers alone can bring it to its normal end, whatever any of them
      is in the middle of, unless one has raised or is bound to: because a fast job holds it up, or because the
      cache file it set out to link was evicted. Not cancelled, the run is then complete; and if no chunk had
      failed by then and the engine answers, every chunk is done. */
  lemma {:induction false} EveryRunCanEnd(start: State, before: seq<Act>, audio: Bytes) returns (acts: seq<Act>)
    requires start.fs.Valid() && start.phase.Idle? && LegalRun(start, before) && After(start, before).phase.Running?
    requires Hale(After(start, before), After(start, before).phase.run)
    ensures Unaided(acts) && LegalRun(start, before + acts) && LegalRun(start, before + acts + [End])
    ensures var s, s' := After(start, before), After(start, before + acts);
            && |acts| <= Left(s.phase.run)
            && s'.phase.Running? && After(start, before + acts + [End]).disk == Some(s'.phase.run.mem)
            && (!s.cancelFlag && !s.phase.run.cancelled ==> Complete(s'.phase.run))
            && (!s.cancelFlag && !s.phase.run.cancelled && Well(s.phase.run) ==>
                  forall i | 0 <= i < |s'.phase.run.mem| :: s'.phase.run.mem[i].status == Done)
  {
    hide Step, Enabled, Orderly, Hale, Left, Complete, AllStopped;
    RunIsOrderly(start, before);
    acts := WorkersCanStop(After(start, before), audio);
    Compose(start, before, acts);
    var s' := After(start, before + acts);
    EndGoes(s');
    OneMore(start, before + acts, End);
    ExactlyOnce(start, before + acts);
    if !s'.phase.run.cancelled {
      CompleteIsSettled(s'.phase.run);
    }
  }

  lemma EndGoes(s: State)
    requires s.fs.Valid() && s.phase.Running? && AllStopped(s.phase.run)
    ensures Enabled(s, End)
  {
  }

  /** A job that is started, over whatever texts and with whatever is left on disk and in the cache, can be
      completed: with every chunk done on disk. */
  lemma {:induction false} EveryJobCanComplete(s: State, hashes: seq<string>, readable: bool, n: nat, audio: Bytes)
    returns (acts: seq<Act>)
    requires s.fs.Valid() && s.phase.Idle? && !s.cancelFlag && n > 0 && (s.bulk ==> s.fastPending <= 0)
    ensures Unaided(acts)
    ensures var all := [Load(hashes, readable, n), Open] + acts + [End];
            && LegalRun(s, all) && After(s, all).phase.Idle?
            && After(s, all).disk == Some(seq(|hashes|, i requires 0 <= i < |hashes| => Entry(hashes[i], Done)))
  {
    hide Step, Enabled, Complete, Left, IsValidWav, PendingOf;
    var open := [Load(hashes, readable, n), Open];
    var loaded := OpenGoes(s, hashes, readable, n);
    var r := Opened(loaded, n);
    assert Hale(After(s, open), r) && Well(r);
    acts := EveryRunCanEnd(s, open, audio);
    var s' := After(s, open + acts);
    EndOf(s, open + acts);
    assert Complete(s'.phase.run);
    CompleteKeepsTexts(s'.phase.run);
    assert s'.phase.run.loaded == loaded by {
      RunKeepsLoaded(s, open, acts);
    }
    assert s'.phase.run.mem == seq(|hashes|, i requires 0 <= i < |hashes| => Entry(hashes[i], Done));
  }

  lemma CompleteKeepsTexts(r: Run)
    requires Complete(r)
    ensures |r.mem| == |r.loaded| && forall i | 0 <= i < |r.mem| :: r.mem[i].hash == r.loaded[i].hash
  {
  }

  lemma {:induction false} OpenGoes(s: State, hashes: seq<string>, readable: bool, n: nat)
    returns (loaded: seq<Entry>)
    requires s.fs.Valid() && s.phase.Idle? && n > 0
    ensures LegalRun(s, [Load(hashes, readable, n), Open])
    ensures After(s, [Load(hashes, readable, n), Open]) ==
            s.(disk := Some(loaded), phase := Running(Opened(loaded, n)))
    ensures |loaded| == |hashes|
    ensures forall i | 0 <= i < |hashes| :: loaded[i].hash == hashes[i] && loaded[i].status != Failed
  {
    hide IsValidWav, PendingOf;
    var load := Load(hashes, readable, n);
    OneMore(s, [], load);
    assert [] + [load] == [load];
    OneMore(s, [load], Open);
    assert [load] + [Open] == [load, Open];
    loaded := Reload(s.fs, if s.disk.Some? && readable then s.disk.value else [], hashes);
  }

  lemma {:induction false} RunKeepsLoaded(start: State, before: seq<Act>, acts: seq<Act>)
    requires start.fs.Valid() && LegalRun(start, before) && After(start, before).phase.Running?
    requires Unaided(acts) && LegalRun(start, before + acts)
    ensures After(start, before + acts).phase.Running?
    ensures After(start, before + acts).phase.run.loaded == After(start, before).phase.run.loaded
    decreases |acts|
  {
    hide Step, Enabled, OwnAct;
    if acts == [] {
      assert before + acts == before;
    } else {
      var n := |acts| - 1;
      assert (before + acts)[..|before| + n] == before + acts[..n];
      assert forall k | 0 <= k < n :: acts[..n][k] == acts[k];
      RunKeepsLoaded(start, before, acts[..n]);
      OwnKeepsLoaded(After(start, before + acts[..n]), acts[n]);
    }
  }

  lemma {:induction false} OwnKeepsLoaded(s: State, a: Act)
    requires s.fs.Valid() && s.phase.Running? && OwnAct(a) && Enabled(s, a)
    ensures Step(s, a).phase.Running? && Step(s, a).phase.run.loaded == s.phase.run.loaded
  {
    hide IsValidWav, WorkerFiles, WorkerMade, Advance;
  }

  /** A worker can raise wherever it is with an entry, and then it holds neither lock; the files, the manifest and
      the other workers are as they were. */
  lemma {:induction false} RaisingLetsGo(start: State, acts: seq<Act>, w: nat)
    requires start.fs.Valid() && start.phase.Idle? && LegalRun(start, acts) && After(start, acts).phase.Running?
    requires w < |After(start, acts).phase.run.workers|
    requires Owner(After(start, acts).phase.run.workers[w]) && !After(start, acts).phase.run.workers[w].Dead?
    ensures LegalRun(start, acts + [Raise(w)])
    ensures var s, s' := After(start, acts), After(start, acts + [Raise(w)]);
            && s'.fs == s.fs && s'.disk == s.disk && s'.phase.Running?
            && s'.phase.run.mem == s.phase.run.mem
            && s'.phase.run.dispatcher != Some(w) && s'.phase.run.saver != Some(w)
            && |s'.phase.run.workers| == |s.phase.run.workers| && s'.phase.run.workers[w].Dead?
            && forall v | 0 <= v < |s.phase.run.workers| && v != w ::
                 && s'.phase.run.workers[v] == s.phase.run.workers[v]
                 && (s'.phase.run.dispatcher == Some(v) <==> s.phase.run.dispatcher == Some(v))
                 && (s'.phase.run.saver == Some(v) <==> s.phase.run.saver == Some(v))
  {
    hide LegalRun, After;
    RunIsConsistent(start, acts);
    var s := After(start, acts);
    RaiseGoes(s, s.phase.run, w, s.disk.value);
    OneMore(start, acts, Raise(w));
  }

  lemma {:induction false} RaiseGoes(s: State, r: Run, w: nat, disk: seq<Entry>)
    requires s.fs.Valid() && s.phase == Running(r) && Control(r, disk)
    requires w < |r.workers| && Owner(r.workers[w]) && !r.workers[w].Dead?
    ensures Enabled(s, Raise(w))
    ensures Step(s, Raise(w)).phase.Running?
    ensures var r' := Step(s, Raise(w)).phase.run;
            && Step(s, Raise(w)) == s.(phase := Running(r')) && r'.mem == r.mem
            && r'.dispatcher == (if r.dispatcher == Some(w) then None else r.dispatcher)
            && r'.saver == (if r.saver == Some(w) then None else r.saver)
            && r'.workers == r.workers[w := Dead(r.workers[w].pos)]
  {
    hide Images, Marks, Log, PendingOf, IsValidWav;
    assert Seat(r, w);
  }

  // --- a cancelled job ---------------------------------------------------------------------------------

  /** Whenever a run is cancelled, its workers can bring it to an end; and once the flag is cleared the job can be
      started again, over any texts, and completed. */
  lemma {:induction false} CancelledJobCanComplete(start: State, before: seq<Act>, hashes: seq<string>, n: nat,
                                                   audio: Bytes)
    returns (acts: seq<Act>, more: seq<Act>)
    requires start.fs.Valid() && start.phase.Idle? && LegalRun(start, before) && After(start, before).phase.Running?
    requires Hale(After(start, before), After(start, before).phase.run)
    requires n > 0 && (After(start, before).bulk ==> After(start, before).fastPending <= 0)
    ensures LegalRun(start, before + [SetCancel]) && After(start, before + [SetCancel]).cancelFlag
    ensures Unaided(acts) && Unaided(more)
    ensures var all := before + [SetCancel] + acts + [End] + [ClearCancel] +
                       ([Load(hashes, true, n), Open] + more + [End]);
            && LegalRun(start, all)
            && After(start, all).disk == Some(seq(|hashes|, i requires 0 <= i < |hashes| => Entry(hashes[i], Done)))
  {
    hide Step, Enabled, Hale, Complete, Left, IsValidWav, LegalRun, After;
    CancelGoes(After(start, before));
    OneMore(start, before, SetCancel);
    acts := EveryRunCanEnd(start, before + [SetCancel], audio);
    RunKeepsWorld(start, before + [SetCancel], acts);
    var ended := before + [SetCancel] + acts + [End];
    EndOf(start, before + [SetCancel] + acts);
    var s := After(start, ended);
    ClearGoes(s);
    OneMore(start, ended, ClearCancel);
    more := EveryJobCanComplete(After(start, ended + [ClearCancel]), hashes, true, n, audio);
    Compose(start, ended + [ClearCancel], [Load(hashes, true, n), Open] + more + [End]);
  }

  lemma CancelGoes(s: State)
    requires s.fs.Valid() && s.phase.Running?
    ensures Enabled(s, SetCancel) && Step(s, SetCancel) == s.(cancelFlag := true)
    ensures Hale(s, s.phase.run) ==> Hale(s.(cancelFlag := true), s.phase.run)
  {
  }

  lemma ClearGoes(s: State)
    requires s.fs.Valid()
    ensures Enabled(s, ClearCancel) && Step(s, ClearCancel) == s.(cancelFlag := false)
  {
  }

  /** The workers change nothing of the world around them. */
  lemma {:induction false} RunKeepsWorld(start: State, before: seq<Act>, acts: seq<Act>)
    requires start.fs.Valid() && LegalRun(start, before) && Unaided(acts) && LegalRun(start, before + acts)
    ensures var s, s' := After(start, before), After(start, before + acts);
            s'.bulk == s.bulk && s'.fastPending == s.fastPending && s'.cancelFlag == s.cancelFlag
    decreases |acts|
  {
    hide Step, Enabled, OwnAct;
    if acts == [] {
      assert before + acts == before;
    } else {
      var n := |acts| - 1;
      assert (before + acts)[..|before| + n] == before + acts[..n];
      assert forall k | 0 <= k < n :: acts[..n][k] == acts[k];
      RunKeepsWorld(start, before, acts[..n]);
      OwnKeepsWorld(After(start, before + acts[..n]), acts[n]);
    }
  }

  lemma OwnKeepsWorld(s: State, a: Act)
    requires s.fs.Valid() && OwnAct(a) && Enabled(s, a)
    ensures var s' := Step(s, a);
            s'.bulk == s.bulk && s'.fastPending == s.fastPending && s'.cancelFlag == s.cancelFlag
  {
    hide WorkerEnabled, WorkerStep, WorkerFiles, WorkerMade;
  }
}
