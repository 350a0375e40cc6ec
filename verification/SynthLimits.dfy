/** Where the promise of a resumed job ends: exactly where a step is not careful. */
module SynthLimits {
  import opened Wrappers
  import opened Files
  import opened Synth
  import opened SynthControl
  import opened SynthRuns
  import opened SynthFiles

  // --- half-written bytes ------------------------------------------------------------------

  /** Neither audio that was made nor a whole placeholder. */
  predicate Half(b: Bytes, made: Audio) {
    b != Silence(200) && b != Silence(300) && forall m | m in made :: m.1 != b
  }

  predicate Underway(wk: Worker) {
    wk.Silencing? || wk.CopyingIn? || wk.CopyingOut?
  }

  function PartOf(wk: Worker): Bytes
    requires Underway(wk)
  {
    if wk.CopyingOut? then wk.copy.part else wk.part
  }

  function OwnParts(r: Run): set<Bytes> {
    set w | 0 <= w < |r.workers| && Underway(r.workers[w]) :: PartOf(r.workers[w])
  }

  /** What the writes under way have put into their files so far. */
  function Parts(s: State): set<Bytes> {
    (set id | id in s.others :: s.others[id].part) +
    if s.phase.Running? then OwnParts(s.phase.run) else {}
  }

  ghost predicate PartsAreHalf(s: State) {
    forall b | b in Parts(s) :: Half(b, s.made)
  }

  // --- bytes that serve nobody -----------------------------------------------------------------

  ghost predicate StrangeToCache(s: State, n: nat, b: Bytes, made: Audio, key: Option<string>) {
    forall k | Some(k) != key && CacheLeads(s, k, n) :: (k, b) !in made
  }

  predicate StrangeToEntries(fs: FileSystem, entries: seq<Entry>, n: nat, b: Bytes, made: Audio) {
    forall i: nat | i < |entries| && EntryRelies(fs, entries, i, n) :: (entries[i].hash, b) !in made
  }

  predicate StrangeToWorker(fs: FileSystem, r: Run, wk: Worker, n: nat, b: Bytes, made: Audio) {
    && (WorkerNeeds(fs, r, wk, n) && Placed(r, wk) ==> (HashOf(r, wk), b) !in made)
    && (WorkerWrites(fs, r, wk, n) ==> PartOf(wk) != b)
  }

  predicate StrangeToPhase(s: State, n: nat, b: Bytes, made: Audio, me: Option<nat>) {
    match s.phase
    case Idle => true
    case Loaded(entries, _) => StrangeToEntries(s.fs, entries, n, b, made)
    case Running(r) =>
      && StrangeToEntries(s.fs, r.mem, n, b, made)
      && (forall w | 0 <= w < |r.workers| && Some(w) != me :: StrangeToWorker(s.fs, r, r.workers[w], n, b, made))
  }

  predicate StrangeToOthers(others: map<nat, Copy>, n: nat, b: Bytes, id: Option<nat>) {
    forall i | i in others && Some(i) != id && others[i].dst == n :: others[i].part != b
  }

  /** To everybody who relies on inode `n`, other than worker `me`, copy `id` and the cache file of `key`, the
      bytes are strange: not audio made for the hash, and not what was being written there. */
  ghost predicate Strange(s: State, n: nat, b: Bytes, made: Audio,
                          me: Option<nat>, id: Option<nat>, key: Option<string>) {
    && StrangeToCache(s, n, b, made, key)
    && (s.disk.Some? ==> StrangeToEntries(s.fs, s.disk.value, n, b, made))
    && StrangeToPhase(s, n, b, made, me)
    && StrangeToOthers(s.others, n, b, id)
  }

  /** Half-written bytes are told from whole ones: those of the writes under way, and those that the step
      itself puts into a file it begins to write. */
  ghost predicate Distinct(s: State, a: Act)
    requires s.fs.Valid() && Enabled(s, a)
  {
    var made' := Step(s, a).made;
    PartsAreHalf(s) &&
    match a
    case BeginSilence(w, _, junk) => StrangeInOwn(s, w, junk, made')
    case BeginCopyHit(w, junk) => StrangeInOwn(s, w, junk, made')
    case BeginCopyStore(w, junk) =>
      var hash := HashOf(s.phase.run, s.phase.run.workers[w]);
      Strange(s, Target(s.fs, CacheFile(hash)), junk, made', Some(w), None, Some(hash))
    case ForeignSilence(p, bytes) => Strange(s, Target(s.fs, p), bytes, made', None, None, None)
    case ForeignBeginCopy(_, _, key, junk) =>
      Strange(s, Target(s.fs, CacheFile(key)), junk, made', None, None, Some(key))
    case _ => true
  }

  ghost predicate StrangeInOwn(s: State, w: nat, b: Bytes, made: Audio) {
    AtWork(s, w) ==>
      Strange(s, Target(s.fs, OwnChunk(EntryOf(s.phase.run, s.phase.run.workers[w]))), b, made, Some(w), None, None)
  }

  // --- what strange bytes break ---------------------------------------------------------------

  /** The inode `n` holds `b` now, and no path but `p` leads elsewhere. */
  ghost predicate Spoils(s: State, s': State, p: Path, n: nat, b: Bytes) {
    && s.fs.Valid() && s'.fs.Valid() && n < |s'.fs.inodes| && s'.fs.inodes[n] == b
    && (forall q | q in s.fs.dir && (q != p || s.fs.dir[q] == n) :: q in s'.fs.dir && s'.fs.dir[q] == s.fs.dir[q])
  }

  lemma {:induction false} CacheSpoiled(s: State, s': State, p: Path, n: nat, b: Bytes, k: string)
    requires Spoils(s, s', p, n, b) && CacheLeads(s, k, n) && (k, b) !in s'.made && !Copying(s', n, k)
    ensures !Sound(s')
  {
    hide Copying;
    assert !Good(s'.fs, s'.made, CacheFile(k), k);
  }

  lemma {:induction false} EntriesSpoiled(s: State, s': State, p: Path, n: nat, b: Bytes, entries: seq<Entry>)
    requires Spoils(s, s', p, n, b) && EntriesRely(s.fs, entries, n)
    requires StrangeToEntries(s.fs, entries, n, b, s'.made)
    ensures !EntriesGood(s'.fs, s'.made, entries)
  {
    var i :| 0 <= i < |entries| && EntryRelies(s.fs, entries, i, n);
    assert !Good(s'.fs, s'.made, OwnChunk(i), entries[i].hash);
  }

  lemma {:induction false} WorkerSpoiled(s: State, s': State, p: Path, n: nat, b: Bytes, r: Run, w: nat)
    requires Spoils(s, s', p, n, b) && s.phase == Running(r) && WorkersGood(s.fs, s.made, r) && w < |r.workers|
    requires WorkerRelies(s.fs, r, r.workers[w], n) && s.made <= s'.made
    requires StrangeToWorker(s.fs, r, r.workers[w], n, b, s'.made)
    ensures !WorkerGood(s'.fs, s'.made, r, r.workers[w])
  {
    hide Silence;
    WorkerOf(s.fs, s.made, r, w);
    var wk := r.workers[w];
    var own := OwnChunk(r.pending[wk.pos]);
    if Leads(s.fs, own, n) {
      assert Leads(s'.fs, own, n) && s'.fs.Read(own) == b;
    }
  }

  lemma {:induction false} OthersSpoiled(s: State, s': State, p: Path, n: nat, b: Bytes, id: Option<nat>)
    requires Spoils(s, s', p, n, b) && OthersRely(s.others, n, id) && StrangeToOthers(s.others, n, b, id)
    requires forall i | i in s.others && Some(i) != id :: i in s'.others && s'.others[i] == s.others[i]
    ensures !OthersGood(s'.fs, s'.made, s'.others)
  {
    var i :| i in s.others && Some(i) != id && s.others[i].dst == n;
    assert !CopyGood(s'.fs, s'.made, s'.others[i]);
  }

  /** Nothing but worker `me` has moved. */
  predicate SamePhaseBut(phase: Phase, phase': Phase, me: Option<nat>) {
    match phase
    case Running(r) =>
      && phase'.Running? && phase'.run.mem == r.mem && phase'.run.pending == r.pending
      && |phase'.run.workers| == |r.workers|
      && (forall v | 0 <= v < |r.workers| && Some(v) != me :: phase'.run.workers[v] == r.workers[v])
    case _ => phase' == phase
  }

  lemma {:induction false} PhaseSpoiled(s: State, s': State, p: Path, n: nat, b: Bytes, me: Option<nat>)
    requires s.fs.Valid() && s'.fs.Valid() && PhaseGood(s.fs, s.made, s.phase) && s.made <= s'.made
    requires Spoils(s, s', p, n, b) && PhaseRelies(s, n, me) && SamePhaseBut(s.phase, s'.phase, me)
    requires StrangeToPhase(s, n, b, s'.made, me)
    ensures !PhaseGood(s'.fs, s'.made, s'.phase)
  {
    hide Spoils, EntriesGood, EntriesRely, WorkerRelies, StageGood, StrangeToEntries, StrangeToWorker;
    match s.phase
    case Idle =>
    case Loaded(entries, _) => EntriesSpoiled(s, s', p, n, b, entries);
    case Running(r) =>
      if EntriesRely(s.fs, r.mem, n) {
        EntriesSpoiled(s, s', p, n, b, r.mem);
      } else {
        var w :| 0 <= w < |r.workers| && Some(w) != me && WorkerRelies(s.fs, r, r.workers[w], n);
        WorkerSpoiled(s, s', p, n, b, r, w);
        WorkerElsewhere(s'.fs, s'.made, r, s'.phase.run, w);
      }
  }

  /** A worker that has not moved has what it should have in either run. */
  lemma WorkerElsewhere(fs: FileSystem, made: Audio, r: Run, r': Run, w: nat)
    requires fs.Valid() && w < |r.workers| == |r'.workers| && r'.workers[w] == r.workers[w]
    requires r'.mem == r.mem && r'.pending == r.pending
    ensures WorkersGood(fs, made, r') ==> WorkerGood(fs, made, r, r.workers[w])
  {
  }

  /** Strange bytes in an inode that somebody relies on: the invariant is gone. */
  lemma {:induction false} SpoiledIsUnsound(s: State, s': State, p: Path, n: nat, b: Bytes,
                                            me: Option<nat>, id: Option<nat>, key: Option<string>)
    requires s'.fs.Valid() && Sound(s) && Spoils(s, s', p, n, b) && Relied(s, n, me, id, key) && s.made <= s'.made
    requires Strange(s, n, b, s'.made, me, id, key)
    requires forall k | Some(k) != key && CacheLeads(s, k, n) :: !Copying(s', n, k)
    requires forall i | i in s.others && Some(i) != id :: i in s'.others && s'.others[i] == s.others[i]
    requires s'.disk == s.disk && SamePhaseBut(s.phase, s'.phase, me)
    ensures !Sound(s')
  {
    hide Spoils, CacheLeads, EntriesGood, EntriesRely, WorkerRelies, WorkerGood, OthersRely, OthersGood, Copying;
    hide StrangeToEntries, StrangeToPhase, StrangeToOthers;
    if CacheRelies(s, n, key) {
      var k :| Some(k) != key && CacheLeads(s, k, n);
      CacheSpoiled(s, s', p, n, b, k);
    } else if OthersRely(s.others, n, id) {
      OthersSpoiled(s, s', p, n, b, id);
    } else if s.disk.Some? && EntriesRely(s.fs, s.disk.value, n) {
      EntriesSpoiled(s, s', p, n, b, s.disk.value);
    } else {
      PhaseSpoiled(s, s', p, n, b, me);
    }
  }

  // --- whole bytes over half-written ones ---------------------------------------------------------

  /** No good file leads to half-written bytes. */
  lemma GoodIsNotHalf(fs: FileSystem, made: Audio, p: Path, hash: string, n: nat)
    requires fs.Valid() && Good(fs, made, p, hash) && n < |fs.inodes| && Half(fs.inodes[n], made)
    ensures !Leads(fs, p, n)
  {
    hide Silence;
  }

  lemma {:induction false} NoEntryRelies(fs: FileSystem, entries: seq<Entry>, n: nat, made: Audio)
    requires fs.Valid() && EntriesGood(fs, made, entries) && n < |fs.inodes| && Half(fs.inodes[n], made)
    ensures !EntriesRely(fs, entries, n)
  {
    hide Half, Good;
    forall i: nat | i < |entries| && entries[i].status == Done ensures !Leads(fs, OwnChunk(i), n) {
      GoodIsNotHalf(fs, made, OwnChunk(i), entries[i].hash, n);
    }
  }

  lemma {:induction false} WholeIsStrangeToWorker(fs: FileSystem, r: Run, wk: Worker, n: nat, b: Bytes, made: Audio)
    requires fs.Valid() && WorkerGood(fs, made, r, wk) && n < |fs.inodes| && Half(fs.inodes[n], made)
    requires b != fs.inodes[n]
    ensures StrangeToWorker(fs, r, wk, n, b, made)
  {
    hide Silence;
  }

  lemma {:induction false} WholeIsStrangeToPhase(s: State, n: nat, b: Bytes, me: Option<nat>)
    requires s.fs.Valid() && PhaseGood(s.fs, s.made, s.phase) && n < |s.fs.inodes|
    requires Half(s.fs.inodes[n], s.made) && b != s.fs.inodes[n]
    ensures StrangeToPhase(s, n, b, s.made, me)
  {
    hide EntriesGood, WorkerGood, StrangeToWorker, EntryRelies, Half;
    match s.phase
    case Idle =>
    case Loaded(entries, _) => NoEntryRelies(s.fs, entries, n, s.made);
    case Running(r) =>
      NoEntryRelies(s.fs, r.mem, n, s.made);
      forall w | 0 <= w < |r.workers| && Some(w) != me ensures StrangeToWorker(s.fs, r, r.workers[w], n, b, s.made) {
        WholeIsStrangeToWorker(s.fs, r, r.workers[w], n, b, s.made);
      }
  }

  /** Nobody but those who are writing there relies on half-written bytes, so any others are strange. */
  lemma {:induction false} WholeIsStrange(s: State, n: nat, b: Bytes,
                                          me: Option<nat>, id: Option<nat>, key: Option<string>)
    requires Sound(s) && n < |s.fs.inodes| && Half(s.fs.inodes[n], s.made) && b != s.fs.inodes[n]
    ensures Strange(s, n, b, s.made, me, id, key)
  {
    hide EntriesGood, EntryRelies, PhaseGood, StrangeToPhase, Good, Copying, Silence;
    if s.disk.Some? {
      NoEntryRelies(s.fs, s.disk.value, n, s.made);
    }
    WholeIsStrangeToPhase(s, n, b, me);
    forall k | Good(s.fs, s.made, CacheFile(k), k) ensures !CacheLeads(s, k, n) {
      GoodIsNotHalf(s.fs, s.made, CacheFile(k), k, n);
    }
  }

  lemma WholeIsNotHalf(b: Bytes, part: Bytes, made: Audio, hash: string)
    requires Half(part, made) && ((hash, b) in made || b == Silence(200) || b == Silence(300))
    ensures b != part
  {
    hide Silence;
  }

  // --- careless steps -----------------------------------------------------------------------------

  predicate WritesOwn(a: Act) {
    a.BeginSilence? || a.EndSilence? || a.BeginCopyHit? || a.EndCopyHit?
  }

  /** What such a step writes. */
  function OwnBytes(a: Act): Bytes
    requires WritesOwn(a)
  {
    if a.BeginSilence? || a.BeginCopyHit? then a.junk else a.result
  }

  lemma {:induction false} SilenceOverwrites(s: State, a: Act, s': State) returns (own: Path)
    requires s.fs.Valid() && Enabled(s, a) && (a.BeginSilence? || a.EndSilence?) && s' == Step(s, a)
    ensures AtWork(s, a.w) && own == OwnChunk(EntryOf(s.phase.run, s.phase.run.workers[a.w]))
    ensures s'.fs == s.fs.Overwrite(own, OwnBytes(a))
    ensures s'.phase.Running? && a.w < |s'.phase.run.workers| && !s'.phase.run.workers[a.w].CopyingOut?
  {
    hide IsValidWav, Silence;
    own := OwnChunk(EntryOf(s.phase.run, s.phase.run.workers[a.w]));
  }

  lemma {:induction false} CopyOverwrites(s: State, a: Act, s': State) returns (own: Path)
    requires s.fs.Valid() && Enabled(s, a) && (a.BeginCopyHit? || a.EndCopyHit?) && s' == Step(s, a)
    ensures AtWork(s, a.w) && own == OwnChunk(EntryOf(s.phase.run, s.phase.run.workers[a.w]))
    ensures s'.fs == s.fs.Overwrite(own, OwnBytes(a))
    ensures s'.phase.Running? && a.w < |s'.phase.run.workers| && !s'.phase.run.workers[a.w].CopyingOut?
  {
    hide IsValidWav;
    own := OwnChunk(EntryOf(s.phase.run, s.phase.run.workers[a.w]));
  }

  lemma {:induction false} ChunkMovesOne(s: State, a: Act)
    requires s.fs.Valid() && Enabled(s, a) && ChunkAct(a)
    ensures var s' := Step(s, a);
            && s.made <= s'.made && s'.others == s.others && s'.disk == s.disk && s.phase.Running?
            && a.w < |s.phase.run.workers| && SamePhaseBut(s.phase, s'.phase, Some(a.w))
  {
    hide IsValidWav, Silence, WorkerFiles, WorkerMade, Advance, Step, Enabled, WorkerEnabled;
    OwnStep(s, a);
    ActsInPlace(s, s.phase.run, a);
    MadeGrows(s, s.phase.run, a);
  }

  lemma {:induction false} MadeGrows(s: State, r: Run, a: Act)
    requires OwnAct(a) && s.fs.Valid() && WorkerEnabled(s, r, a)
    ensures s.made <= WorkerMade(s, r, a) && (!a.BeginSilence? && !a.Speak? ==> WorkerMade(s, r, a) == s.made)
  {
    hide IsValidWav, Silence;
  }

  lemma OverwriteSpoils(s: State, s': State, p: Path, b: Bytes)
    requires s.fs.Valid() && s'.fs == s.fs.Overwrite(p, b)
    ensures s'.fs.Valid() && Spoils(s, s', p, Target(s.fs, p), b)
  {
  }

  lemma WriteSpoils(s: State, s': State, p: Path, n: nat, b: Bytes)
    requires s.fs.Valid() && n < |s.fs.inodes| && s'.fs == s.fs.WriteInode(n, b)
    ensures s'.fs.Valid() && Spoils(s, s', p, n, b)
  {
  }

  lemma {:induction false} NoNewCopy(s: State, s': State, w: nat, n: nat, key: string)
    requires s.phase.Running? && SamePhaseBut(s.phase, s'.phase, Some(w)) && s'.others == s.others
    requires w < |s.phase.run.workers|
    requires s'.phase.run.workers[w].CopyingOut? ==> s'.phase.run.workers[w].copy.key != key
    ensures Copying(s', n, key) ==> Copying(s, n, key)
  {
    if v: nat :| OwnCopying(s', v, n, key) {
      assert OwnCopying(s, v, n, key);
    } else if id: nat :| ForeignCopying(s', id, n, key) {
      assert ForeignCopying(s, id, n, key);
    }
  }

  /** Writing strange bytes to the worker's own chunk file. */
  lemma {:induction false} OwnWriteBreaks(s: State, a: Act)
    requires s.fs.Valid() && Sound(s) && Enabled(s, a) && WritesOwn(a) && !OwnFileFree(s, a.w)
    requires StrangeInOwn(s, a.w, OwnBytes(a), Step(s, a).made)
    ensures !Sound(Step(s, a))
  {
    hide IsValidWav, Relied, Strange, Sound, Step, Enabled, WorkerEnabled, Spoils, Copying;
    var s' := Step(s, a);
    var own: Path;
    if a.BeginSilence? || a.EndSilence? {
      own := SilenceOverwrites(s, a, s');
    } else {
      own := CopyOverwrites(s, a, s');
    }
    ChunkMovesOne(s, a);
    OverwriteSpoils(s, s', own, OwnBytes(a));
    var n := Target(s.fs, own);
    forall k ensures Copying(s', n, k) ==> Copying(s, n, k) {
      NoNewCopy(s, s', a.w, n, k);
    }
    SpoiledIsUnsound(s, s', own, n, OwnBytes(a), Some(a.w), None, None);
  }

  lemma {:induction false} EndSilenceIsWhole(s: State, a: Act)
    requires s.fs.Valid() && Sound(s) && Enabled(s, a) && a.EndSilence? && PartsAreHalf(s)
    ensures AtWork(s, a.w)
    ensures var own := OwnChunk(EntryOf(s.phase.run, s.phase.run.workers[a.w]));
            s.fs.Exists(own) && Half(s.fs.Read(own), s.made) && a.result != s.fs.Read(own)
  {
    hide IsValidWav, Silence, CacheGood, OthersGood, EntriesGood, ResumeSafe, Parts;
    var r := s.phase.run;
    var wk := r.workers[a.w];
    WorkerOf(s.fs, s.made, r, a.w);
    PartIsHalf(s, a.w);
    WholeIsNotHalf(a.result, wk.part, s.made, "");
  }

  lemma PartIsHalf(s: State, w: nat)
    requires PartsAreHalf(s) && s.phase.Running? && w < |s.phase.run.workers| && Underway(s.phase.run.workers[w])
    ensures Half(PartOf(s.phase.run.workers[w]), s.made)
  {
    hide Half;
    assert PartOf(s.phase.run.workers[w]) in OwnParts(s.phase.run);
  }

  lemma {:induction false} EndCopyInIsWhole(s: State, a: Act)
    requires s.fs.Valid() && Sound(s) && Enabled(s, a) && a.EndCopyHit? && PartsAreHalf(s)
    ensures AtWork(s, a.w)
    ensures var own := OwnChunk(EntryOf(s.phase.run, s.phase.run.workers[a.w]));
            s.fs.Exists(own) && Half(s.fs.Read(own), s.made) && a.result != s.fs.Read(own)
  {
    hide IsValidWav, Half, CacheGood, OthersGood, EntriesGood, ResumeSafe, Parts;
    var r := s.phase.run;
    var wk := r.workers[a.w];
    WorkerOf(s.fs, s.made, r, a.w);
    PartIsHalf(s, a.w);
    WholeIsNotHalf(a.result, wk.part, s.made, HashOf(r, wk));
  }

  /** The end of a write to the worker's own chunk file. */
  lemma {:induction false} OwnEndBreaks(s: State, a: Act)
    requires s.fs.Valid() && Sound(s) && Enabled(s, a) && PartsAreHalf(s)
    requires (a.EndSilence? || a.EndCopyHit?) && !OwnFileFree(s, a.w)
    ensures !Sound(Step(s, a))
  {
    hide IsValidWav, Relied, Strange, Sound, Step, Enabled, WorkerEnabled, Half, PartsAreHalf;
    if a.EndSilence? {
      EndSilenceIsWhole(s, a);
    } else {
      EndCopyInIsWhole(s, a);
    }
    EndMakesNothing(s, a);
    var own := OwnChunk(EntryOf(s.phase.run, s.phase.run.workers[a.w]));
    WholeIsStrange(s, Target(s.fs, own), a.result, Some(a.w), None, None);
    OwnWriteBreaks(s, a);
  }

  lemma {:induction false} EndMakesNothing(s: State, a: Act)
    requires s.fs.Valid() && Enabled(s, a) && ChunkAct(a) && !a.BeginSilence? && !a.Speak?
    ensures Step(s, a).made == s.made
  {
    hide IsValidWav, WorkerFiles, WorkerMade, Advance, Step, Enabled, WorkerEnabled;
    OwnStep(s, a);
    MadeGrows(s, s.phase.run, a);
  }

  /** Opening a cache file for a copy. */
  lemma {:induction false} BeginCopyFacts(s: State, a: Act, s': State) returns (hash: string)
    requires s.fs.Valid() && Enabled(s, a) && a.BeginCopyStore? && s' == Step(s, a)
    ensures AtWork(s, a.w) && hash == HashOf(s.phase.run, s.phase.run.workers[a.w])
    ensures s.phase.run.workers[a.w].Linking? && s'.fs == s.fs.Overwrite(CacheFile(hash), a.junk)
    ensures s'.phase.Running? && a.w < |s'.phase.run.workers|
    ensures var wk := s'.phase.run.workers[a.w]; wk.CopyingOut? && wk.copy.key == hash
  {
    hide IsValidWav;
    hash := HashOf(s.phase.run, s.phase.run.workers[a.w]);
  }

  lemma {:induction false} BeginCopyBreaks(s: State, a: Act)
    requires s.fs.Valid() && Sound(s) && Enabled(s, a) && Distinct(s, a) && a.BeginCopyStore? && !Careful(s, a)
    ensures !Sound(Step(s, a))
  {
    hide IsValidWav, Relied, Strange, Sound, Step, Enabled, WorkerEnabled, Spoils, Copying, PartsAreHalf;
    var s' := Step(s, a);
    var hash := BeginCopyFacts(s, a, s');
    var n := Target(s.fs, CacheFile(hash));
    ChunkMovesOne(s, a);
    OverwriteSpoils(s, s', CacheFile(hash), a.junk);
    forall k | k != hash ensures Copying(s', n, k) ==> Copying(s, n, k) {
      NoNewCopy(s, s', a.w, n, k);
    }
    SpoiledIsUnsound(s, s', CacheFile(hash), n, a.junk, Some(a.w), None, Some(hash));
  }

  lemma {:induction false} EndCopyFacts(s: State, a: Act, s': State) returns (n: nat)
    requires s.fs.Valid() && Enabled(s, a) && a.EndCopyStore? && s' == Step(s, a)
    ensures AtWork(s, a.w) && s.phase.run.workers[a.w].CopyingOut? && n == s.phase.run.workers[a.w].copy.dst
    ensures n < |s.fs.inodes| && s'.fs == s.fs.WriteInode(n, a.result)
    ensures s'.phase.Running? && a.w < |s'.phase.run.workers| && !s'.phase.run.workers[a.w].CopyingOut?
  {
    hide IsValidWav;
    n := s.phase.run.workers[a.w].copy.dst;
  }

  lemma {:induction false} EndCopyOutIsWhole(s: State, a: Act)
    requires s.fs.Valid() && Sound(s) && Enabled(s, a) && a.EndCopyStore? && PartsAreHalf(s)
    ensures s.phase.Running? && a.w < |s.phase.run.workers| && s.phase.run.workers[a.w].CopyingOut?
    ensures var n := s.phase.run.workers[a.w].copy.dst;
            n < |s.fs.inodes| && Half(s.fs.inodes[n], s.made) && a.result != s.fs.inodes[n]
  {
    hide IsValidWav, Half, CacheGood, OthersGood, EntriesGood, ResumeSafe, Parts;
    var r := s.phase.run;
    var wk := r.workers[a.w];
    WorkerOf(s.fs, s.made, r, a.w);
    PartIsHalf(s, a.w);
    WholeIsNotHalf(a.result, wk.copy.part, s.made, HashOf(r, wk));
  }

  lemma {:induction false} EndCopyBreaks(s: State, a: Act)
    requires s.fs.Valid() && Sound(s) && Enabled(s, a) && PartsAreHalf(s) && a.EndCopyStore? && !Careful(s, a)
    ensures !Sound(Step(s, a))
  {
    hide IsValidWav, Relied, Strange, Sound, Step, Enabled, WorkerEnabled, Spoils, Copying, Half, PartsAreHalf;
    var s' := Step(s, a);
    var n := EndCopyFacts(s, a, s');
    EndCopyOutIsWhole(s, a);
    EndMakesNothing(s, a);
    WholeIsStrange(s, n, a.result, Some(a.w), None, None);
    ChunkMovesOne(s, a);
    WriteSpoils(s, s', ELSEWHERE, n, a.result);
    forall k ensures Copying(s', n, k) ==> Copying(s, n, k) {
      NoNewCopy(s, s', a.w, n, k);
    }
    SpoiledIsUnsound(s, s', ELSEWHERE, n, a.result, Some(a.w), None, None);
  }

  /** Writes of other jobs. */
  lemma {:induction false} ForeignBreaks(s: State, a: Act)
    requires s.fs.Valid() && Sound(s) && Enabled(s, a) && Distinct(s, a) && !Careful(s, a)
    requires a.ForeignSilence? || a.ForeignBeginCopy?
    ensures !Sound(Step(s, a))
  {
    hide IsValidWav, Relied, Strange, Sound, WorkerEnabled, Spoils, Copying, PartsAreHalf;
    var s' := Step(s, a);
    match a
    case ForeignSilence(p, bytes) =>
      OverwriteSpoils(s, s', p, bytes);
      ForeignSpoils(s, s', p, Target(s.fs, p), bytes, None, None);
    case ForeignBeginCopy(_, _, key, junk) =>
      OverwriteSpoils(s, s', CacheFile(key), junk);
      ForeignSpoils(s, s', CacheFile(key), Target(s.fs, CacheFile(key)), junk, None, Some(key));
  }

  lemma {:induction false} ForeignEndBreaks(s: State, a: Act)
    requires s.fs.Valid() && Sound(s) && Enabled(s, a) && PartsAreHalf(s) && a.ForeignEndCopy? && !Careful(s, a)
    ensures !Sound(Step(s, a))
  {
    hide IsValidWav, Relied, Strange, WorkerEnabled, Spoils, Copying, Half, CacheGood, PhaseGood, ResumeSafe;
    var s', c := Step(s, a), s.others[a.id];
    assert c.part in Parts(s);
    WholeIsNotHalf(a.result, c.part, s.made, c.key);
    WholeIsStrange(s, c.dst, a.result, None, Some(a.id), None);
    WriteSpoils(s, s', ELSEWHERE, c.dst, a.result);
    ForeignSpoils(s, s', ELSEWHERE, c.dst, a.result, Some(a.id), None);
  }

  lemma {:induction false} ForeignSpoils(s: State, s': State, p: Path, n: nat, b: Bytes,
                                         id: Option<nat>, key: Option<string>)
    requires s'.fs.Valid() && Sound(s) && Spoils(s, s', p, n, b) && Relied(s, n, None, id, key) && s.made <= s'.made
    requires Strange(s, n, b, s'.made, None, id, key)
    requires s'.disk == s.disk && s'.phase == s.phase
    requires forall i | i in s.others && Some(i) != id :: i in s'.others && s'.others[i] == s.others[i]
    requires forall i | i in s'.others && i !in s.others :: Some(s'.others[i].key) == key
    requires forall i | i in s'.others && i in s.others :: s'.others[i] == s.others[i]
    ensures !Sound(s')
  {
    hide Sound, Spoils, Relied, Strange, CacheLeads;
    forall k | Some(k) != key && CacheLeads(s, k, n) ensures !Copying(s', n, k) {
      ForeignNoNewCopy(s, s', n, k);
    }
    SpoiledIsUnsound(s, s', p, n, b, None, id, key);
  }

  lemma {:induction false} ForeignNoNewCopy(s: State, s': State, n: nat, key: string)
    requires s'.phase == s.phase && CacheLeads(s, key, n)
    requires forall i | i in s'.others && i !in s.others :: s'.others[i].key != key
    requires forall i | i in s'.others && i in s.others :: s'.others[i] == s.others[i]
    ensures !Copying(s', n, key)
  {
    if v: nat :| OwnCopying(s', v, n, key) {
      assert OwnCopying(s, v, n, key);
    } else if id: nat :| ForeignCopying(s', id, n, key) {
      assert ForeignCopying(s, id, n, key);
    }
  }

  // --- half-copied files taken and left ----------------------------------------------------------

  /** What a copy under way has under its key is not audio. */
  lemma {:induction false} HalfCopyIsBad(s: State, n: nat, key: string)
    requires s.fs.Valid() && OthersGood(s.fs, s.made, s.others) && PhaseGood(s.fs, s.made, s.phase)
    requires Copying(s, n, key) && PartsAreHalf(s)
    ensures n < |s.fs.inodes| && Half(s.fs.inodes[n], s.made)
  {
    hide EntriesGood, Good, Half, Silence;
    if id: nat :| ForeignCopying(s, id, n, key) {
      assert s.others[id].part in Parts(s);
    } else {
      var w: nat :| OwnCopying(s, w, n, key);
      WorkerOf(s.fs, s.made, s.phase.run, w);
      PartIsHalf(s, w);
    }
  }

  lemma {:induction false} HitFacts(s: State, a: Act, s': State) returns (own: Path, cached: Path)
    requires s.fs.Valid() && Enabled(s, a) && (a.LinkHit? || a.BeginCopyHit?) && s' == Step(s, a)
    ensures AtWork(s, a.w) && own == OwnChunk(EntryOf(s.phase.run, s.phase.run.workers[a.w]))
    ensures cached == CacheFile(HashOf(s.phase.run, s.phase.run.workers[a.w])) && s.fs.Exists(cached) && s'.fs.Valid()
    ensures a.LinkHit? ==> s'.fs == s.fs.Link(cached, own)
    ensures SamePhaseBut(s.phase, s'.phase, Some(a.w)) && s'.made == s.made
    ensures var wk, pos := s'.phase.run.workers[a.w], s.phase.run.workers[a.w].pos;
            if a.LinkHit? then wk == Finished(pos, Done)
            else wk == CopyingIn(pos, s.fs.Read(cached), s.fs.dir[cached], a.junk)
  {
    hide IsValidWav;
    own := OwnChunk(EntryOf(s.phase.run, s.phase.run.workers[a.w]));
    cached := CacheFile(HashOf(s.phase.run, s.phase.run.workers[a.w]));
  }

  lemma {:induction false} HitBreaks(s: State, a: Act)
    requires s.fs.Valid() && Sound(s) && Enabled(s, a) && PartsAreHalf(s) && (a.LinkHit? || a.BeginCopyHit?)
    requires HalfCopied(s, a.w)
    ensures !Sound(Step(s, a))
  {
    hide IsValidWav, Step, Enabled, WorkerEnabled, Copying, Half, Parts, CacheGood, OthersGood, EntriesGood;
    var s' := Step(s, a);
    var own, cached := HitFacts(s, a, s');
    HalfCopyIsBad(s, s.fs.dir[cached], cached.key);
    HalfIsNotMade(s.fs.Read(cached), s'.made, cached.key);
    var r, r' := s.phase.run, s'.phase.run;
    assert !WorkerGood(s'.fs, s'.made, r', r'.workers[a.w]);
  }

  lemma HalfIsNotMade(b: Bytes, made: Audio, hash: string)
    requires Half(b, made)
    ensures (hash, b) !in made
  {
  }

  /** A half-done copy left in the cache. */
  lemma {:induction false} LeftIsUnsound(s: State, s': State, key: string, n: nat)
    requires s.fs.Valid() && Sound(s) && s'.fs == s.fs && s'.made == s.made && Leads(s.fs, CacheFile(key), n)
    requires PartsAreHalf(s) && Copying(s, n, key) && !Copying(s', n, key)
    ensures !Sound(s')
  {
    hide Copying, Half, Parts, OthersGood, PhaseGood;
    HalfCopyIsBad(s, n, key);
    HalfIsNotMade(s.fs.inodes[n], s'.made, key);
  }

  lemma {:induction false} LeaveBreaks(s: State, a: Act)
    requires s.fs.Valid() && Sound(s) && Enabled(s, a) && PartsAreHalf(s) && !Careful(s, a)
    requires a.Crash? || a.ForeignLeave?
    ensures !Sound(Step(s, a))
  {
    hide IsValidWav, Sound, WorkerEnabled, Half, Parts, Leads;
    var s' := Step(s, a);
    match a
    case Crash =>
      var key, n: nat :| NewlyLeft(s, key, n);
      forall i: nat ensures !ForeignCopying(s', i, n, key) {
        assert ForeignCopying(s', i, n, key) == ForeignCopying(s, i, n, key);
      }
      LeftIsUnsound(s, s', key, n);
    case ForeignLeave(id) =>
      var c := s.others[id];
      assert ForeignCopying(s, id, c.dst, c.key);
      forall v: nat ensures !OwnCopying(s', v, c.dst, c.key) {
        assert OwnCopying(s', v, c.dst, c.key) == OwnCopying(s, v, c.dst, c.key);
      }
      forall i: nat ensures !ForeignCopying(s', i, c.dst, c.key) {
        assert i in s'.others ==> ForeignCopying(s', i, c.dst, c.key) == ForeignCopying(s, i, c.dst, c.key);
      }
      LeftIsUnsound(s, s', c.key, c.dst);
  }

  lemma {:induction false} RaiseFacts(s: State, a: Act, s': State)
    requires s.fs.Valid() && Enabled(s, a) && a.Raise? && s' == Step(s, a)
    ensures s'.fs == s.fs && s'.made == s.made && s'.others == s.others
    ensures s.phase.Running? && a.w < |s.phase.run.workers|
    ensures s'.phase.Running? && s'.phase.run.workers == s.phase.run.workers[a.w := s'.phase.run.workers[a.w]]
    ensures !s'.phase.run.workers[a.w].CopyingOut?
  {
    hide IsValidWav;
  }

  lemma {:induction false} RaiseBreaks(s: State, a: Act)
    requires s.fs.Valid() && Sound(s) && Enabled(s, a) && PartsAreHalf(s) && !Careful(s, a) && a.Raise?
    ensures !Sound(Step(s, a))
  {
    hide IsValidWav, Sound, Step, Enabled, WorkerEnabled, Half, Parts, Leads;
    var s' := Step(s, a);
    RaiseFacts(s, a, s');
    var c := s.phase.run.workers[a.w].copy;
    CopyKeyIs(s, a.w);
    assert OwnCopying(s, a.w, c.dst, c.key);
    forall v: nat ensures !OwnCopying(s', v, c.dst, c.key) {
      assert v != a.w ==> OwnCopying(s', v, c.dst, c.key) == OwnCopying(s, v, c.dst, c.key);
    }
    forall i: nat ensures !ForeignCopying(s', i, c.dst, c.key) {
      assert ForeignCopying(s', i, c.dst, c.key) == ForeignCopying(s, i, c.dst, c.key);
    }
    LeftIsUnsound(s, s', c.key, c.dst);
  }

  lemma CopyKeyIs(s: State, w: nat)
    requires s.phase.Running? && w < |s.phase.run.workers| && s.phase.run.workers[w].CopyingOut?
    ensures var c := s.phase.run.workers[w].copy; OwnCopying(s, w, c.dst, c.key)
  {
  }

  // --- exactly the careful steps --------------------------------------------------------------

  lemma {:induction false} BeginOwnBreaks(s: State, a: Act)
    requires s.fs.Valid() && Sound(s) && Enabled(s, a) && Distinct(s, a)
    requires (a.BeginSilence? || a.BeginCopyHit?) && !OwnFileFree(s, a.w)
    ensures !Sound(Step(s, a))
  {
    hide IsValidWav, StrangeInOwn, Sound, Step, Enabled, WorkerEnabled, OwnFileFree, PartsAreHalf;
    OwnWriteBreaks(s, a);
  }

  lemma {:induction false} DistinctIsHalf(s: State, a: Act)
    requires s.fs.Valid() && Enabled(s, a) && Distinct(s, a)
    ensures PartsAreHalf(s)
  {
    hide PartsAreHalf, Strange, StrangeInOwn, Step, Enabled;
  }

  /** The steps that can be careless, case by case. */
  lemma {:induction false} CarelessCases(s: State, a: Act)
    requires s.fs.Valid() && Enabled(s, a) && !Careful(s, a)
    ensures || (WritesOwn(a) && !OwnFileFree(s, a.w))
            || ((a.LinkHit? || a.BeginCopyHit?) && HalfCopied(s, a.w))
            || a.BeginCopyStore? || a.EndCopyStore? || a.Raise? || a.Crash? || a.ForeignLeave?
            || a.ForeignSilence? || a.ForeignBeginCopy? || a.ForeignEndCopy?
  {
    hide Enabled, OwnFileFree, HalfCopied, Relied, LeftBehind;
  }

  /** When half-written bytes are told from whole ones, a step keeps the invariant behind the promise if and
      only if it is careful: it writes nothing in place that a cache file, an entry done on disk or in memory,
      a worker with its audio or another write under way relies on; it takes no half-copied file from the
      cache; and it leaves none there. */
  lemma {:induction false} StepIsSoundIff(s: State, a: Act)
    requires s.fs.Valid() && Sound(s) && Consistent(s) && Enabled(s, a) && Distinct(s, a)
    ensures Sound(Step(s, a)) <==> Careful(s, a)
  {
    hide Sound, Consistent, Enabled, Distinct, Careful, Step, OwnFileFree, HalfCopied, PartsAreHalf;
    DistinctIsHalf(s, a);
    if Careful(s, a) {
      StepIsSound(s, a);
    } else {
      CarelessCases(s, a);
      if WritesOwn(a) && !OwnFileFree(s, a.w) {
        if a.EndSilence? || a.EndCopyHit? {
          OwnEndBreaks(s, a);
        } else {
          BeginOwnBreaks(s, a);
        }
      } else if a.LinkHit? || a.BeginCopyHit? {
        HitBreaks(s, a);
      } else if a.BeginCopyStore? {
        BeginCopyBreaks(s, a);
      } else if a.EndCopyStore? {
        EndCopyBreaks(s, a);
      } else if a.Raise? {
        RaiseBreaks(s, a);
      } else if a.Crash? || a.ForeignLeave? {
        LeaveBreaks(s, a);
      } else if a.ForeignEndCopy? {
        ForeignEndBreaks(s, a);
      } else {
        ForeignBreaks(s, a);
      }
    }
  }

  /** The end of a write needs less: that what the writes under way have written so far is no whole audio. */
  lemma {:induction false} EndIsSoundIff(s: State, a: Act)
    requires s.fs.Valid() && Sound(s) && Consistent(s) && Enabled(s, a) && PartsAreHalf(s)
    requires a.EndSilence? || a.EndCopyHit? || a.EndCopyStore? || a.ForeignEndCopy?
    ensures Sound(Step(s, a)) <==> Careful(s, a)
  {
    hide Sound, Consistent, Enabled, Careful, Step, PartsAreHalf, Strange, StrangeInOwn;
    StepIsSoundIff(s, a);
  }

  ghost predicate DistinctRun(start: State, acts: seq<Act>)
    requires start.fs.Valid() && LegalRun(start, acts)
  {
    acts == [] ||
    (DistinctRun(start, acts[..|acts| - 1]) && Distinct(After(start, acts[..|acts| - 1]), acts[|acts| - 1]))
  }

  /** The invariant holds after every step of the run. */
  ghost predicate SoundThroughout(start: State, acts: seq<Act>)
    requires start.fs.Valid() && LegalRun(start, acts)
  {
    Sound(After(start, acts)) && (acts != [] ==> SoundThroughout(start, acts[..|acts| - 1]))
  }

  /** So a whole run keeps the invariant throughout if and only if all its steps are careful. */
  lemma {:induction false} RunIsSoundIff(start: State, acts: seq<Act>)
    requires Blank(start) && LegalRun(start, acts) && DistinctRun(start, acts)
    ensures CarefulRun(start, acts) <==> SoundThroughout(start, acts)
    decreases |acts|
  {
    hide Step, Enabled, Careful, Sound, Distinct;
    if acts == [] {
      BlankIsSound(start);
    } else {
      var before := acts[..|acts| - 1];
      RunIsSoundIff(start, before);
      RunIsConsistent(start, before);
      if SoundThroughout(start, before) {
        StepIsSoundIff(After(start, before), acts[|acts| - 1]);
      }
    }
  }

  // --- placeholders over files nobody else has ------------------------------------------------------

  /** The file that a placeholder is written to. */
  function SilencePath(s: State, a: Act): Path
    requires s.fs.Valid() && Enabled(s, a) && WritesSilence(a)
  {
    if a.ForeignSilence? then a.p else OwnChunk(EntryOf(s.phase.run, s.phase.run.workers[a.w]))
  }

  /** No copy is under way. */
  predicate NoCopies(s: State) {
    s.others == map[] &&
    (s.phase.Running? ==> forall w | 0 <= w < |s.phase.run.workers| :: Plain(s.phase.run.workers[w]))
  }

  predicate Plain(wk: Worker) {
    !wk.CopyingIn? && !wk.CopyingOut?
  }

  /** While links serve, a placeholder over a file that shares its inode with no other is always careful. */
  lemma {:induction false} UnsharedIsCareful(s: State, a: Act)
    requires s.fs.Valid() && Sound(s) && Consistent(s) && Enabled(s, a) && WritesSilence(a)
    requires !s.fs.Shared(SilencePath(s, a)) && NoCopies(s)
    ensures Careful(s, a)
  {
    hide IsValidWav, Sound, Relied, Consistent, WorkerEnabled;
    var p := SilencePath(s, a);
    var me := if a.ForeignSilence? then None else Some(a.w);
    if me.Some? {
      ChunkUnmarked(s, s.phase.run, a);
    }
    if !s.fs.Exists(p) {
      NobodyReliesOnNew(s, me, None, None);
    } else {
      UnsharedIsFree(s, p, s.fs.dir[p], me);
    }
  }

  lemma {:induction false} UnsharedIsFree(s: State, p: Path, n: nat, me: Option<nat>)
    requires s.fs.Valid() && Sound(s) && Consistent(s) && Leads(s.fs, p, n) && !s.fs.Shared(p) && NoCopies(s)
    requires p.ChunkFile? && (me == None ==> p.job != JOB)
    requires me.Some? ==> AtWork(s, me.value) && Unmarked(s.phase.run.workers[me.value]) &&
                          p == OwnChunk(EntryOf(s.phase.run, s.phase.run.workers[me.value]))
    ensures !Relied(s, n, me, None, None)
  {
    hide CacheGood, OthersGood, PhaseGood, ResumeSafe, Copying, Images, Log, Seats;
    forall q | Leads(s.fs, q, n) ensures q == p {
    }
    assert !CacheRelies(s, n, None);
    if s.phase.Running? && me.Some? {
      MyEntryIsNotDone(s, me.value);
    }
    assert s.disk.Some? ==> !EntriesRely(s.fs, s.disk.value, n) by {
      if s.disk.Some? && s.phase.Running? && me.Some? {
        RunIsControlled(s);
      }
    }
    assert !PhaseRelies(s, n, me);
  }

  lemma {:induction false} MyEntryIsNotDone(s: State, w: nat)
    requires Consistent(s) && AtWork(s, w) && Unmarked(s.phase.run.workers[w])
    ensures var r := s.phase.run; r.mem[EntryOf(r, r.workers[w])].status == Pending
    ensures var r := s.phase.run;
            forall v | 0 <= v < |r.workers| && v != w && Owner(r.workers[v]) && r.workers[v].pos < |r.pending| ::
              r.pending[r.workers[v].pos] != EntryOf(r, r.workers[w])
  {
    hide Images, Log, Seats;
    var r := s.phase.run;
    assert Mirrored(r, w) && StatusAt(r.mem, r.pending, r.workers[w].pos) == Pending;
  }

  // --- whole runs over such files ---------------------------------------------------------------------

  predicate BeginsCopy(a: Act) {
    a.BeginCopyHit? || a.BeginCopyStore? || a.ForeignBeginCopy?
  }

  /** Links serve, and a placeholder is written over no path that shares its inode. */
  predicate Unshared(s: State, a: Act)
    requires s.fs.Valid() && Enabled(s, a)
  {
    !BeginsCopy(a) && (WritesSilence(a) ==> !s.fs.Shared(SilencePath(s, a)))
  }

  predicate UnsharedRun(start: State, acts: seq<Act>)
    requires start.fs.Valid() && LegalRun(start, acts)
  {
    acts == [] ||
    (UnsharedRun(start, acts[..|acts| - 1]) && Unshared(After(start, acts[..|acts| - 1]), acts[|acts| - 1]))
  }

  lemma {:induction false} ChunkGoesPlain(s: State, r: Run, a: Act, w: nat) returns (wk: Worker)
    requires OwnAct(a) && ChunkAct(a) && !BeginsCopy(a) && a.w == w && w < |r.workers|
    requires s.fs.Valid() && WorkerEnabled(s, r, a)
    ensures Plain(wk) && WorkerStep(s, r, a).workers == r.workers[w := wk]
  {
    hide IsValidWav, CanCopy, Placeholder;
    wk := Advance(s, r, a);
  }

  lemma {:induction false} LoopGoesPlain(s: State, r: Run, a: Act, w: nat) returns (wk: Worker)
    requires OwnAct(a) && LoopAct(a) && a.w == w && w < |r.workers|
    requires s.fs.Valid() && WorkerEnabled(s, r, a)
    ensures Plain(wk) && WorkerStep(s, r, a).workers == r.workers[w := wk]
  {
    hide WorkerEnabled, WorkerStep;
    LoopIsIdle(s, r, a);
    LoopShape(s, r, a);
    wk := WorkerStep(s, r, a).workers[a.w];
  }

  lemma {:induction false} OwnKeepsPlain(s: State, a: Act)
    requires s.fs.Valid() && Enabled(s, a) && OwnAct(a) && NoCopies(s) && !BeginsCopy(a)
    ensures NoCopies(Step(s, a))
  {
    hide WorkerEnabled, WorkerFiles, WorkerMade, WorkerStep, Advance, Step, Enabled, BeginsCopy, Plain;
    OwnStep(s, a);
    var r := s.phase.run;
    ActsInPlace(s, r, a);
    var wk: Worker;
    if ChunkAct(a) {
      wk := ChunkGoesPlain(s, r, a, a.w);
    } else {
      wk := LoopGoesPlain(s, r, a, a.w);
    }
  }

  lemma {:induction false} NoCopyBegins(s: State, a: Act)
    requires s.fs.Valid() && Enabled(s, a) && NoCopies(s) && !BeginsCopy(a)
    ensures NoCopies(Step(s, a))
  {
    if OwnAct(a) {
      hide Step, Enabled;
      OwnKeepsPlain(s, a);
    } else {
      hide Reload, PendingOf, IsValidWav, WorkerEnabled;
    }
  }

  lemma {:induction false} PlainIsCareful(s: State, a: Act)
    requires s.fs.Valid() && Enabled(s, a) && NoCopies(s) && !BeginsCopy(a) && !WritesSilence(a)
    ensures Careful(s, a)
  {
    hide Relied, IsValidWav;
    forall n: nat, key ensures !Copying(s, n, key) {
      assert forall w: nat :: !OwnCopying(s, w, n, key);
    }
  }

  /** Without copies, and with every placeholder over an unshared path, every run is careful: what the manifest
      on disk calls done is done. */
  lemma {:induction false} UnsharedRunIsSafe(start: State, acts: seq<Act>)
    requires Blank(start) && LegalRun(start, acts) && UnsharedRun(start, acts)
    ensures CarefulRun(start, acts) && Sound(After(start, acts)) && NoCopies(After(start, acts))
    decreases |acts|
  {
    hide Step, Enabled, Careful, Sound, NoCopies;
    if acts == [] {
      BlankIsSound(start);
      assert NoCopies(start) by { BlankIsPlain(start); }
    } else {
      var s, a := After(start, acts[..|acts| - 1]), acts[|acts| - 1];
      UnsharedRunIsSafe(start, acts[..|acts| - 1]);
      RunIsConsistent(start, acts[..|acts| - 1]);
      if WritesSilence(a) {
        UnsharedIsCareful(s, a);
      } else {
        PlainIsCareful(s, a);
      }
      StepIsSound(s, a);
      NoCopyBegins(s, a);
    }
  }

  lemma BlankIsPlain(s: State)
    requires Blank(s)
    ensures NoCopies(s)
  {
  }

  // --- what another job does undisturbed -----------------------------------------------------------

  /** A chunk that another job writes anew is its own: placeholders over it reach nobody else. */
  lemma {:induction false} WrittenAnewIsOwn(s: State, p: Path, bytes: Bytes, silence: Bytes)
    requires s.fs.Valid() && Foreign(p)
    ensures LegalRun(s, [ForeignFill(p, bytes), ForeignSilence(p, silence)])
    ensures var fs' := After(s, [ForeignFill(p, bytes), ForeignSilence(p, silence)]).fs;
            && fs'.Exists(p) && fs'.Read(p) == silence
            && forall q | q != p :: (fs'.Exists(q) <==> s.fs.Exists(q)) &&
                                    (s.fs.Exists(q) ==> fs'.Read(q) == s.fs.Read(q))
  {
    hide IsValidWav, WorkerEnabled, WorkerStep, WorkerFiles, WorkerMade, Reload, Opened;
    var fill, cover := ForeignFill(p, bytes), ForeignSilence(p, silence);
    TwoSteps(s, fill, cover);
  }

  /** Its copy into the cache, undisturbed, puts its audio there and leaves every file that the cache did not have
      under the key as it was. */
  lemma {:induction false} CopyCompletes(s: State, id: nat, p: Path, key: string, junk: Bytes)
    requires s.fs.Valid() && Enabled(s, ForeignBeginCopy(id, p, key, junk))
    ensures var acts := [ForeignBeginCopy(id, p, key, junk), ForeignEndCopy(id, s.fs.Read(p))];
            && LegalRun(s, acts) && After(s, acts).others == s.others
            && var fs' := After(s, acts).fs;
               && fs'.Exists(CacheFile(key)) && fs'.Read(CacheFile(key)) == s.fs.Read(p)
               && forall q | s.fs.Exists(q) &&
                             (s.fs.Exists(CacheFile(key)) ==> s.fs.dir[q] != s.fs.dir[CacheFile(key)]) ::
                    fs'.Exists(q) && fs'.Read(q) == s.fs.Read(q)
  {
    var begin, end := ForeignBeginCopy(id, p, key, junk), ForeignEndCopy(id, s.fs.Read(p));
    CopyBegins(s, id, p, key, junk);
    var s1 := Step(s, begin);
    CopyEnds(s1, id, s.fs.Read(p));
    CopyLeaves(s.fs, p, key, junk);
    hide Step, Enabled, LegalRun, After, NewCopy, FileSystem.Overwrite, FileSystem.WriteInode;
    TwoSteps(s, begin, end);
    assert s1.others - {id} == s.others;
  }

  lemma CopyBegins(s: State, id: nat, p: Path, key: string, junk: Bytes)
    requires s.fs.Valid() && Enabled(s, ForeignBeginCopy(id, p, key, junk))
    ensures Foreign(p) && CanCopy(s.fs, p, CacheFile(key)) && id !in s.others
    ensures Step(s, ForeignBeginCopy(id, p, key, junk)) ==
            s.(fs := s.fs.Overwrite(CacheFile(key), junk), others := s.others[id := NewCopy(s.fs, p, key, junk)])
  {
    hide WorkerEnabled, WorkerStep, WorkerFiles, WorkerMade, Reload, Opened;
  }

  lemma CopyLeaves(fs: FileSystem, p: Path, key: string, junk: Bytes)
    requires fs.Valid() && CanCopy(fs, p, CacheFile(key)) && p.ChunkFile?
    ensures var copy, fs1 := NewCopy(fs, p, key, junk), fs.Overwrite(CacheFile(key), junk);
            && copy.audio == fs.Read(p) && fs1.Valid() && copy.dst < |fs1.inodes|
            && var fs' := fs1.WriteInode(copy.dst, fs.Read(p));
               && fs'.Valid() && fs'.Exists(CacheFile(key)) && fs'.Read(CacheFile(key)) == fs.Read(p)
               && forall q | fs.Exists(q) && (fs.Exists(CacheFile(key)) ==> fs.dir[q] != fs.dir[CacheFile(key)]) ::
                    fs'.Exists(q) && fs'.Read(q) == fs.Read(q)
  {
  }

  lemma CopyEnds(s: State, id: nat, audio: Bytes)
    requires s.fs.Valid() && id in s.others && s.others[id].audio == audio && s.others[id].dst < |s.fs.inodes|
    ensures Enabled(s, ForeignEndCopy(id, audio))
    ensures Step(s, ForeignEndCopy(id, audio)) ==
            s.(fs := s.fs.WriteInode(s.others[id].dst, audio), others := s.others - {id})
  {
    hide WorkerEnabled, WorkerStep, WorkerFiles, WorkerMade, Reload, Opened;
  }
}
