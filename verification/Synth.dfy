/** Resumable, concurrent synthesis (`src/narrator/pipeline/synth.py`) as a state machine.

    One job runs at a time over its own chunk files, with any number of worker loops; other jobs share
    the cache. A step is what happens between two points at which the process can be interrupted or
    another coroutine can run, and a crash can come at any of them. */
module Synth {
  import opened Wrappers
  import opened Files

  const JOB: nat := 0
  const MAX_CHUNK_ATTEMPTS: nat := 6

  datatype Status = Pending | Done | Failed
  datatype Entry = Entry(hash: string, status: Status)

  /** A copy into the cache under way, in place: `dst` is the inode it writes, which holds `part` as long as
      nobody else writes there, and `audio` is what it is to hold in the end. */
  datatype Copy = Copy(key: string, dst: nat, audio: Bytes, part: Bytes)

  /** Where a worker loop stands. `pos` is the place of its entry in the list of pending entries, `part` what
      its chunk file holds while it is written in place and nobody else writes there. */
  datatype Worker =
    | Waiting                                                   // wants the dispatch lock
    | Checking(pos: nat)                                        // holds it, has taken an entry
    | Yielding(pos: nat)                                        // holds it, waits for the fast lane to be empty
    | Cleared(pos: nat)                                         // holds it, is about to let it go and start the chunk
    | Working(pos: nat, tries: nat)                             // nothing written yet
    | Silencing(pos: nat, status: Status, part: Bytes)          // a placeholder is being written in place
    | Fetching(pos: nat)                                        // cache hit: the chunk file there was has been unlinked
    | CopyingIn(pos: nat, audio: Bytes, src: nat, part: Bytes)  // linking failed: copying what inode `src` held
    | Speaking(pos: nat, audio: Bytes, plain: bool)             // the engine has answered
    | Persisted(pos: nat, plain: bool)                          // the chunk file holds the answer
    | Storing(pos: nat)                                         // the cache was found to lack it
    | Linking(pos: nat)                                         // what the cache had under the key has been unlinked
    | CopyingOut(pos: nat, copy: Copy)                          // linking failed: copying into the cache
    | Finished(pos: nat, status: Status)                        // the files are in place, the entry is not marked
    | Marked(pos: nat)                                          // the entry is marked, wants the manifest lock
    | Saving(pos: nat, snap: seq<Entry>)                        // holds it, has serialised the manifest
    | Publishing(pos: nat)                                      // holds it, has replaced the manifest on disk
    | Dead(pos: nat)                                            // raised
    | Stopped                                                   // returned

  datatype Run = Run(
    loaded: seq<Entry>,          // the manifest as the run started with it
    mem: seq<Entry>,             // the manifest in memory
    pending: seq<nat>,           // the entries to synthesise
    next: nat,                   // how many the shared iterator has handed out
    workers: seq<Worker>,
    dispatcher: Option<nat>,     // who holds the dispatch lock
    saver: Option<nat>,          // who holds the manifest lock
    cancelled: bool,
    started: seq<nat>,           // the positions started, in order
    engine: set<nat>)            // the entries for which the engine was called

  datatype Phase = Idle | Loaded(entries: seq<Entry>, n: nat) | Running(run: Run)

  /** `made` holds what was produced for a hash: engine audio, or the placeholder of a skipped chunk. */
  datatype State = State(
    fs: FileSystem, disk: Option<seq<Entry>>, made: set<(string, Bytes)>, phase: Phase,
    bulk: bool, cancelFlag: bool, fastPending: int,
    others: map<nat, Copy>)      // the copies into the cache that other jobs have under way

  // --- wav placeholders ------------------------------------------------------------

  /** The tags, the length and the silent samples of `write_silence_wav` at 24 kHz. */
  function Silence(ms: nat): Bytes {
    RIFF + seq(4, i => 0 as byte) + WAVE + seq(32 + 48 * ms, i => 0 as byte)
  }

  /** The placeholder of a chunk that is skipped, and of one that failed. */
  function Placeholder(status: Status): Bytes {
    Silence(if status == Done then 200 else 300)
  }

  // --- load_or_create_manifest ---------------------------------------------------------

  function OwnChunk(i: nat): Path {
    ChunkFile(JOB, i)
  }

  predicate Reusable(fs: FileSystem, prev: seq<Entry>, i: nat, hash: string)
    requires fs.Valid()
  {
    i < |prev| && prev[i].hash == hash && prev[i].status == Done &&
    fs.Exists(OwnChunk(i)) && IsValidWav(fs.Read(OwnChunk(i)))
  }

  function Reload(fs: FileSystem, prev: seq<Entry>, hashes: seq<string>): (entries: seq<Entry>)
    requires fs.Valid()
    ensures |entries| == |hashes|
    ensures forall i: nat | i < |hashes| ::
              && entries[i].hash == hashes[i] && entries[i].status != Failed
              && (entries[i].status == Done <==> Reusable(fs, prev, i, hashes[i]))
  {
    seq(|hashes|, i requires 0 <= i < |hashes| =>
      if Reusable(fs, prev, i, hashes[i]) then prev[i] else Entry(hashes[i], Pending))
  }

  method LoadOrCreateManifest(fs: FileSystem, disk: Option<seq<Entry>>, readable: bool, hashes: seq<string>)
    returns (entries: seq<Entry>)
    requires fs.Valid()
    ensures entries == Reload(fs, if disk.Some? && readable then disk.value else [], hashes)
  {
    var prev := if disk.Some? && readable then disk.value else [];
    entries := [];
    for i := 0 to |hashes|
      invariant entries == Reload(fs, prev, hashes)[..i]
    {
      if Reusable(fs, prev, i, hashes[i]) {
        entries := entries + [prev[i]];
      } else {
        entries := entries + [Entry(hashes[i], Pending)];
      }
    }
  }

  /** The entries that are not done, in order. */
  function PendingOf(entries: seq<Entry>): seq<nat> {
    if entries == [] then []
    else
      var n := |entries| - 1;
      PendingOf(entries[..n]) + if entries[n].status == Done then [] else [n]
  }

  // --- steps ----------------------------------------------------------------------------

  datatype Act =
    // the run
    | Load(hashes: seq<string>, readable: bool, n: nat)
    | Open
    | End
    | Abort
    | Crash
    // worker_loop
    | Acquire(w: nat)
    | CheckCancel(w: nat)
    | Poll(w: nat)
    | Start(w: nat)
    | Mark(w: nat)
    | Snapshot(w: nat)
    | Write(w: nat)
    | Release(w: nat)
    | Raise(w: nat)
    // _synth_one
    | BeginSilence(w: nat, status: Status, junk: Bytes)
    | EndSilence(w: nat, result: Bytes)
    | DropForHit(w: nat)
    | LinkHit(w: nat)
    | BeginCopyHit(w: nat, junk: Bytes)
    | EndCopyHit(w: nat, result: Bytes)
    | Retry(w: nat)
    | Speak(w: nat, audio: Bytes, plain: bool)
    | Persist(w: nat)
    | LookUp(w: nat)
    | ClearCache(w: nat)
    | LinkStore(w: nat)
    | BeginCopyStore(w: nat, junk: Bytes)
    | EndCopyStore(w: nat, result: Bytes)
    // the rest of the system
    | SetCancel
    | ClearCancel
    | FastEnter
    | FastExit
    | Evict(key: string)
    | ForeignPersist(p: Path, key: string, audio: Bytes)
    | ForeignPut(p: Path, key: string)
    | ForeignBeginCopy(id: nat, p: Path, key: string, junk: Bytes)
    | ForeignEndCopy(id: nat, result: Bytes)
    | ForeignLeave(id: nat)
    | ForeignGet(key: string, p: Path)
    | ForeignFill(p: Path, bytes: Bytes)
    | ForeignSilence(p: Path, bytes: Bytes)

  /** Steps of `worker_loop`. */
  predicate LoopAct(a: Act) {
    a.Acquire? || a.CheckCancel? || a.Poll? || a.Start? || a.Mark? || a.Snapshot? || a.Write? || a.Release? || a.Raise?
  }

  /** Steps of `_synth_one`. */
  predicate ChunkAct(a: Act) {
    a.BeginSilence? || a.EndSilence? || a.DropForHit? || a.LinkHit? || a.BeginCopyHit? || a.EndCopyHit? ||
    a.Retry? || a.Speak? || a.Persist? || a.LookUp? || a.ClearCache? || a.LinkStore? || a.BeginCopyStore? ||
    a.EndCopyStore?
  }

  predicate OwnAct(a: Act) {
    LoopAct(a) || ChunkAct(a)
  }

  predicate Owner(wk: Worker) {
    !wk.Waiting? && !wk.Stopped?
  }

  /** The worker's place is within the pending list, and that within the manifest. */
  predicate Placed(r: Run, wk: Worker) {
    Owner(wk) ==> wk.pos < |r.pending| && r.pending[wk.pos] < |r.mem|
  }

  function EntryOf(r: Run, wk: Worker): (i: nat)
    requires Owner(wk) && Placed(r, wk)
  {
    r.pending[wk.pos]
  }

  function HashOf(r: Run, wk: Worker): string
    requires Owner(wk) && Placed(r, wk)
  {
    r.mem[EntryOf(r, wk)].hash
  }

  /** `copyfile` refuses to copy a file onto itself. */
  predicate CanCopy(fs: FileSystem, src: Path, dst: Path) {
    fs.Exists(src) && (fs.Exists(dst) ==> fs.dir[dst] != fs.dir[src])
  }

  predicate WorkerEnabled(s: State, r: Run, a: Act)
    requires OwnAct(a) && s.fs.Valid()
  {
    a.w < |r.workers| &&
    var wk := r.workers[a.w];
    Placed(r, wk) &&
    match a
    case Acquire(_) => wk.Waiting? && r.dispatcher == None && (r.next < |r.pending| ==> r.pending[r.next] < |r.mem|)
    case CheckCancel(_) => wk.Checking?
    case Poll(_) => wk.Yielding? && s.fastPending <= 0
    case Start(_) => wk.Cleared?
    case Mark(_) => wk.Finished?
    case Snapshot(_) => wk.Marked? && r.saver == None
    case Write(_) => wk.Saving?
    case Release(_) => wk.Publishing?
    case Raise(_) => Owner(wk) && !wk.Dead?
    case BeginSilence(_, status, _) => wk.Working? && (status == Failed || (status == Done && wk.tries == 0))
    case EndSilence(_, result) =>
      wk.Silencing? && s.fs.Exists(OwnChunk(EntryOf(r, wk))) &&
      (s.fs.Read(OwnChunk(EntryOf(r, wk))) == wk.part ==> result == Placeholder(wk.status))
    case DropForHit(_) =>
      wk.Working? && wk.tries == 0 &&
      s.fs.Exists(CacheFile(HashOf(r, wk))) && IsValidWav(s.fs.Read(CacheFile(HashOf(r, wk))))
    case LinkHit(_) => wk.Fetching? && s.fs.Exists(CacheFile(HashOf(r, wk))) && !s.fs.Exists(OwnChunk(EntryOf(r, wk)))
    case BeginCopyHit(_, _) => wk.Fetching? && CanCopy(s.fs, CacheFile(HashOf(r, wk)), OwnChunk(EntryOf(r, wk)))
    case EndCopyHit(_, result) =>
      wk.CopyingIn? && wk.src < |s.fs.inodes| && s.fs.Exists(OwnChunk(EntryOf(r, wk))) &&
      (s.fs.inodes[wk.src] == wk.audio && s.fs.Read(OwnChunk(EntryOf(r, wk))) == wk.part ==> result == wk.audio)
    case Retry(_) => wk.Working? && wk.tries < MAX_CHUNK_ATTEMPTS
    case Speak(_, _, _) => wk.Working? && wk.tries < MAX_CHUNK_ATTEMPTS
    case Persist(_) => wk.Speaking?
    case LookUp(_) => wk.Persisted?
    case ClearCache(_) => wk.Storing?
    case LinkStore(_) => wk.Linking? && s.fs.Exists(OwnChunk(EntryOf(r, wk))) && !s.fs.Exists(CacheFile(HashOf(r, wk)))
    case BeginCopyStore(_, _) => wk.Linking? && CanCopy(s.fs, OwnChunk(EntryOf(r, wk)), CacheFile(HashOf(r, wk)))
    case EndCopyStore(_, result) =>
      wk.CopyingOut? && wk.copy.dst < |s.fs.inodes| && s.fs.Exists(OwnChunk(EntryOf(r, wk))) &&
      (s.fs.Read(OwnChunk(EntryOf(r, wk))) == wk.copy.audio && s.fs.inodes[wk.copy.dst] == wk.copy.part ==>
         result == wk.copy.audio)
  }

  predicate AllStopped(r: Run) {
    forall w | 0 <= w < |r.workers| :: r.workers[w].Stopped?
  }

  predicate AllOver(r: Run) {
    forall w | 0 <= w < |r.workers| :: r.workers[w].Stopped? || r.workers[w].Dead?
  }

  predicate Foreign(p: Path) {
    p.ChunkFile? && p.job != JOB
  }

  predicate Enabled(s: State, a: Act)
    requires s.fs.Valid()
  {
    if OwnAct(a) then s.phase.Running? && WorkerEnabled(s, s.phase.run, a)
    else
      match a
      case Load(_, _, n) => s.phase.Idle? && n > 0
      case Open => s.phase.Loaded?
      case End => s.phase.Running? && AllStopped(s.phase.run)
      case Abort => s.phase.Running? && AllOver(s.phase.run)
      case ForeignPersist(p, _, _) => Foreign(p)
      case ForeignPut(p, key) =>
        Foreign(p) && s.fs.Exists(p) && (key, s.fs.Read(p)) in s.made && !s.fs.Exists(CacheFile(key))
      case ForeignBeginCopy(id, p, key, _) =>
        Foreign(p) && CanCopy(s.fs, p, CacheFile(key)) && (key, s.fs.Read(p)) in s.made && id !in s.others
      case ForeignEndCopy(id, result) =>
        id in s.others && s.others[id].dst < |s.fs.inodes| &&
        (s.fs.inodes[s.others[id].dst] == s.others[id].part ==> result == s.others[id].audio)
      case ForeignLeave(id) => id in s.others
      case ForeignGet(key, p) => Foreign(p) && s.fs.Exists(CacheFile(key))
      case ForeignFill(p, _) => Foreign(p)
      case ForeignSilence(p, _) => Foreign(p)
      case _ => true
  }

  function SetWorker(r: Run, w: nat, wk: Worker): Run
    requires w < |r.workers|
  {
    r.(workers := r.workers[w := wk])
  }

  /** Where a step of `_synth_one` leaves its worker. */
  function Advance(s: State, r: Run, a: Act): Worker
    requires ChunkAct(a) && s.fs.Valid() && WorkerEnabled(s, r, a)
  {
    var wk := r.workers[a.w];
    match a
    case BeginSilence(_, status, junk) => Silencing(wk.pos, status, junk)
    case EndSilence(_, _) => Finished(wk.pos, wk.status)
    case DropForHit(_) => Fetching(wk.pos)
    case LinkHit(_) => Finished(wk.pos, Done)
    case BeginCopyHit(_, junk) =>
      var cached := CacheFile(HashOf(r, wk));
      CopyingIn(wk.pos, s.fs.Read(cached), s.fs.dir[cached], junk)
    case EndCopyHit(_, _) => Finished(wk.pos, Done)
    case Retry(_) => Working(wk.pos, wk.tries + 1)
    case Speak(_, audio, plain) => Speaking(wk.pos, audio, plain)
    case Persist(_) => Persisted(wk.pos, wk.plain)
    case LookUp(_) =>
      var cached := CacheFile(HashOf(r, wk));
      if !wk.plain || (s.fs.Exists(cached) && |s.fs.Read(cached)| > 0) then Finished(wk.pos, Done) else Storing(wk.pos)
    case ClearCache(_) => Linking(wk.pos)
    case LinkStore(_) => Finished(wk.pos, Done)
    case BeginCopyStore(_, junk) => CopyingOut(wk.pos, NewCopy(s.fs, OwnChunk(EntryOf(r, wk)), HashOf(r, wk), junk))
    case EndCopyStore(_, _) => Finished(wk.pos, Done)
  }

  /** The copy of `src` that begins by opening the cache file of `key`. */
  function NewCopy(fs: FileSystem, src: Path, key: string, junk: Bytes): Copy
    requires fs.Valid() && fs.Exists(src)
  {
    var cached := CacheFile(key);
    Copy(key, if fs.Exists(cached) then fs.dir[cached] else |fs.inodes|, fs.Read(src), junk)
  }

  /** The step may come back from the engine. A skipped chunk never reaches it, and a chunk that has used its
      attempts does no more. */
  predicate CallsEngine(wk: Worker, a: Act) {
    a.Retry? || a.Speak? ||
    (((a.BeginSilence? && a.status == Failed) || a.Raise?) && wk.Working? && wk.tries < MAX_CHUNK_ATTEMPTS)
  }

  /** The control part of a worker's step: its own place, the locks, the iterator, the manifest in memory. */
  function WorkerStep(s: State, r: Run, a: Act): (r': Run)
    requires OwnAct(a) && s.fs.Valid() && WorkerEnabled(s, r, a)
    ensures |r'.workers| == |r.workers|
  {
    var w, wk := a.w, r.workers[a.w];
    if ChunkAct(a) then
      SetWorker(r, w, Advance(s, r, a)).(
        engine := if CallsEngine(wk, a) then r.engine + {EntryOf(r, wk)} else r.engine)
    else
      match a
      case Acquire(_) =>
        if r.cancelled || r.next >= |r.pending| then SetWorker(r, w, Stopped)
        else SetWorker(r, w, Checking(r.next)).(next := r.next + 1, dispatcher := Some(w))
      case CheckCancel(_) =>
        if s.cancelFlag then SetWorker(r, w, Stopped).(cancelled := true, dispatcher := None)
        else SetWorker(r, w, if s.bulk then Yielding(wk.pos) else Cleared(wk.pos))
      case Poll(_) => SetWorker(r, w, Cleared(wk.pos))
      case Start(_) => SetWorker(r, w, Working(wk.pos, 0)).(dispatcher := None, started := r.started + [wk.pos])
      case Mark(_) =>
        SetWorker(r, w, Marked(wk.pos)).(mem := r.mem[EntryOf(r, wk) := Entry(HashOf(r, wk), wk.status)])
      case Snapshot(_) => SetWorker(r, w, Saving(wk.pos, r.mem)).(saver := Some(w))
      case Write(_) => SetWorker(r, w, Publishing(wk.pos))
      case Release(_) => SetWorker(r, w, Waiting).(saver := None)
      case Raise(_) =>
        SetWorker(r, w, Dead(wk.pos)).(
          dispatcher := if r.dispatcher == Some(w) then None else r.dispatcher,
          saver := if r.saver == Some(w) then None else r.saver,
          engine := if CallsEngine(wk, a) then r.engine + {EntryOf(r, wk)} else r.engine)
  }

  /** What a worker's step does to the files. */
  function WorkerFiles(s: State, r: Run, a: Act): (fs': FileSystem)
    requires OwnAct(a) && s.fs.Valid() && WorkerEnabled(s, r, a)
    ensures fs'.Valid()
  {
    var wk := r.workers[a.w];
    match a
    case BeginSilence(_, _, junk) => s.fs.Overwrite(OwnChunk(EntryOf(r, wk)), junk)
    case EndSilence(_, result) => s.fs.Overwrite(OwnChunk(EntryOf(r, wk)), result)
    case DropForHit(_) => s.fs.Unlink(OwnChunk(EntryOf(r, wk)))
    case LinkHit(_) => s.fs.Link(CacheFile(HashOf(r, wk)), OwnChunk(EntryOf(r, wk)))
    case BeginCopyHit(_, junk) => s.fs.Overwrite(OwnChunk(EntryOf(r, wk)), junk)
    case EndCopyHit(_, result) => s.fs.Overwrite(OwnChunk(EntryOf(r, wk)), result)
    case Persist(_) => s.fs.Replace(OwnChunk(EntryOf(r, wk)), wk.audio)
    case ClearCache(_) => s.fs.Unlink(CacheFile(HashOf(r, wk)))
    case LinkStore(_) => s.fs.Link(OwnChunk(EntryOf(r, wk)), CacheFile(HashOf(r, wk)))
    case BeginCopyStore(_, junk) => s.fs.Overwrite(CacheFile(HashOf(r, wk)), junk)
    case EndCopyStore(_, result) => s.fs.WriteInode(wk.copy.dst, result)
    case _ => s.fs
  }

  /** What a worker's step adds to the audio made. */
  function WorkerMade(s: State, r: Run, a: Act): set<(string, Bytes)>
    requires OwnAct(a) && s.fs.Valid() && WorkerEnabled(s, r, a)
  {
    var wk := r.workers[a.w];
    match a
    case BeginSilence(_, status, _) => if status == Done then s.made + {(HashOf(r, wk), Silence(200))} else s.made
    case Speak(_, audio, _) => s.made + {(HashOf(r, wk), audio)}
    case _ => s.made
  }

  /** A run over a loaded manifest with `n` workers. */
  function Opened(entries: seq<Entry>, n: nat): Run {
    Run(entries, entries, PendingOf(entries), 0, seq(n, i => Waiting), None, None, false, [], {})
  }

  function Step(s: State, a: Act): (s': State)
    requires s.fs.Valid() && Enabled(s, a)
    ensures s'.fs.Valid()
  {
    if OwnAct(a) then
      var r := s.phase.run;
      s.(fs := WorkerFiles(s, r, a), made := WorkerMade(s, r, a), phase := Running(WorkerStep(s, r, a)),
         disk := if a.Write? then Some(r.workers[a.w].snap) else s.disk)
    else
      match a
      case Load(hashes, readable, n) =>
        s.(phase := Loaded(Reload(s.fs, if s.disk.Some? && readable then s.disk.value else [], hashes), n))
      case Open =>
        s.(disk := Some(s.phase.entries), phase := Running(Opened(s.phase.entries, s.phase.n)))
      case End => s.(disk := Some(s.phase.run.mem), phase := Idle)
      case Abort => s.(phase := Idle)
      case Crash => s.(phase := Idle)
      case SetCancel => s.(cancelFlag := true)
      case ClearCancel => s.(cancelFlag := false)
      case FastEnter => s.(fastPending := s.fastPending + 1)
      case FastExit => s.(fastPending := if s.fastPending - 1 < 0 then 0 else s.fastPending - 1)
      case Evict(key) => s.(fs := s.fs.Unlink(CacheFile(key)))
      case ForeignPersist(p, key, audio) => s.(fs := s.fs.Replace(p, audio), made := s.made + {(key, audio)})
      case ForeignPut(p, key) => s.(fs := s.fs.Link(p, CacheFile(key)))
      case ForeignBeginCopy(id, p, key, junk) =>
        s.(fs := s.fs.Overwrite(CacheFile(key), junk), others := s.others[id := NewCopy(s.fs, p, key, junk)])
      case ForeignEndCopy(id, result) =>
        s.(fs := s.fs.WriteInode(s.others[id].dst, result), others := s.others - {id})
      case ForeignLeave(id) => s.(others := s.others - {id})
      case ForeignGet(key, p) => s.(fs := s.fs.Link(CacheFile(key), p))
      case ForeignFill(p, bytes) => s.(fs := s.fs.Replace(p, bytes))
      case ForeignSilence(p, bytes) => s.(fs := s.fs.Overwrite(p, bytes))
  }
}
