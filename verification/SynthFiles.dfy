/** Crash-safe resume: what the manifest on disk calls done is done, however often the process dies. */
module SynthFiles {
  import opened Wrappers
  import opened Files
  import opened Synth
  import opened SynthControl
  import opened SynthRuns

  type Audio = set<(string, Bytes)>

  // --- file frames -----------------------------------------------------------------------

  /** Only the path `p` may lead elsewhere, and only the inode `n` may hold other bytes. */
  ghost predicate Frame(fs: FileSystem, fs': FileSystem, p: Path, n: nat) {
    && fs.Valid() && fs'.Valid() && |fs.inodes| <= |fs'.inodes|
    && (forall q | q != p :: (q in fs'.dir <==> q in fs.dir) && (q in fs.dir ==> fs'.dir[q] == fs.dir[q]))
    && (forall m | 0 <= m < |fs.inodes| && m != n :: fs'.inodes[m] == fs.inodes[m])
  }

  lemma ReplaceFrame(fs: FileSystem, p: Path, b: Bytes)
    requires fs.Valid()
    ensures Frame(fs, fs.Replace(p, b), p, |fs.inodes|)
    ensures fs.Replace(p, b).Exists(p) && fs.Replace(p, b).Read(p) == b
  {
  }

  lemma UnlinkFrame(fs: FileSystem, p: Path)
    requires fs.Valid()
    ensures Frame(fs, fs.Unlink(p), p, |fs.inodes|) && !fs.Unlink(p).Exists(p)
  {
  }

  lemma LinkFrame(fs: FileSystem, src: Path, dst: Path)
    requires fs.Valid() && fs.Exists(src)
    ensures Frame(fs, fs.Link(src, dst), dst, |fs.inodes|)
    ensures fs.Link(src, dst).Exists(dst) && fs.Link(src, dst).Read(dst) == fs.Read(src)
  {
  }

  lemma WriteFrame(fs: FileSystem, n: nat, b: Bytes, p: Path)
    requires fs.Valid() && n < |fs.inodes|
    ensures Frame(fs, fs.WriteInode(n, b), p, n) && fs.WriteInode(n, b).inodes[n] == b
  {
  }

  /** The inode that opening `p` for writing writes: the one it leads to, or a new one. */
  function Target(fs: FileSystem, p: Path): nat {
    if p in fs.dir then fs.dir[p] else |fs.inodes|
  }

  lemma OverwriteFrame(fs: FileSystem, p: Path, b: Bytes)
    requires fs.Valid()
    ensures Frame(fs, fs.Overwrite(p, b), p, Target(fs, p))
    ensures fs.Overwrite(p, b).Exists(p) && fs.Overwrite(p, b).Read(p) == b
    ensures fs.Overwrite(p, b).dir[p] == Target(fs, p) && fs.Overwrite(p, b).inodes[Target(fs, p)] == b
  {
  }

  // --- the invariant -----------------------------------------------------------------------

  /** The file holds audio made for the hash. */
  predicate Good(fs: FileSystem, made: Audio, p: Path, hash: string)
    requires fs.Valid()
  {
    fs.Exists(p) && (hash, fs.Read(p)) in made
  }

  /** A worker of this job is copying into inode `n` under `key`. */
  predicate OwnCopying(s: State, w: nat, n: nat, key: string) {
    s.phase.Running? && w < |s.phase.run.workers| &&
    var wk := s.phase.run.workers[w];
    wk.CopyingOut? && wk.copy.dst == n && wk.copy.key == key
  }

  predicate ForeignCopying(s: State, id: nat, n: nat, key: string) {
    id in s.others && s.others[id].dst == n && s.others[id].key == key
  }

  /** Someone is. */
  ghost predicate Copying(s: State, n: nat, key: string) {
    (exists w: nat :: OwnCopying(s, w, n, key)) || (exists id: nat :: ForeignCopying(s, id, n, key))
  }

  /** Every cache file holds audio made for its key, or is being copied. */
  ghost predicate CacheGood(s: State)
    requires s.fs.Valid()
  {
    forall key :: s.fs.Exists(CacheFile(key)) ==>
                    Good(s.fs, s.made, CacheFile(key), key) || Copying(s, s.fs.dir[CacheFile(key)], key)
  }

  /** Every entry marked done has its audio. */
  predicate EntriesGood(fs: FileSystem, made: Audio, entries: seq<Entry>)
    requires fs.Valid()
  {
    forall i: nat | i < |entries| && entries[i].status == Done :: Good(fs, made, OwnChunk(i), entries[i].hash)
  }

  /** The copy will put audio made for its key into its inode, which nobody else has written to. */
  predicate CopyGood(fs: FileSystem, made: Audio, c: Copy) {
    (c.key, c.audio) in made && c.dst < |fs.inodes| && fs.inodes[c.dst] == c.part
  }

  /** The file holds these bytes. */
  predicate Shows(fs: FileSystem, p: Path, b: Bytes)
    requires fs.Valid()
  {
    fs.Exists(p) && fs.Read(p) == b
  }

  /** What a worker with chunk file `p` relies on. */
  predicate StageGood(fs: FileSystem, made: Audio, wk: Worker, p: Path, hash: string)
    requires fs.Valid()
  {
    match wk
    case Silencing(_, status, part) => Shows(fs, p, part) && (status == Done ==> (hash, Silence(200)) in made)
    case CopyingIn(_, audio, src, part) =>
      Shows(fs, p, part) && (hash, audio) in made && src < |fs.inodes| && fs.inodes[src] == audio
    case Speaking(_, audio, _) => (hash, audio) in made
    case Persisted(_, _) => Good(fs, made, p, hash)
    case Storing(_) => Good(fs, made, p, hash)
    case Linking(_) => Good(fs, made, p, hash)
    case CopyingOut(_, copy) =>
      Good(fs, made, p, hash) && copy.key == hash && fs.Read(p) == copy.audio && CopyGood(fs, made, copy)
    case Finished(_, status) => status == Done ==> Good(fs, made, p, hash)
    case _ => true
  }

  predicate WorkerGood(fs: FileSystem, made: Audio, r: Run, wk: Worker)
    requires fs.Valid()
  {
    Owner(wk) ==>
      && wk.pos < |r.pending| && r.pending[wk.pos] < |r.mem|
      && StageGood(fs, made, wk, OwnChunk(r.pending[wk.pos]), r.mem[r.pending[wk.pos]].hash)
  }

  predicate WorkersGood(fs: FileSystem, made: Audio, r: Run)
    requires fs.Valid()
  {
    forall w | 0 <= w < |r.workers| :: WorkerGood(fs, made, r, r.workers[w])
  }

  ghost predicate OthersGood(fs: FileSystem, made: Audio, others: map<nat, Copy>) {
    forall id | id in others :: CopyGood(fs, made, others[id])
  }

  /** The promise made to a resumed job. */
  ghost predicate ResumeSafe(s: State) {
    s.fs.Valid() && (s.disk.Some? ==> EntriesGood(s.fs, s.made, s.disk.value))
  }

  /** The part of the invariant that depends on how far the job is. */
  predicate PhaseGood(fs: FileSystem, made: Audio, phase: Phase)
    requires fs.Valid()
  {
    match phase
    case Idle => true
    case Loaded(entries, _) => EntriesGood(fs, made, entries)
    case Running(r) => EntriesGood(fs, made, r.mem) && WorkersGood(fs, made, r)
  }

  ghost predicate Sound(s: State) {
    && ResumeSafe(s) && CacheGood(s) && OthersGood(s.fs, s.made, s.others)
    && PhaseGood(s.fs, s.made, s.phase)
  }

  // --- who relies on an inode --------------------------------------------------------------

  /** A cache file of another key than `key`, not being copied, leads there. */
  ghost predicate CacheRelies(s: State, n: nat, key: Option<string>) {
    exists k :: Some(k) != key && CacheLeads(s, k, n)
  }

  ghost predicate CacheLeads(s: State, k: string, n: nat) {
    s.fs.Exists(CacheFile(k)) && s.fs.dir[CacheFile(k)] == n && !Copying(s, n, k)
  }

  /** The chunk file of an entry marked done leads there. */
  predicate EntriesRely(fs: FileSystem, entries: seq<Entry>, n: nat) {
    exists i :: 0 <= i < |entries| && EntryRelies(fs, entries, i, n)
  }

  predicate EntryRelies(fs: FileSystem, entries: seq<Entry>, i: nat, n: nat)
    requires i < |entries|
  {
    entries[i].status == Done && OwnChunk(i) in fs.dir && fs.dir[OwnChunk(i)] == n
  }

  /** The worker has its entry's audio there, or copies from there. */
  predicate WorkerNeeds(fs: FileSystem, r: Run, wk: Worker, n: nat) {
    Owner(wk) && wk.pos < |r.pending| &&
    match wk
    case CopyingIn(_, _, src, _) => src == n
    case CopyingOut(pos, _) => Leads(fs, OwnChunk(r.pending[pos]), n)
    case Persisted(pos, _) => Leads(fs, OwnChunk(r.pending[pos]), n)
    case Storing(pos) => Leads(fs, OwnChunk(r.pending[pos]), n)
    case Linking(pos) => Leads(fs, OwnChunk(r.pending[pos]), n)
    case Finished(pos, status) => status == Done && Leads(fs, OwnChunk(r.pending[pos]), n)
    case _ => false
  }

  /** The worker is writing there: a placeholder, or a copy in either direction. */
  predicate WorkerWrites(fs: FileSystem, r: Run, wk: Worker, n: nat) {
    Owner(wk) && wk.pos < |r.pending| &&
    match wk
    case Silencing(pos, _, _) => Leads(fs, OwnChunk(r.pending[pos]), n)
    case CopyingIn(pos, _, _, _) => Leads(fs, OwnChunk(r.pending[pos]), n)
    case CopyingOut(_, copy) => copy.dst == n
    case _ => false
  }

  predicate WorkerRelies(fs: FileSystem, r: Run, wk: Worker, n: nat) {
    WorkerNeeds(fs, r, wk, n) || WorkerWrites(fs, r, wk, n)
  }

  predicate Leads(fs: FileSystem, p: Path, n: nat) {
    p in fs.dir && fs.dir[p] == n
  }

  predicate PhaseRelies(s: State, n: nat, me: Option<nat>) {
    match s.phase
    case Idle => false
    case Loaded(entries, _) => EntriesRely(s.fs, entries, n)
    case Running(r) =>
      EntriesRely(s.fs, r.mem, n) ||
      exists w :: 0 <= w < |r.workers| && Some(w) != me && WorkerRelies(s.fs, r, r.workers[w], n)
  }

  predicate OthersRely(others: map<nat, Copy>, n: nat, id: Option<nat>) {
    exists i :: i in others && Some(i) != id && others[i].dst == n
  }

  /** Somebody other than worker `me`, copy `id` and the cache file of `key` relies on what the inode holds:
      a cache file, an entry done on disk or in memory, a worker with its audio, a write under way. */
  ghost predicate Relied(s: State, n: nat, me: Option<nat>, id: Option<nat>, key: Option<string>) {
    || CacheRelies(s, n, key)
    || (s.disk.Some? && EntriesRely(s.fs, s.disk.value, n))
    || PhaseRelies(s, n, me)
    || OthersRely(s.others, n, id)
  }

  // --- what a change to one path or inode leaves ----------------------------------------------

  lemma {:induction false} GoodKept(fs: FileSystem, fs': FileSystem, made: Audio, made': Audio, p: Path, n: nat,
                                    q: Path, hash: string)
    requires Frame(fs, fs', p, n) && made <= made' && Good(fs, made, q, hash) && q != p && !Leads(fs, q, n)
    ensures Good(fs', made', q, hash) && fs'.Read(q) == fs.Read(q)
  {
  }

  lemma {:induction false} ShowsKept(fs: FileSystem, fs': FileSystem, p: Path, n: nat, q: Path, b: Bytes)
    requires Frame(fs, fs', p, n) && Shows(fs, q, b) && q != p && !Leads(fs, q, n)
    ensures Shows(fs', q, b)
  {
  }

  lemma {:induction false} EntriesKept(fs: FileSystem, fs': FileSystem, made: Audio, made': Audio, p: Path, n: nat,
                                       entries: seq<Entry>)
    requires fs'.Valid() && Frame(fs, fs', p, n)
    requires made <= made' && EntriesGood(fs, made, entries) && !EntriesRely(fs, entries, n)
    requires forall i: nat | i < |entries| && entries[i].status == Done :: OwnChunk(i) != p
    ensures EntriesGood(fs', made', entries)
  {
    hide Frame, Good;
    forall i: nat | i < |entries| && entries[i].status == Done ensures Good(fs', made', OwnChunk(i), entries[i].hash) {
      assert !EntryRelies(fs, entries, i, n);
      GoodKept(fs, fs', made, made', p, n, OwnChunk(i), entries[i].hash);
    }
  }

  lemma {:induction false} CopyKept(fs: FileSystem, fs': FileSystem, made: Audio, made': Audio, p: Path, n: nat,
                                    c: Copy)
    requires Frame(fs, fs', p, n) && made <= made' && CopyGood(fs, made, c) && c.dst != n
    ensures CopyGood(fs', made', c)
  {
  }

  lemma {:induction false} StageKept(fs: FileSystem, fs': FileSystem, made: Audio, made': Audio, p: Path, n: nat,
                                     r: Run, wk: Worker)
    requires Frame(fs, fs', p, n) && made <= made' && WorkerGood(fs, made, r, wk)
    requires Owner(wk) && wk.pos < |r.pending| ==> OwnChunk(r.pending[wk.pos]) != p && !WorkerRelies(fs, r, wk, n)
    ensures WorkerGood(fs', made', r, wk)
  {
    hide Good, CopyGood, Silence, Shows;
    if Owner(wk) {
      var q, hash := OwnChunk(r.pending[wk.pos]), r.mem[r.pending[wk.pos]].hash;
      if Good(fs, made, q, hash) && !Leads(fs, q, n) {
        GoodKept(fs, fs', made, made', p, n, q, hash);
      }
      if (wk.Silencing? || wk.CopyingIn?) && !Leads(fs, q, n) {
        ShowsKept(fs, fs', p, n, q, wk.part);
      }
      if wk.CopyingOut? {
        CopyKept(fs, fs', made, made', p, n, wk.copy);
      }
    }
  }

  lemma {:induction false} OthersKept(fs: FileSystem, fs': FileSystem, made: Audio, made': Audio, p: Path, n: nat,
                                      others: map<nat, Copy>, id: Option<nat>)
    requires Frame(fs, fs', p, n) && made <= made' && OthersGood(fs, made, others) && !OthersRely(others, n, id)
    ensures forall i | i in others && Some(i) != id :: CopyGood(fs', made', others[i])
  {
    hide Frame, CopyGood;
    forall i | i in others && Some(i) != id ensures CopyGood(fs', made', others[i]) {
      CopyKept(fs, fs', made, made', p, n, others[i]);
    }
  }

  /** A cache file that is neither the path changed nor exempt stays as good as it was. */
  lemma {:induction false} CacheKept(s: State, fs': FileSystem, made': Audio, p: Path, n: nat, key: Option<string>)
    requires Frame(s.fs, fs', p, n) && s.made <= made' && CacheGood(s) && !CacheRelies(s, n, key)
    ensures forall k | CacheFile(k) != p && Some(k) != key && fs'.Exists(CacheFile(k)) ::
              && s.fs.Exists(CacheFile(k)) && fs'.dir[CacheFile(k)] == s.fs.dir[CacheFile(k)]
              && (Good(fs', made', CacheFile(k), k) || Copying(s, s.fs.dir[CacheFile(k)], k))
  {
    hide Copying, Good;
    forall k | CacheFile(k) != p && Some(k) != key && fs'.Exists(CacheFile(k))
      ensures && s.fs.Exists(CacheFile(k)) && fs'.dir[CacheFile(k)] == s.fs.dir[CacheFile(k)]
              && (Good(fs', made', CacheFile(k), k) || Copying(s, s.fs.dir[CacheFile(k)], k))
    {
      if !Copying(s, s.fs.dir[CacheFile(k)], k) {
        assert !CacheLeads(s, k, n);
        GoodKept(s.fs, fs', s.made, made', p, n, CacheFile(k), k);
      }
    }
  }

  /** Nobody relies on an inode that does not exist yet. */
  lemma {:induction false} NobodyReliesOnNew(s: State, me: Option<nat>, id: Option<nat>, key: Option<string>)
    requires Sound(s)
    ensures !Relied(s, |s.fs.inodes|, me, id, key)
  {
    hide Good, Copying, Silence;
    if s.phase.Running? {
      var r := s.phase.run;
      forall w | 0 <= w < |r.workers| ensures !WorkerRelies(s.fs, r, r.workers[w], |s.fs.inodes|) {
        assert WorkerGood(s.fs, s.made, r, r.workers[w]);
      }
    }
  }

  // --- steps that respect others ----------------------------------------------------------------

  /** The copy that worker `w` has under way is in the cache, and nobody else is copying there. */
  ghost predicate LeftBehind(s: State, c: Copy, w: Option<nat>, id: Option<nat>) {
    && Leads(s.fs, CacheFile(c.key), c.dst)
    && (forall v: nat | OwnCopying(s, v, c.dst, c.key) :: Some(v) == w)
    && (forall i: nat | ForeignCopying(s, i, c.dst, c.key) :: Some(i) == id)
  }

  /** The step writes a placeholder, in this job or another. */
  predicate WritesSilence(a: Act) {
    a.BeginSilence? || a.EndSilence? || a.ForeignSilence?
  }

  /** The step writes nothing in place that somebody else relies on, takes no half-copied file from the
      cache, and leaves none there. */
  ghost predicate Careful(s: State, a: Act)
    requires s.fs.Valid() && Enabled(s, a)
  {
    match a
    case BeginSilence(w, _, _) => OwnFileFree(s, w)
    case EndSilence(w, _) => OwnFileFree(s, w)
    case BeginCopyHit(w, _) => OwnFileFree(s, w) && !HalfCopied(s, w)
    case EndCopyHit(w, _) => OwnFileFree(s, w)
    case LinkHit(w) => !HalfCopied(s, w)
    case BeginCopyStore(w, _) =>
      var hash := HashOf(s.phase.run, s.phase.run.workers[w]);
      !Relied(s, Target(s.fs, CacheFile(hash)), Some(w), None, Some(hash))
    case EndCopyStore(w, _) => !Relied(s, s.phase.run.workers[w].copy.dst, Some(w), None, None)
    case Raise(w) =>
      s.phase.run.workers[w].CopyingOut? ==> !LeftBehind(s, s.phase.run.workers[w].copy, Some(w), None)
    case Crash => forall key, n: nat :: !NewlyLeft(s, key, n)
    case ForeignSilence(p, _) => !Relied(s, Target(s.fs, p), None, None, None)
    case ForeignBeginCopy(_, _, key, _) => !Relied(s, Target(s.fs, CacheFile(key)), None, None, Some(key))
    case ForeignEndCopy(id, _) => !Relied(s, s.others[id].dst, None, Some(id), None)
    case ForeignLeave(id) => !LeftBehind(s, s.others[id], None, Some(id))
    case _ => true
  }

  /** Worker `w` has an entry. */
  predicate AtWork(s: State, w: nat) {
    s.phase.Running? && w < |s.phase.run.workers| &&
    Owner(s.phase.run.workers[w]) && Placed(s.phase.run, s.phase.run.workers[w])
  }

  /** Nobody else relies on what the worker's chunk file holds. */
  ghost predicate OwnFileFree(s: State, w: nat) {
    AtWork(s, w) ==>
      !Relied(s, Target(s.fs, OwnChunk(EntryOf(s.phase.run, s.phase.run.workers[w]))), Some(w), None, None)
  }

  /** The cache file of the worker's entry is being copied. */
  ghost predicate HalfCopied(s: State, w: nat) {
    AtWork(s, w) &&
    var hash := HashOf(s.phase.run, s.phase.run.workers[w]);
    s.fs.Exists(CacheFile(hash)) && Copying(s, s.fs.dir[CacheFile(hash)], hash)
  }

  /** A copy of this job's own is in the cache, and no other job is copying there. */
  ghost predicate NewlyLeft(s: State, key: string, n: nat) {
    && Leads(s.fs, CacheFile(key), n)
    && (exists v: nat :: OwnCopying(s, v, n, key))
    && (forall i: nat :: !ForeignCopying(s, i, n, key))
  }

  // --- steps of _synth_one ----------------------------------------------------------------------

  /** Worker `w` moves on to `wk'` by a step that changes the path `p` and the inode `n` only, and has, like
      the cache file of its entry, what it should have. */
  ghost predicate Moves(s: State, r: Run, w: nat, wk': Worker, fs': FileSystem, made': Audio, p: Path, n: nat)
    requires s.fs.Valid() && w < |r.workers| && Owner(r.workers[w]) && Placed(r, r.workers[w])
  {
    var wk, cached := r.workers[w], CacheFile(HashOf(r, r.workers[w]));
    && Frame(s.fs, fs', p, n) && s.made <= made'
    && (p == OwnChunk(EntryOf(r, wk)) || p == cached)
    && !Relied(s, n, Some(w), None, if p == cached then Some(cached.key) else None)
    && WorkerGood(fs', made', r, wk')
    && (p == cached && fs'.Exists(p) ==>
          Good(fs', made', p, cached.key) ||
          (wk'.CopyingOut? && wk'.copy.key == cached.key && wk'.copy.dst == fs'.dir[p]))
    && (wk.CopyingOut? ==> p != cached && (Leads(fs', cached, wk.copy.dst) ==> Good(fs', made', cached, cached.key)))
  }

  ghost predicate Effect(s: State, r: Run, a: Act, p: Path, n: nat)
    requires ChunkAct(a) && s.fs.Valid() && WorkerEnabled(s, r, a)
    requires Owner(r.workers[a.w])
  {
    Moves(s, r, a.w, Advance(s, r, a), WorkerFiles(s, r, a), WorkerMade(s, r, a), p, n)
  }

  ghost predicate Ready(s: State, r: Run, a: Act) {
    && ChunkAct(a) && s.phase == Running(r) && s.fs.Valid() && Enabled(s, a) && Careful(s, a) && Sound(s)
    && Owner(r.workers[a.w]) && WorkerGood(s.fs, s.made, r, r.workers[a.w])
  }

  lemma {:induction false} BeginSilenceEffect(s: State, r: Run, a: Act)
    requires Ready(s, r, a) && a.BeginSilence?
    ensures var own := OwnChunk(EntryOf(r, r.workers[a.w])); Effect(s, r, a, own, Target(s.fs, own))
  {
    hide IsValidWav, Sound, Relied, Frame, Silence;
    OverwriteFrame(s.fs, OwnChunk(EntryOf(r, r.workers[a.w])), a.junk);
  }

  lemma {:induction false} EndSilenceEffect(s: State, r: Run, a: Act)
    requires Ready(s, r, a) && a.EndSilence?
    ensures var own := OwnChunk(EntryOf(r, r.workers[a.w])); Effect(s, r, a, own, Target(s.fs, own))
  {
    hide IsValidWav, Sound, Relied, Frame, Silence;
    OverwriteFrame(s.fs, OwnChunk(EntryOf(r, r.workers[a.w])), a.result);
  }

  lemma {:induction false} DropEffect(s: State, r: Run, a: Act)
    requires Ready(s, r, a) && a.DropForHit?
    ensures Effect(s, r, a, OwnChunk(EntryOf(r, r.workers[a.w])), |s.fs.inodes|)
  {
    hide IsValidWav, Sound, Relied, Frame, Silence;
    NobodyReliesOnNew(s, Some(a.w), None, None);
    UnlinkFrame(s.fs, OwnChunk(EntryOf(r, r.workers[a.w])));
  }

  lemma {:induction false} HitEffect(s: State, r: Run, a: Act)
    requires Ready(s, r, a) && a.LinkHit?
    ensures Effect(s, r, a, OwnChunk(EntryOf(r, r.workers[a.w])), |s.fs.inodes|)
  {
    hide IsValidWav, Relied, Copying, Frame, Silence;
    NobodyReliesOnNew(s, Some(a.w), None, None);
    LinkFrame(s.fs, CacheFile(HashOf(r, r.workers[a.w])), OwnChunk(EntryOf(r, r.workers[a.w])));
  }

  lemma {:induction false} BeginCopyHitEffect(s: State, r: Run, a: Act)
    requires Ready(s, r, a) && a.BeginCopyHit?
    ensures var own := OwnChunk(EntryOf(r, r.workers[a.w])); Effect(s, r, a, own, Target(s.fs, own))
  {
    hide IsValidWav, Copying, Frame, Silence, PhaseGood, OthersGood, EntriesGood, PhaseRelies, OthersRely, EntriesRely;
    var wk := r.workers[a.w];
    var own, cached := OwnChunk(EntryOf(r, wk)), CacheFile(HashOf(r, wk));
    OverwriteFrame(s.fs, own, a.junk);
    assert Good(s.fs, s.made, cached, cached.key);
    ReadStays(s.fs, WorkerFiles(s, r, a), own, Target(s.fs, own), cached);
  }

  lemma ReadStays(fs: FileSystem, fs': FileSystem, p: Path, n: nat, q: Path)
    requires Frame(fs, fs', p, n) && fs.Exists(q) && fs.dir[q] != n
    ensures fs.dir[q] < |fs'.inodes| && fs'.inodes[fs.dir[q]] == fs.Read(q)
  {
  }

  lemma {:induction false} EndCopyHitEffect(s: State, r: Run, a: Act)
    requires Ready(s, r, a) && a.EndCopyHit?
    ensures var own := OwnChunk(EntryOf(r, r.workers[a.w])); Effect(s, r, a, own, Target(s.fs, own))
  {
    hide IsValidWav, Sound, Relied, Frame, Silence;
    OverwriteFrame(s.fs, OwnChunk(EntryOf(r, r.workers[a.w])), a.result);
  }

  lemma {:induction false} PersistEffect(s: State, r: Run, a: Act)
    requires Ready(s, r, a) && a.Persist?
    ensures Effect(s, r, a, OwnChunk(EntryOf(r, r.workers[a.w])), |s.fs.inodes|)
  {
    hide IsValidWav, Sound, Relied, Frame, Silence;
    NobodyReliesOnNew(s, Some(a.w), None, None);
    ReplaceFrame(s.fs, OwnChunk(EntryOf(r, r.workers[a.w])), r.workers[a.w].audio);
  }

  lemma {:induction false} ClearEffect(s: State, r: Run, a: Act)
    requires Ready(s, r, a) && a.ClearCache?
    ensures Effect(s, r, a, CacheFile(HashOf(r, r.workers[a.w])), |s.fs.inodes|)
  {
    hide IsValidWav, Sound, Relied, Silence;
    NobodyReliesOnNew(s, Some(a.w), None, Some(HashOf(r, r.workers[a.w])));
    UnlinkFrame(s.fs, CacheFile(HashOf(r, r.workers[a.w])));
  }

  lemma {:induction false} LinkStoreEffect(s: State, r: Run, a: Act)
    requires Ready(s, r, a) && a.LinkStore?
    ensures Effect(s, r, a, CacheFile(HashOf(r, r.workers[a.w])), |s.fs.inodes|)
  {
    hide IsValidWav, Sound, Relied, Silence;
    NobodyReliesOnNew(s, Some(a.w), None, Some(HashOf(r, r.workers[a.w])));
    LinkFrame(s.fs, OwnChunk(EntryOf(r, r.workers[a.w])), CacheFile(HashOf(r, r.workers[a.w])));
  }

  lemma {:induction false} TalkEffect(s: State, r: Run, a: Act)
    requires Ready(s, r, a) && (a.Retry? || a.Speak? || a.LookUp?)
    ensures Effect(s, r, a, OwnChunk(EntryOf(r, r.workers[a.w])), |s.fs.inodes|)
  {
    hide IsValidWav, Sound, Relied, Silence;
    NobodyReliesOnNew(s, Some(a.w), None, None);
  }

  lemma {:induction false} BeginCopyStoreEffect(s: State, r: Run, a: Act)
    requires Ready(s, r, a) && a.BeginCopyStore?
    ensures var cached := CacheFile(HashOf(r, r.workers[a.w])); Effect(s, r, a, cached, Target(s.fs, cached))
  {
    hide IsValidWav, Sound, Relied, Frame, Silence;
    var wk := r.workers[a.w];
    var own, cached := OwnChunk(EntryOf(r, wk)), CacheFile(HashOf(r, wk));
    var n := Target(s.fs, cached);
    OverwriteFrame(s.fs, cached, a.junk);
    GoodKept(s.fs, WorkerFiles(s, r, a), s.made, s.made, cached, n, own, cached.key);
  }

  /** What nobody relies on, nobody but some relies on. */
  lemma ReliedLess(s: State, n: nat, me: Option<nat>, id: Option<nat>, key: Option<string>, id': Option<nat>)
    requires !Relied(s, n, me, id, key) && (id == None || id == id')
    ensures !Relied(s, n, me, id', key)
  {
    hide EntriesRely, CacheLeads, WorkerRelies;
  }

  lemma {:induction false} EndCopyStoreEffect(s: State, r: Run, a: Act)
    requires Ready(s, r, a) && a.EndCopyStore?
    ensures exists n :: Effect(s, r, a, OwnChunk(EntryOf(r, r.workers[a.w])), n)
  {
    hide IsValidWav, Sound, Relied, Silence;
    var own, n := OwnChunk(EntryOf(r, r.workers[a.w])), r.workers[a.w].copy.dst;
    WriteFrame(s.fs, n, a.result, own);
    assert Effect(s, r, a, own, n);
  }

  lemma {:induction false} ChunkEffect(s: State, r: Run, a: Act)
    requires Ready(s, r, a)
    ensures exists p, n :: Effect(s, r, a, p, n)
  {
    hide Effect, Ready;
    ReadyIsChunk(s, r, a);
    match a
    case BeginSilence(_, _, _) => BeginSilenceEffect(s, r, a);
    case EndSilence(_, _) => EndSilenceEffect(s, r, a);
    case DropForHit(_) => DropEffect(s, r, a);
    case LinkHit(_) => HitEffect(s, r, a);
    case BeginCopyHit(_, _) => BeginCopyHitEffect(s, r, a);
    case EndCopyHit(_, _) => EndCopyHitEffect(s, r, a);
    case Persist(_) => PersistEffect(s, r, a);
    case ClearCache(_) => ClearEffect(s, r, a);
    case LinkStore(_) => LinkStoreEffect(s, r, a);
    case BeginCopyStore(_, _) => BeginCopyStoreEffect(s, r, a);
    case EndCopyStore(_, _) => EndCopyStoreEffect(s, r, a);
    case _ => TalkEffect(s, r, a);
  }

  lemma ReadyIsChunk(s: State, r: Run, a: Act)
    requires Ready(s, r, a)
    ensures ChunkAct(a) && a.w < |r.workers|
  {
    hide Sound, Careful, WorkerGood, IsValidWav;
  }

  // --- every step keeps the invariant -----------------------------------------------------------

  lemma WorkerOf(fs: FileSystem, made: Audio, r: Run, w: nat)
    requires fs.Valid() && WorkersGood(fs, made, r) && w < |r.workers|
    ensures WorkerGood(fs, made, r, r.workers[w])
  {
  }

  /** A copy under way stays so, but for those of a worker that moves on. */
  lemma {:induction false} CopyingKept(s: State, s': State, w: nat, n: nat, key: string)
    requires s.phase.Running? && s'.phase.Running? && s'.others == s.others
    requires |s'.phase.run.workers| == |s.phase.run.workers|
    requires forall v | 0 <= v < |s.phase.run.workers| && v != w :: s'.phase.run.workers[v] == s.phase.run.workers[v]
    requires Copying(s, n, key) && !OwnCopying(s, w, n, key)
    ensures Copying(s', n, key)
  {
    if v: nat :| OwnCopying(s, v, n, key) {
      assert OwnCopying(s', v, n, key);
    } else {
      var id: nat :| ForeignCopying(s, id, n, key);
      assert ForeignCopying(s', id, n, key);
    }
  }

  /** The workers other than the one that acts. */
  lemma {:induction false} WorkersKept(s: State, r: Run, w: nat, wk': Worker, fs': FileSystem, made': Audio,
                                       p: Path, n: nat, e: set<nat>)
    requires s.phase == Running(r) && s.fs.Valid() && fs'.Valid()
    requires w < |r.workers| && Owner(r.workers[w]) && Placed(r, r.workers[w])
    requires Moves(s, r, w, wk', fs', made', p, n)
    requires Apart(r.workers) && Increasing(r.pending, |r.mem|) && WorkersGood(s.fs, s.made, r)
    ensures WorkersGood(fs', made', SetWorker(r, w, wk').(engine := e))
  {
    hide StageGood, Frame, Good, CacheRelies, EntriesRely, WorkerRelies;
    forall v | 0 <= v < |r.workers| && v != w ensures WorkerGood(fs', made', r, r.workers[v]) {
      var wv := r.workers[v];
      WorkerOf(s.fs, s.made, r, v);
      if Owner(wv) {
        assert wv.pos != r.workers[w].pos && r.pending[wv.pos] != r.pending[r.workers[w].pos];
        assert !WorkerRelies(s.fs, r, wv, n);
      }
      StageKept(s.fs, fs', s.made, made', p, n, r, wv);
    }
  }

  lemma {:induction false} MoveKeepsCache(s: State, r: Run, w: nat, wk': Worker, p: Path, n: nat, s': State)
    requires s.phase == Running(r) && s.fs.Valid() && s'.fs.Valid()
    requires w < |r.workers| && Owner(r.workers[w]) && Placed(r, r.workers[w])
    requires Moves(s, r, w, wk', s'.fs, s'.made, p, n)
    requires CacheGood(s) && WorkerGood(s.fs, s.made, r, r.workers[w])
    requires s'.others == s.others && s'.phase.Running? && s'.phase.run.workers == r.workers[w := wk']
    ensures CacheGood(s')
  {
    hide Frame, Good, CacheRelies, PhaseRelies, OthersRely, EntriesRely, Copying, CopyGood, Silence;
    var wk := r.workers[w];
    var hash := HashOf(r, wk);
    CacheKept(s, s'.fs, s'.made, p, n, if p == CacheFile(hash) then Some(hash) else None);
    forall k | s'.fs.Exists(CacheFile(k))
      ensures Good(s'.fs, s'.made, CacheFile(k), k) || Copying(s', s'.fs.dir[CacheFile(k)], k)
    {
      var m := s'.fs.dir[CacheFile(k)];
      if CacheFile(k) == p {
        if !Good(s'.fs, s'.made, CacheFile(k), k) {
          OwnIsCopying(s', w, m, k);
        }
      } else if Copying(s, m, k) && !OwnCopying(s, w, m, k) {
        CopyingKept(s, s', w, m, k);
      }
    }
  }

  lemma OwnIsCopying(s: State, w: nat, n: nat, key: string)
    requires OwnCopying(s, w, n, key)
    ensures Copying(s, n, key)
  {
  }

  lemma {:induction false} ChunkUnmarked(s: State, r: Run, a: Act)
    requires ChunkAct(a) && s.fs.Valid() && WorkerEnabled(s, r, a)
    ensures a.w < |r.workers| && Unmarked(r.workers[a.w]) && Placed(r, r.workers[a.w])
  {
    hide IsValidWav;
  }

  lemma {:induction false} MoveIsSound(s: State, r: Run, w: nat, wk': Worker, p: Path, n: nat, s': State, e: set<nat>)
    requires s.phase == Running(r) && Sound(s) && s'.fs.Valid() && Apart(r.workers) && Shape(r) && Marks(r)
    requires w < |r.workers| && Unmarked(r.workers[w]) && Placed(r, r.workers[w])
    requires Moves(s, r, w, wk', s'.fs, s'.made, p, n)
    requires s'.others == s.others && s'.phase == Running(SetWorker(r, w, wk').(engine := e))
    ensures CacheGood(s') && OthersGood(s'.fs, s'.made, s'.others) && PhaseGood(s'.fs, s'.made, s'.phase)
  {
    hide Frame, StageGood, PendingOf, CacheGood, CacheRelies, WorkersGood, CopyGood, EntriesRely, OthersRely;
    var wk := r.workers[w];
    WorkerOf(s.fs, s.made, r, w);
    MoveKeepsCache(s, r, w, wk', p, n, s');
    OthersKept(s.fs, s'.fs, s.made, s'.made, p, n, s.others, None);
    assert r.mem[EntryOf(r, wk)].status != Done by {
      assert Mirrored(r, w) && StatusAt(r.mem, r.pending, wk.pos) == r.mem[EntryOf(r, wk)].status;
    }
    EntriesKept(s.fs, s'.fs, s.made, s'.made, p, n, r.mem);
    WorkersKept(s, r, w, wk', s'.fs, s'.made, p, n, e);
  }

  // --- steps of worker_loop -------------------------------------------------------------------

  /** Stages that rely on no file. */
  predicate Idle(wk: Worker) {
    !wk.Silencing? && !wk.CopyingIn? && !wk.Speaking? && !wk.Persisted? && !wk.Storing? && !wk.Linking? &&
    !wk.CopyingOut? && !wk.Finished?
  }

  lemma {:induction false} LoopShape(s: State, r: Run, a: Act)
    requires LoopAct(a) && s.fs.Valid() && WorkerEnabled(s, r, a)
    ensures var r' := WorkerStep(s, r, a);
            r'.pending == r.pending && r'.workers == r.workers[a.w := r'.workers[a.w]]
  {
    hide IsValidWav;
  }

  lemma {:induction false} LoopSeat(s: State, r: Run, a: Act)
    requires LoopAct(a) && s.fs.Valid() && a.w < |r.workers| && WorkerEnabled(s, r, a)
    ensures var wk, wk' := r.workers[a.w], WorkerStep(s, r, a).workers[a.w];
            Owner(wk') ==> if Owner(wk) then wk'.pos == wk.pos
                           else wk'.pos == r.next < |r.pending| && r.pending[r.next] < |r.mem|
  {
    hide IsValidWav, CanCopy, Placeholder;
  }

  lemma {:induction false} LoopIsIdle(s: State, r: Run, a: Act)
    requires LoopAct(a) && s.fs.Valid() && a.w < |r.workers| && WorkerEnabled(s, r, a)
    ensures Idle(WorkerStep(s, r, a).workers[a.w]) && (r.workers[a.w].CopyingOut? ==> a.Raise?)
  {
    hide IsValidWav, CanCopy, Placeholder;
  }

  lemma {:induction false} LoopMarks(s: State, r: Run, a: Act)
    requires LoopAct(a) && s.fs.Valid() && WorkerEnabled(s, r, a)
    ensures var r', wk := WorkerStep(s, r, a), r.workers[a.w];
            && (a.Mark? ==> wk.Finished? && r'.mem == r.mem[EntryOf(r, wk) := Entry(HashOf(r, wk), wk.status)])
            && (!a.Mark? ==> r'.mem == r.mem)
  {
    hide IsValidWav;
  }

  lemma {:induction false} IdleIsGood(fs: FileSystem, made: Audio, r: Run, r': Run, w: nat)
    requires fs.Valid() && WorkersGood(fs, made, r)
    requires w < |r.workers| == |r'.workers| && r'.workers == r.workers[w := r'.workers[w]]
    requires Idle(r'.workers[w]) && r'.pending == r.pending && |r'.mem| == |r.mem|
    requires forall i | 0 <= i < |r.mem| :: r'.mem[i].hash == r.mem[i].hash
    requires Owner(r'.workers[w]) ==> r'.workers[w].pos < |r.pending| && r.pending[r'.workers[w].pos] < |r.mem|
    ensures WorkersGood(fs, made, r')
  {
    hide Good, CopyGood, Silence;
    forall v | 0 <= v < |r.workers| ensures WorkerGood(fs, made, r', r'.workers[v]) {
      WorkerOf(fs, made, r, v);
    }
  }

  lemma {:induction false} LoopKeepsPhase(s: State, r: Run, a: Act)
    requires LoopAct(a) && s.phase == Running(r) && s.fs.Valid() && WorkerEnabled(s, r, a)
    requires EntriesGood(s.fs, s.made, r.mem) && WorkersGood(s.fs, s.made, r)
    ensures EntriesGood(s.fs, s.made, WorkerStep(s, r, a).mem) && WorkersGood(s.fs, s.made, WorkerStep(s, r, a))
  {
    hide IsValidWav, Good, WorkerStep, WorkersGood, CopyGood, Silence;
    ActsInPlace(s, r, a);
    LoopShape(s, r, a);
    LoopSeat(s, r, a);
    LoopIsIdle(s, r, a);
    LoopMarks(s, r, a);
    WorkerOf(s.fs, s.made, r, a.w);
    IdleIsGood(s.fs, s.made, r, WorkerStep(s, r, a), a.w);
  }

  lemma {:induction false} LoopFiles(s: State, r: Run, a: Act)
    requires LoopAct(a) && s.fs.Valid() && WorkerEnabled(s, r, a)
    ensures WorkerFiles(s, r, a) == s.fs && WorkerMade(s, r, a) == s.made
  {
    hide IsValidWav;
  }

  /** A worker that leaves a copy behind leaves it half done in the cache, unless another is copying there. */
  lemma {:induction false} LeavingKeepsCache(s: State, s': State, w: nat)
    requires s.phase.Running? && s'.phase.Running? && s'.others == s.others && s'.fs == s.fs && s'.made == s.made
    requires s.fs.Valid() && CacheGood(s) && w < |s.phase.run.workers|
    requires |s'.phase.run.workers| == |s.phase.run.workers|
    requires forall v | 0 <= v < |s.phase.run.workers| && v != w :: s'.phase.run.workers[v] == s.phase.run.workers[v]
    requires var wk := s.phase.run.workers[w]; wk.CopyingOut? ==> !LeftBehind(s, wk.copy, Some(w), None)
    ensures CacheGood(s')
  {
    hide Good, Copying;
    forall k | s'.fs.Exists(CacheFile(k))
      ensures Good(s'.fs, s'.made, CacheFile(k), k) || Copying(s', s'.fs.dir[CacheFile(k)], k)
    {
      var m := s.fs.dir[CacheFile(k)];
      if Copying(s, m, k) {
        if OwnCopying(s, w, m, k) {
          OtherIsCopying(s, s', w, m, k);
        } else {
          CopyingKept(s, s', w, m, k);
        }
      }
    }
  }

  lemma {:induction false} OtherIsCopying(s: State, s': State, w: nat, n: nat, key: string)
    requires s.phase.Running? && s'.phase.Running? && s'.others == s.others
    requires |s'.phase.run.workers| == |s.phase.run.workers|
    requires forall v | 0 <= v < |s.phase.run.workers| && v != w :: s'.phase.run.workers[v] == s.phase.run.workers[v]
    requires OwnCopying(s, w, n, key) && Leads(s.fs, CacheFile(key), n)
    requires !LeftBehind(s, s.phase.run.workers[w].copy, Some(w), None)
    ensures Copying(s', n, key)
  {
    if v: nat :| OwnCopying(s, v, n, key) && v != w {
      assert OwnCopying(s', v, n, key);
    } else {
      var id: nat :| ForeignCopying(s, id, n, key);
      assert ForeignCopying(s', id, n, key);
    }
  }

  // --- steps of the rest of the system ----------------------------------------------------------

  /** They touch no chunk file of this job. */
  predicate Elsewhere(a: Act) {
    a.Evict? || a.ForeignPersist? || a.ForeignPut? || a.ForeignBeginCopy? || a.ForeignEndCopy? || a.ForeignLeave? ||
    a.ForeignGet? || a.ForeignFill? || a.ForeignSilence?
  }

  const ELSEWHERE: Path := ChunkFile(JOB + 1, 0)

  /** The step changes the path `p`, no chunk file of this job, and the inode `n` only; `id` is the copy that
      it begins, ends or leaves. */
  ghost predicate Outside(s: State, s': State, p: Path, n: nat, id: Option<nat>) {
    && s.fs.Valid() && s'.fs.Valid() && Frame(s.fs, s'.fs, p, n) && s.made <= s'.made
    && (forall i :: OwnChunk(i) != p)
    && s'.phase == s.phase && s'.disk == s.disk
    && !Relied(s, n, None, id, if p.CacheFile? then Some(p.key) else None)
    && (forall i | i in s'.others && Some(i) != id :: i in s.others && s'.others[i] == s.others[i])
    && (forall i | i in s.others && Some(i) != id :: i in s'.others)
    && (id.Some? && id.value in s'.others ==> CopyGood(s'.fs, s'.made, s'.others[id.value]))
    && (p.CacheFile? && s'.fs.Exists(p) ==> Good(s'.fs, s'.made, p, p.key) || Copying(s', s'.fs.dir[p], p.key))
    && (id.Some? && id.value in s.others ==>
          var c := s.others[id.value];
          Leads(s'.fs, CacheFile(c.key), c.dst) && CacheFile(c.key) != p ==>
            Good(s'.fs, s'.made, CacheFile(c.key), c.key) || Copying(s', c.dst, c.key))
  }

  lemma {:induction false} EvictEffect(s: State, a: Act)
    requires s.fs.Valid() && Sound(s) && Enabled(s, a) && a.Evict?
    ensures Outside(s, Step(s, a), CacheFile(a.key), |s.fs.inodes|, None)
  {
    hide Sound, Relied, Frame, WorkerEnabled;
    UnlinkFrame(s.fs, CacheFile(a.key));
    NobodyReliesOnNew(s, None, None, Some(a.key));
  }

  lemma {:induction false} ForeignPersistEffect(s: State, a: Act)
    requires s.fs.Valid() && Sound(s) && Enabled(s, a) && (a.ForeignPersist? || a.ForeignFill?)
    ensures Outside(s, Step(s, a), a.p, |s.fs.inodes|, None)
  {
    hide Sound, Relied, Frame, WorkerEnabled;
    NobodyReliesOnNew(s, None, None, None);
    ReplaceFrame(s.fs, a.p, if a.ForeignPersist? then a.audio else a.bytes);
  }

  lemma {:induction false} ForeignGetEffect(s: State, a: Act)
    requires s.fs.Valid() && Sound(s) && Enabled(s, a) && a.ForeignGet?
    ensures Outside(s, Step(s, a), a.p, |s.fs.inodes|, None)
  {
    hide Sound, Relied, Frame, WorkerEnabled;
    NobodyReliesOnNew(s, None, None, None);
    LinkFrame(s.fs, CacheFile(a.key), a.p);
  }

  lemma {:induction false} ForeignPutEffect(s: State, a: Act)
    requires s.fs.Valid() && Sound(s) && Enabled(s, a) && a.ForeignPut?
    ensures Outside(s, Step(s, a), CacheFile(a.key), |s.fs.inodes|, None)
  {
    hide Sound, Relied, Frame, WorkerEnabled;
    LinkFrame(s.fs, a.p, CacheFile(a.key));
    NobodyReliesOnNew(s, None, None, Some(a.key));
  }

  lemma {:induction false} ForeignSilenceEffect(s: State, a: Act)
    requires s.fs.Valid() && Sound(s) && Enabled(s, a) && Careful(s, a) && a.ForeignSilence?
    ensures Outside(s, Step(s, a), a.p, Target(s.fs, a.p), None)
  {
    hide Sound, Relied, Frame, WorkerEnabled;
    OverwriteFrame(s.fs, a.p, a.bytes);
  }

  lemma {:induction false} ForeignBeginEffect(s: State, a: Act)
    requires s.fs.Valid() && Sound(s) && Enabled(s, a) && Careful(s, a) && a.ForeignBeginCopy?
    ensures Outside(s, Step(s, a), CacheFile(a.key), Target(s.fs, CacheFile(a.key)), Some(a.id))
  {
    hide Sound, Relied, Frame, WorkerEnabled;
    var cached := CacheFile(a.key);
    OverwriteFrame(s.fs, cached, a.junk);
    ReliedLess(s, Target(s.fs, cached), None, None, Some(a.key), Some(a.id));
    assert ForeignCopying(Step(s, a), a.id, Target(s.fs, cached), a.key);
  }

  lemma {:induction false} ForeignEndEffect(s: State, a: Act)
    requires s.fs.Valid() && Sound(s) && Enabled(s, a) && Careful(s, a) && a.ForeignEndCopy?
    ensures exists n :: Outside(s, Step(s, a), ELSEWHERE, n, Some(a.id))
  {
    hide Relied, CacheGood, ResumeSafe, PhaseGood, WorkerEnabled;
    var n := s.others[a.id].dst;
    WriteFrame(s.fs, n, a.result, ELSEWHERE);
    assert Outside(s, Step(s, a), ELSEWHERE, n, Some(a.id));
  }

  lemma {:induction false} ForeignLeaveEffect(s: State, a: Act)
    requires s.fs.Valid() && Sound(s) && Enabled(s, a) && Careful(s, a) && a.ForeignLeave?
    ensures Outside(s, Step(s, a), ELSEWHERE, |s.fs.inodes|, Some(a.id))
  {
    hide Sound, Relied, Frame, WorkerEnabled;
    NobodyReliesOnNew(s, None, Some(a.id), None);
    assert Frame(s.fs, s.fs, ELSEWHERE, |s.fs.inodes|) by { SameFrame(s.fs, ELSEWHERE); }
    var c := s.others[a.id];
    if Leads(s.fs, CacheFile(c.key), c.dst) {
      StillCopied(s, Step(s, a), a.id, c);
    }
  }

  lemma SameFrame(fs: FileSystem, p: Path)
    requires fs.Valid()
    ensures Frame(fs, fs, p, |fs.inodes|)
  {
  }

  lemma {:induction false} StillCopied(s: State, s': State, id: nat, c: Copy)
    requires Leads(s.fs, CacheFile(c.key), c.dst) && !LeftBehind(s, c, None, Some(id))
    requires s'.phase == s.phase && s'.others == s.others - {id}
    ensures Copying(s', c.dst, c.key)
  {
    if v: nat :| OwnCopying(s, v, c.dst, c.key) {
      assert OwnCopying(s', v, c.dst, c.key);
    } else {
      var i: nat :| ForeignCopying(s, i, c.dst, c.key) && i != id;
      assert ForeignCopying(s', i, c.dst, c.key);
    }
  }

  lemma {:induction false} OutsideEffect(s: State, a: Act)
    requires s.fs.Valid() && Sound(s) && Enabled(s, a) && Careful(s, a) && Elsewhere(a)
    ensures exists p, n, id :: Outside(s, Step(s, a), p, n, id)
  {
    hide Sound, Outside, Careful, Enabled, Step;
    match a
    case Evict(_) => EvictEffect(s, a);
    case ForeignPut(_, _) => ForeignPutEffect(s, a);
    case ForeignBeginCopy(_, _, _, _) => ForeignBeginEffect(s, a);
    case ForeignEndCopy(_, _) => ForeignEndEffect(s, a);
    case ForeignLeave(_) => ForeignLeaveEffect(s, a);
    case ForeignGet(_, _) => ForeignGetEffect(s, a);
    case ForeignSilence(_, _) => ForeignSilenceEffect(s, a);
    case _ => ForeignPersistEffect(s, a);
  }

  lemma {:induction false} OutsideKeepsCopies(s: State, s': State, p: Path, n: nat, id: Option<nat>)
    requires Outside(s, s', p, n, id) && OthersGood(s.fs, s.made, s.others)
    ensures OthersGood(s'.fs, s'.made, s'.others)
  {
    hide Frame, CopyGood, CacheRelies, PhaseRelies, EntriesRely, Copying, Good;
    OthersKept(s.fs, s'.fs, s.made, s'.made, p, n, s.others, id);
    forall i | i in s'.others ensures CopyGood(s'.fs, s'.made, s'.others[i]) {
    }
  }

  lemma {:induction false} OutsideKeepsCache(s: State, s': State, p: Path, n: nat, id: Option<nat>)
    requires Outside(s, s', p, n, id) && CacheGood(s)
    ensures CacheGood(s')
  {
    hide Frame, CopyGood, CacheRelies, PhaseRelies, OthersRely, EntriesRely, Copying, Good;
    CacheKept(s, s'.fs, s'.made, p, n, if p.CacheFile? then Some(p.key) else None);
    forall k | s'.fs.Exists(CacheFile(k))
      ensures Good(s'.fs, s'.made, CacheFile(k), k) || Copying(s', s'.fs.dir[CacheFile(k)], k)
    {
      var m := s'.fs.dir[CacheFile(k)];
      if CacheFile(k) != p && !Good(s'.fs, s'.made, CacheFile(k), k) {
        assert Copying(s, m, k);
        OutsideCopying(s, s', id, m, k);
      }
    }
  }

  /** A copy under way stays so, but for the one the step is about. */
  lemma {:induction false} OutsideCopying(s: State, s': State, id: Option<nat>, n: nat, key: string)
    requires s'.phase == s.phase && Copying(s, n, key)
    requires forall i | i in s.others && Some(i) != id :: i in s'.others
    requires forall i | i in s'.others && Some(i) != id :: i in s.others && s'.others[i] == s.others[i]
    ensures Copying(s', n, key) || (id.Some? && ForeignCopying(s, id.value, n, key))
  {
    if v: nat :| OwnCopying(s, v, n, key) {
      assert OwnCopying(s', v, n, key);
    } else {
      var i: nat :| ForeignCopying(s, i, n, key);
      if Some(i) != id {
        assert ForeignCopying(s', i, n, key);
      }
    }
  }

  /** This job's files are left alone. */
  lemma {:induction false} OutsideKeepsEntries(s: State, s': State, p: Path, n: nat, id: Option<nat>,
                                               entries: seq<Entry>)
    requires Outside(s, s', p, n, id) && EntriesGood(s.fs, s.made, entries) && !EntriesRely(s.fs, entries, n)
    ensures EntriesGood(s'.fs, s'.made, entries)
  {
    hide Frame, CopyGood, Relied, EntriesRely, Copying, Good;
    EntriesKept(s.fs, s'.fs, s.made, s'.made, p, n, entries);
  }

  lemma {:induction false} OutsideKeepsPhase(s: State, s': State, p: Path, n: nat, id: Option<nat>)
    requires Outside(s, s', p, n, id) && PhaseGood(s.fs, s.made, s.phase)
    ensures PhaseGood(s'.fs, s'.made, s'.phase)
  {
    hide Frame, CopyGood, CacheRelies, OthersRely, EntriesRely, Copying, Good, EntriesGood, StageGood, WorkerRelies;
    match s.phase
    case Idle =>
    case Loaded(entries, _) => OutsideKeepsEntries(s, s', p, n, id, entries);
    case Running(r) =>
      OutsideKeepsEntries(s, s', p, n, id, r.mem);
      forall w | 0 <= w < |r.workers| ensures WorkerGood(s'.fs, s'.made, r, r.workers[w]) {
        WorkerOf(s.fs, s.made, r, w);
        StageKept(s.fs, s'.fs, s.made, s'.made, p, n, r, r.workers[w]);
      }
  }

  lemma {:induction false} ForeignIsSound(s: State, a: Act)
    requires s.fs.Valid() && Sound(s) && Enabled(s, a) && Careful(s, a) && Elsewhere(a)
    ensures Sound(Step(s, a))
  {
    hide CacheGood, OthersGood, PhaseGood, EntriesGood, Enabled, Careful, Step;
    hide Frame, CopyGood, CacheRelies, OthersRely, EntriesRely, PhaseRelies, Copying, Good;
    OutsideEffect(s, a);
    var p, n, id :| Outside(s, Step(s, a), p, n, id);
    var s' := Step(s, a);
    OutsideKeepsCopies(s, s', p, n, id);
    OutsideKeepsCache(s, s', p, n, id);
    OutsideKeepsPhase(s, s', p, n, id);
    if s.disk.Some? {
      OutsideKeepsEntries(s, s', p, n, id, s.disk.value);
    }
  }

  // --- all steps ------------------------------------------------------------------------------

  lemma {:induction false} ReloadIsGood(fs: FileSystem, made: Audio, prev: seq<Entry>, hashes: seq<string>)
    requires fs.Valid() && EntriesGood(fs, made, prev)
    ensures EntriesGood(fs, made, Reload(fs, prev, hashes))
  {
    hide Good, IsValidWav;
  }

  /** An image of the manifest in memory claims no more than that does. */
  lemma {:induction false} ImageIsGood(fs: FileSystem, made: Audio, r: Run, disk: seq<Entry>)
    requires fs.Valid() && EntriesGood(fs, made, r.mem) && Image(r, disk, |r.workers|)
    ensures EntriesGood(fs, made, disk)
  {
    hide Good, HeldByOther;
  }

  lemma {:induction false} RunIsControlled(s: State)
    requires Consistent(s) && s.phase.Running?
    ensures var r := s.phase.run;
            && s.disk.Some? && Control(r, s.disk.value) && Apart(r.workers) && Shape(r) && Marks(r)
            && Image(r, s.disk.value, |r.workers|)
  {
    hide Apart, Shape, Marks, Image;
  }

  lemma {:induction false} OwnStep(s: State, a: Act)
    requires s.fs.Valid() && Enabled(s, a) && OwnAct(a)
    ensures var s', r := Step(s, a), s.phase.run;
            && s.phase.Running? && WorkerEnabled(s, r, a)
            && s'.fs == WorkerFiles(s, r, a) && s'.made == WorkerMade(s, r, a) && s'.others == s.others
            && s'.phase == Running(WorkerStep(s, r, a)) && (!a.Write? ==> s'.disk == s.disk)
  {
    hide WorkerEnabled, WorkerFiles, WorkerMade, WorkerStep;
  }

  lemma {:induction false} ChunkIsSound(s: State, a: Act)
    requires s.fs.Valid() && Sound(s) && Consistent(s) && Enabled(s, a) && Careful(s, a) && ChunkAct(a)
    ensures var s' := Step(s, a);
            CacheGood(s') && OthersGood(s'.fs, s'.made, s'.others) && PhaseGood(s'.fs, s'.made, s'.phase)
  {
    hide Consistent, Careful, WorkerEnabled, WorkerFiles, WorkerMade, Advance, CacheGood, OthersGood, EntriesGood;
    hide Step, Apart, Shape, Marks, Image, Control, Moves, StageGood;
    OwnStep(s, a);
    RunIsControlled(s);
    var r := s.phase.run;
    ChunkUnmarked(s, r, a);
    WorkerOf(s.fs, s.made, r, a.w);
    ChunkEffect(s, r, a);
    var p, n :| Effect(s, r, a, p, n);
    MoveIsSound(s, r, a.w, Advance(s, r, a), p, n, Step(s, a), WorkerStep(s, r, a).engine);
  }

  lemma {:induction false} LoopIsSound(s: State, a: Act)
    requires s.fs.Valid() && Sound(s) && Consistent(s) && Enabled(s, a) && Careful(s, a) && LoopAct(a)
    ensures var s' := Step(s, a);
            CacheGood(s') && OthersGood(s'.fs, s'.made, s'.others) && PhaseGood(s'.fs, s'.made, s'.phase)
  {
    hide Consistent, WorkerEnabled, WorkerFiles, WorkerMade, WorkerStep, Step, LeftBehind;
    hide CacheGood, OthersGood, EntriesGood, WorkersGood;
    OwnStep(s, a);
    var r := s.phase.run;
    LoopFiles(s, r, a);
    LoopKeepsPhase(s, r, a);
    ActsInPlace(s, r, a);
    LoopShape(s, r, a);
    LoopIsIdle(s, r, a);
    LeavingKeepsCache(s, Step(s, a), a.w);
  }

  lemma {:induction false} OwnIsSound(s: State, a: Act)
    requires s.fs.Valid() && Sound(s) && Consistent(s) && Enabled(s, a) && Careful(s, a) && OwnAct(a)
    ensures Sound(Step(s, a))
  {
    hide Sound, Consistent, Careful, Enabled, CacheGood, OthersGood, EntriesGood, WorkersGood, Step, Control, Image;
    if ChunkAct(a) {
      ChunkIsSound(s, a);
    } else {
      LoopIsSound(s, a);
    }
    OwnStep(s, a);
    var s' := Step(s, a);
    StepIsConsistent(s, a);
    RunIsControlled(s');
    ImageIsGood(s'.fs, s'.made, s'.phase.run, s'.disk.value);
    SoundIs(s');
  }

  lemma SoundIs(s: State)
    requires ResumeSafe(s) && CacheGood(s) && OthersGood(s.fs, s.made, s.others) && PhaseGood(s.fs, s.made, s.phase)
    ensures Sound(s)
  {
  }

  lemma {:induction false} CacheStaysGood(s: State, s': State)
    requires s.fs.Valid() && CacheGood(s) && s'.fs == s.fs && s'.made == s.made
    requires forall key, n | Leads(s.fs, CacheFile(key), n) && Copying(s, n, key) :: Copying(s', n, key)
    ensures CacheGood(s')
  {
    hide Good, Copying;
  }

  /** Steps of the run as a whole, and of nobody. */
  predicate Overall(a: Act) {
    !OwnAct(a) && !Elsewhere(a)
  }

  lemma {:induction false} CrashKeepsCopying(s: State, key: string, n: nat)
    requires s.fs.Valid() && Careful(s, Crash) && Leads(s.fs, CacheFile(key), n) && Copying(s, n, key)
    ensures Copying(Step(s, Crash), n, key)
  {
    assert !NewlyLeft(s, key, n);
    var id: nat :| ForeignCopying(s, id, n, key);
    assert ForeignCopying(Step(s, Crash), id, n, key);
  }

  lemma {:induction false} OverallKeepsCopying(s: State, a: Act, key: string, n: nat)
    requires s.fs.Valid() && Enabled(s, a) && Overall(a) && a != Crash && Copying(s, n, key)
    ensures Copying(Step(s, a), n, key)
  {
    hide IsValidWav, WorkerEnabled, Reload, PendingOf;
    var s' := Step(s, a);
    if id: nat :| ForeignCopying(s, id, n, key) {
      assert ForeignCopying(s', id, n, key);
    } else {
      var v: nat :| OwnCopying(s, v, n, key);
      assert OwnCopying(s', v, n, key);
    }
  }

  lemma {:induction false} OverallKeepsFiles(s: State, a: Act)
    requires s.fs.Valid() && Enabled(s, a) && Overall(a)
    ensures var s' := Step(s, a); s'.fs == s.fs && s'.made == s.made && s'.others == s.others
  {
    hide IsValidWav, WorkerEnabled, Reload;
  }

  lemma {:induction false} OverallIsSound(s: State, a: Act)
    requires s.fs.Valid() && Sound(s) && Consistent(s) && Enabled(s, a) && Careful(s, a) && Overall(a)
    ensures Sound(Step(s, a))
  {
    hide CacheGood, OthersGood, Careful, Copying, Leads;
    OverallKeepsFiles(s, a);
    forall key, n: nat | Leads(s.fs, CacheFile(key), n) && Copying(s, n, key) ensures Copying(Step(s, a), n, key) {
      if a == Crash {
        CrashKeepsCopying(s, key, n);
      } else {
        OverallKeepsCopying(s, a, key, n);
      }
    }
    CacheStaysGood(s, Step(s, a));
    OverallKeepsPhase(s, a);
  }

  lemma {:induction false} OverallKeepsPhase(s: State, a: Act)
    requires s.fs.Valid() && Sound(s) && Consistent(s) && Enabled(s, a) && Overall(a)
    ensures var s' := Step(s, a); ResumeSafe(s') && PhaseGood(s'.fs, s'.made, s'.phase)
  {
    hide CacheGood, OthersGood, EntriesGood, IsValidWav, Image, Shape, Seats, Apart, Marks, Log, Reload;
    match a
    case Load(hashes, readable, _) =>
      EmptyIsGood(s.fs, s.made);
      ReloadIsGood(s.fs, s.made, if s.disk.Some? && readable then s.disk.value else [], hashes);
    case _ =>
  }

  lemma EmptyIsGood(fs: FileSystem, made: Audio)
    requires fs.Valid()
    ensures EntriesGood(fs, made, [])
  {
  }

  /** Every careful step keeps the invariant. */
  lemma {:induction false} StepIsSound(s: State, a: Act)
    requires s.fs.Valid() && Sound(s) && Consistent(s) && Enabled(s, a) && Careful(s, a)
    ensures Sound(Step(s, a))
  {
    hide Sound, Consistent, Enabled, Careful, Step;
    if OwnAct(a) {
      OwnIsSound(s, a);
    } else if Elsewhere(a) {
      ForeignIsSound(s, a);
    } else {
      OverallIsSound(s, a);
    }
  }

  // --- crash-safe resume -----------------------------------------------------------------

  ghost predicate CarefulRun(start: State, acts: seq<Act>)
    requires start.fs.Valid() && LegalRun(start, acts)
  {
    acts == [] ||
    (CarefulRun(start, acts[..|acts| - 1]) && Careful(After(start, acts[..|acts| - 1]), acts[|acts| - 1]))
  }

  /** Nothing was ever synthesised. */
  predicate Blank(s: State) {
    s.fs == FileSystem(map[], []) && s.disk == None && s.phase.Idle? && s.others == map[]
  }

  lemma BlankIsSound(s: State)
    requires Blank(s)
    ensures Sound(s)
  {
  }

  lemma {:induction false} RunIsSound(start: State, acts: seq<Act>)
    requires Blank(start) && LegalRun(start, acts) && CarefulRun(start, acts)
    ensures Sound(After(start, acts))
    decreases |acts|
  {
    hide Step, Enabled, Careful, Sound;
    if acts == [] {
      BlankIsSound(start);
    } else {
      RunIsSound(start, acts[..|acts| - 1]);
      RunIsConsistent(start, acts[..|acts| - 1]);
      StepIsSound(After(start, acts[..|acts| - 1]), acts[|acts| - 1]);
    }
  }

  /** After any number of runs, with any chunk texts, each cut short anywhere, that write nothing in place
      which somebody relies on and neither take half-copied files from the cache nor leave any there: an
      entry the manifest on disk marks done has a chunk file, and that holds exactly audio made for the
      entry's hash. So does every cache file for its key, unless it is being copied. */
  lemma {:induction false} CrashSafeResume(start: State, acts: seq<Act>)
    requires Blank(start) && LegalRun(start, acts) && CarefulRun(start, acts)
    ensures var s := After(start, acts);
            && (s.disk.Some? ==>
                  forall i: nat | i < |s.disk.value| && s.disk.value[i].status == Done ::
                    s.fs.Exists(OwnChunk(i)) && (s.disk.value[i].hash, s.fs.Read(OwnChunk(i))) in s.made)
            && (forall key | s.fs.Exists(CacheFile(key)) && !Copying(s, s.fs.dir[CacheFile(key)], key) ::
                  (key, s.fs.Read(CacheFile(key))) in s.made)
  {
    hide Step, Enabled, Careful, OthersGood, PhaseGood, Copying;
    RunIsSound(start, acts);
  }
}
