/** `_synth_one` as it runs for one chunk (`src/narrator/pipeline/synth.py`), undisturbed by others. Every
    point at which it can be interrupted is a step of the machine in `Synth`, so what is proved there for
    all interleavings holds of it. */
module SynthOne {
  import opened Wrappers
  import opened Files
  import opened Synth
  import opened SynthRuns
  import Cache

  /** What the engine answers: audio; that it cannot speak the text, and then perhaps audio for the text
      cleaned harder; an error worth another attempt; or an error that is not. */
  datatype Reply = Audio(bytes: Bytes) | Unspeakable(again: Option<Bytes>) | Retryable | Down

  datatype Result = Skipped | Hit | Voiced(audio: Bytes) | Recovered(audio: Bytes) | Gone | Raised

  /** The first answer that ends the attempts. */
  function FirstAnswer(replies: seq<Reply>): (k: nat)
    ensures k <= |replies| && (k < |replies| ==> !replies[k].Retryable?)
    ensures forall j | 0 <= j < k :: replies[j].Retryable?
  {
    if replies == [] || !replies[0].Retryable? then 0 else 1 + FirstAnswer(replies[1..])
  }

  function ResultOf(reply: Reply): Result
    requires !reply.Retryable?
  {
    match reply
    case Audio(bytes) => Voiced(bytes)
    case Unspeakable(again) => if again.Some? then Recovered(again.value) else Gone
    case Down => Raised
  }

  /** What becomes of a chunk. */
  function Outcome(skip: bool, cached: bool, replies: seq<Reply>): Result {
    if skip then Skipped
    else if cached then Hit
    else if FirstAnswer(replies) == |replies| then Gone
    else ResultOf(replies[FirstAnswer(replies)])
  }

  /** Worker `w` has entry `i`, whose hash is `hash`. */
  predicate At(s: State, w: nat, i: nat, hash: string) {
    && s.fs.Valid() && s.phase.Running? && w < |s.phase.run.workers|
    && var r := s.phase.run;
       Owner(r.workers[w]) && r.workers[w].pos < |r.pending| && r.pending[r.workers[w].pos] == i &&
       i < |r.mem| && r.mem[i].hash == hash
  }

  function Stage(s: State, w: nat): Worker
    requires s.phase.Running? && w < |s.phase.run.workers|
  {
    s.phase.run.workers[w]
  }

  // --- single steps ----------------------------------------------------------------------

  /** After the step the worker stands at `wk` with the same entry, and the files are `fs`. */
  predicate Goes(s: State, a: Act, w: nat, i: nat, hash: string, wk: Worker, fs: FileSystem)
    requires s.fs.Valid()
  {
    Enabled(s, a) && At(Step(s, a), w, i, hash) && Stage(Step(s, a), w) == wk && Step(s, a).fs == fs
  }

  lemma {:induction false} SilenceGoes(s: State, w: nat, i: nat, hash: string, status: Status, junk: Bytes)
    requires At(s, w, i, hash) && Stage(s, w).Working?
    requires status == Failed || (status == Done && Stage(s, w).tries == 0)
    ensures Goes(s, BeginSilence(w, status, junk), w, i, hash, Silencing(Stage(s, w).pos, status, junk),
                 s.fs.Overwrite(OwnChunk(i), junk))
  {
    hide IsValidWav;
  }

  lemma {:induction false} SilenceEnds(s: State, w: nat, i: nat, hash: string)
    requires At(s, w, i, hash) && Stage(s, w).Silencing? && s.fs.Exists(OwnChunk(i))
    ensures var wk := Stage(s, w);
            Goes(s, EndSilence(w, Placeholder(wk.status)), w, i, hash, Finished(wk.pos, wk.status),
                 s.fs.Overwrite(OwnChunk(i), Placeholder(wk.status)))
  {
    hide IsValidWav, Silence;
  }

  lemma {:induction false} DropGoes(s: State, w: nat, i: nat, hash: string)
    requires At(s, w, i, hash) && Stage(s, w).Working? && Stage(s, w).tries == 0
    requires s.fs.Exists(CacheFile(hash)) && IsValidWav(s.fs.Read(CacheFile(hash)))
    ensures Goes(s, DropForHit(w), w, i, hash, Fetching(Stage(s, w).pos), s.fs.Unlink(OwnChunk(i)))
  {
    hide IsValidWav;
  }

  lemma {:induction false} HitGoes(s: State, w: nat, i: nat, hash: string)
    requires At(s, w, i, hash) && Stage(s, w).Fetching? && s.fs.Exists(CacheFile(hash)) && !s.fs.Exists(OwnChunk(i))
    ensures Goes(s, LinkHit(w), w, i, hash, Finished(Stage(s, w).pos, Done), s.fs.Link(CacheFile(hash), OwnChunk(i)))
  {
    hide IsValidWav;
  }

  lemma {:induction false} CopyHitGoes(s: State, w: nat, i: nat, hash: string, junk: Bytes)
    requires At(s, w, i, hash) && Stage(s, w).Fetching? && CanCopy(s.fs, CacheFile(hash), OwnChunk(i))
    ensures Goes(s, BeginCopyHit(w, junk), w, i, hash,
                 CopyingIn(Stage(s, w).pos, s.fs.Read(CacheFile(hash)), s.fs.dir[CacheFile(hash)], junk),
                 s.fs.Overwrite(OwnChunk(i), junk))
  {
    hide IsValidWav;
  }

  lemma {:induction false} CopyHitEnds(s: State, w: nat, i: nat, hash: string)
    requires At(s, w, i, hash) && Stage(s, w).CopyingIn? && Stage(s, w).src < |s.fs.inodes| && s.fs.Exists(OwnChunk(i))
    ensures var wk := Stage(s, w);
            Goes(s, EndCopyHit(w, wk.audio), w, i, hash, Finished(wk.pos, Done), s.fs.Overwrite(OwnChunk(i), wk.audio))
  {
    hide IsValidWav;
  }

  lemma {:induction false} RetryGoes(s: State, w: nat, i: nat, hash: string)
    requires At(s, w, i, hash) && Stage(s, w).Working? && Stage(s, w).tries < MAX_CHUNK_ATTEMPTS
    ensures Goes(s, Retry(w), w, i, hash, Working(Stage(s, w).pos, Stage(s, w).tries + 1), s.fs)
  {
    hide IsValidWav;
  }

  lemma {:induction false} SpeakGoes(s: State, w: nat, i: nat, hash: string, audio: Bytes, plain: bool)
    requires At(s, w, i, hash) && Stage(s, w).Working? && Stage(s, w).tries < MAX_CHUNK_ATTEMPTS
    ensures Goes(s, Speak(w, audio, plain), w, i, hash, Speaking(Stage(s, w).pos, audio, plain), s.fs)
  {
    hide IsValidWav;
  }

  lemma {:induction false} PersistGoes(s: State, w: nat, i: nat, hash: string)
    requires At(s, w, i, hash) && Stage(s, w).Speaking?
    ensures var wk := Stage(s, w);
            Goes(s, Persist(w), w, i, hash, Persisted(wk.pos, wk.plain), s.fs.Replace(OwnChunk(i), wk.audio))
  {
    hide IsValidWav;
  }

  predicate Stored(fs: FileSystem, hash: string)
    requires fs.Valid()
  {
    fs.Exists(CacheFile(hash)) && |fs.Read(CacheFile(hash))| > 0
  }

  lemma {:induction false} LookUpGoes(s: State, w: nat, i: nat, hash: string)
    requires At(s, w, i, hash) && Stage(s, w).Persisted?
    ensures var wk := Stage(s, w);
            Goes(s, LookUp(w), w, i, hash,
                 if !wk.plain || Stored(s.fs, hash) then Finished(wk.pos, Done) else Storing(wk.pos), s.fs)
  {
    hide IsValidWav;
  }

  lemma {:induction false} ClearGoes(s: State, w: nat, i: nat, hash: string)
    requires At(s, w, i, hash) && Stage(s, w).Storing?
    ensures Goes(s, ClearCache(w), w, i, hash, Linking(Stage(s, w).pos), s.fs.Unlink(CacheFile(hash)))
  {
    hide IsValidWav;
  }

  lemma {:induction false} StoreGoes(s: State, w: nat, i: nat, hash: string)
    requires At(s, w, i, hash) && Stage(s, w).Linking? && s.fs.Exists(OwnChunk(i)) && !s.fs.Exists(CacheFile(hash))
    ensures Goes(s, LinkStore(w), w, i, hash, Finished(Stage(s, w).pos, Done), s.fs.Link(OwnChunk(i), CacheFile(hash)))
  {
    hide IsValidWav;
  }

  lemma {:induction false} CopyStoreGoes(s: State, w: nat, i: nat, hash: string, junk: Bytes)
    requires At(s, w, i, hash) && Stage(s, w).Linking? && CanCopy(s.fs, OwnChunk(i), CacheFile(hash))
    ensures Goes(s, BeginCopyStore(w, junk), w, i, hash,
                 CopyingOut(Stage(s, w).pos, NewCopy(s.fs, OwnChunk(i), hash, junk)),
                 s.fs.Overwrite(CacheFile(hash), junk))
  {
    hide IsValidWav;
  }

  lemma {:induction false} CopyStoreEnds(s: State, w: nat, i: nat, hash: string)
    requires At(s, w, i, hash) && Stage(s, w).CopyingOut? && s.fs.Exists(OwnChunk(i))
    requires Stage(s, w).copy.dst < |s.fs.inodes|
    ensures var wk := Stage(s, w);
            Goes(s, EndCopyStore(w, wk.copy.audio), w, i, hash, Finished(wk.pos, Done),
                 s.fs.WriteInode(wk.copy.dst, wk.copy.audio))
  {
    hide IsValidWav;
  }

  lemma {:induction false} RaiseGoes(s: State, w: nat, i: nat, hash: string)
    requires At(s, w, i, hash) && Stage(s, w).Working?
    ensures Goes(s, Raise(w), w, i, hash, Dead(Stage(s, w).pos), s.fs)
  {
    hide IsValidWav;
  }

  // --- the chunk -----------------------------------------------------------------------------

  /** The chunk file holds `bytes`. */
  predicate Holds(fs: FileSystem, i: nat, bytes: Bytes) {
    fs.Valid() && fs.Exists(OwnChunk(i)) && fs.Read(OwnChunk(i)) == bytes
  }

  class Synthesizer {
    const w: nat       // the worker loop that runs it
    const i: nat       // the chunk
    const hash: string
    var world: State
    ghost var trace: seq<Act>

    constructor (w: nat, i: nat, hash: string, world: State)
      ensures this.w == w && this.i == i && this.hash == hash && this.world == world && trace == []
    {
      this.w, this.i, this.hash, this.world, this.trace := w, i, hash, world, [];
    }

    predicate Here()
      reads this
    {
      At(world, w, i, hash)
    }

    ghost predicate From(start: State)
      reads this
    {
      start.fs.Valid() && LegalRun(start, trace) && After(start, trace) == world
    }

    /** One step of the machine. */
    method Take(a: Act, ghost start: State, ghost wk: Worker, ghost fs: FileSystem)
      requires world.fs.Valid() && Goes(world, a, w, i, hash, wk, fs) && From(start)
      modifies this
      ensures Here() && Stage(world, w) == wk && world.fs == fs && From(start)
    {
      hide Step, Enabled, LegalRun, After;
      OneMore(start, trace, a);
      world := Step(world, a);
      trace := trace + [a];
    }

    /** `write_silence_wav`, which is not atomic: `junk` is what the file holds on the way. */
    method WriteSilence(status: Status, junk: Bytes, ghost start: State)
      requires Here() && From(start) && Stage(world, w).Working?
      requires status == Failed || (status == Done && Stage(world, w).tries == 0)
      modifies this
      ensures Here() && From(start) && Stage(world, w) == Finished(old(Stage(world, w)).pos, status)
      ensures Holds(world.fs, i, Placeholder(status))
    {
      hide Goes, LegalRun, After, Placeholder;
      SilenceGoes(world, w, i, hash, status, junk);
      ghost var pos := Stage(world, w).pos;
      Take(BeginSilence(w, status, junk), start, Silencing(pos, status, junk), world.fs.Overwrite(OwnChunk(i), junk));
      SilenceEnds(world, w, i, hash);
      Take(EndSilence(w, Placeholder(status)), start, Finished(pos, status),
           world.fs.Overwrite(OwnChunk(i), Placeholder(status)));
    }

    /** `cache.get` on a hit: the chunk file is linked, or copied when that fails. */
    method TakeFromCache(linkOk: bool, junk: Bytes, ghost start: State)
      requires Here() && From(start) && Stage(world, w).Working? && Stage(world, w).tries == 0
      requires world.fs.Exists(CacheFile(hash)) && IsValidWav(world.fs.Read(CacheFile(hash)))
      modifies this
      ensures Here() && From(start) && Stage(world, w) == Finished(old(Stage(world, w)).pos, Done)
      ensures Holds(world.fs, i, old(world.fs.Read(CacheFile(hash))))
    {
      hide Goes, LegalRun, After, IsValidWav;
      ghost var pos := Stage(world, w).pos;
      DropGoes(world, w, i, hash);
      Take(DropForHit(w), start, Fetching(pos), world.fs.Unlink(OwnChunk(i)));
      if linkOk {
        HitGoes(world, w, i, hash);
        Take(LinkHit(w), start, Finished(pos, Done), world.fs.Link(CacheFile(hash), OwnChunk(i)));
      } else {
        var audio := world.fs.Read(CacheFile(hash));
        CopyHitGoes(world, w, i, hash, junk);
        Take(BeginCopyHit(w, junk), start, CopyingIn(pos, audio, world.fs.dir[CacheFile(hash)], junk),
             world.fs.Overwrite(OwnChunk(i), junk));
        CopyHitEnds(world, w, i, hash);
        Take(EndCopyHit(w, audio), start, Finished(pos, Done), world.fs.Overwrite(OwnChunk(i), audio));
      }
    }

    /** `cache.put` when the cache lacks the key. */
    method Store(linkOk: bool, junk: Bytes, ghost start: State, ghost audio: Bytes)
      requires Here() && From(start) && Stage(world, w).Storing? && Holds(world.fs, i, audio)
      modifies this
      ensures Here() && From(start) && Stage(world, w) == Finished(old(Stage(world, w)).pos, Done)
      ensures Holds(world.fs, i, audio)
      ensures world.fs.Exists(CacheFile(hash)) && world.fs.Read(CacheFile(hash)) == audio
    {
      hide Goes, LegalRun, After;
      ghost var pos := Stage(world, w).pos;
      ClearGoes(world, w, i, hash);
      Take(ClearCache(w), start, Linking(pos), world.fs.Unlink(CacheFile(hash)));
      if linkOk {
        StoreGoes(world, w, i, hash);
        Take(LinkStore(w), start, Finished(pos, Done), world.fs.Link(OwnChunk(i), CacheFile(hash)));
      } else {
        var copy := NewCopy(world.fs, OwnChunk(i), hash, junk);
        CopyStoreGoes(world, w, i, hash, junk);
        Take(BeginCopyStore(w, junk), start, CopyingOut(pos, copy), world.fs.Overwrite(CacheFile(hash), junk));
        CopyStoreEnds(world, w, i, hash);
        Take(EndCopyStore(w, copy.audio), start, Finished(pos, Done), world.fs.WriteInode(copy.dst, copy.audio));
      }
    }

    /** `_persist_wav`, and for the plain text `cache.put`. */
    method Keep(audio: Bytes, plain: bool, linkOk: bool, junk: Bytes, ghost start: State)
      requires Here() && From(start) && Stage(world, w).Working? && Stage(world, w).tries < MAX_CHUNK_ATTEMPTS
      modifies this
      ensures Here() && From(start) && Stage(world, w) == Finished(old(Stage(world, w)).pos, Done)
      ensures Holds(world.fs, i, audio)
      ensures world.fs.Valid() && old(world.fs).Valid() && KeptInCache(old(world.fs), world.fs, hash, audio, plain)
    {
      hide Goes, LegalRun, After;
      ghost var pos := Stage(world, w).pos;
      SpeakGoes(world, w, i, hash, audio, plain);
      Take(Speak(w, audio, plain), start, Speaking(pos, audio, plain), world.fs);
      PersistGoes(world, w, i, hash);
      Take(Persist(w), start, Persisted(pos, plain), world.fs.Replace(OwnChunk(i), audio));
      LookUpGoes(world, w, i, hash);
      var store := plain && !Stored(world.fs, hash);
      Take(LookUp(w), start, if store then Storing(pos) else Finished(pos, Done), world.fs);
      if store {
        Store(linkOk, junk, start, audio);
      }
    }

    /** One answer of the engine: the chunk's end, or another attempt. */
    method Answer(reply: Reply, junk: Bytes, linkOk: bool, ghost start: State) returns (result: Option<Result>)
      requires Here() && From(start) && Stage(world, w).Working? && Stage(world, w).tries < MAX_CHUNK_ATTEMPTS
      modifies this
      ensures Here() && From(start)
      ensures result == if reply.Retryable? then None else Some(ResultOf(reply))
      ensures result == None ==>
                && world.fs == old(world.fs)
                && Stage(world, w) == old(Stage(world, w)).(tries := old(Stage(world, w)).tries + 1)
      ensures result.Some? ==>
                Ends(old(world.fs), world.fs, Stage(world, w), old(Stage(world, w)).pos, result.value, hash, i)
    {
      hide Goes, LegalRun, After, LinkOrCopy, IsValidWav, Silence, Holds, Stored, KeptInCache;
      ghost var pos := Stage(world, w).pos;
      match reply {
        case Audio(bytes) =>
          Keep(bytes, true, linkOk, junk, start);
          return Some(Voiced(bytes));
        case Unspeakable(again) =>
          if again.Some? {
            Keep(again.value, false, linkOk, junk, start);
            return Some(Recovered(again.value));
          }
          WriteSilence(Failed, junk, start);
          return Some(Gone);
        case Down =>
          RaiseGoes(world, w, i, hash);
          Take(Raise(w), start, Dead(pos), world.fs);
          return Some(Raised);
        case Retryable =>
          RetryGoes(world, w, i, hash);
          Take(Retry(w), start, Working(pos, Stage(world, w).tries + 1), world.fs);
          return None;
      }
    }

    /** The attempts of one chunk, `MAX_CHUNK_ATTEMPTS` at most. */
    method AskEngine(junk: Bytes, linkOk: bool, replies: seq<Reply>, ghost start: State)
      returns (result: Result, attempts: nat)
      requires Here() && From(start) && Stage(world, w).Working? && Stage(world, w).tries == 0
      requires |replies| == 6
      modifies this
      ensures Here() && From(start)
      ensures result == Outcome(false, false, replies)
      ensures Ends(old(world.fs), world.fs, Stage(world, w), old(Stage(world, w)).pos, result, hash, i)
      ensures attempts == if FirstAnswer(replies) == |replies| then |replies| else FirstAnswer(replies) + 1
    {
      hide Goes, LegalRun, After, Ends, ResultOf;
      attempts := 0;
      while attempts < MAX_CHUNK_ATTEMPTS
        invariant attempts <= MAX_CHUNK_ATTEMPTS && Here() && From(start)
        invariant Stage(world, w) == Working(old(Stage(world, w)).pos, attempts) && world.fs == old(world.fs)
        invariant forall j | 0 <= j < attempts :: replies[j].Retryable?
      {
        var answer := Answer(replies[attempts], junk, linkOk, start);
        attempts := attempts + 1;
        if answer.Some? {
          return answer.value, attempts;
        }
      }
      WriteSilence(Failed, junk, start);
      GoneEnds(old(world.fs), world.fs, Stage(world, w), hash, i);
      return Gone, attempts;
    }

    method SynthOne(skip: bool, junk: Bytes, linkOk: bool, replies: seq<Reply>) returns (result: Result, attempts: nat)
      requires Here() && Stage(world, w).Working? && Stage(world, w).tries == 0 && trace == []
      requires |replies| == 6
      modifies this
      // a legal run of the machine, by this worker
      ensures Here() && old(world).fs.Valid() && LegalRun(old(world), trace) && After(old(world), trace) == world
      // what becomes of the chunk
      ensures result == Outcome(skip, Cached(old(world.fs), hash), replies)
      ensures Ends(old(world.fs), world.fs, Stage(world, w), old(Stage(world, w)).pos, result, hash, i)
      // how often the engine was asked
      ensures attempts == if result.Skipped? || result.Hit? then 0
                          else if FirstAnswer(replies) == |replies| then |replies| else FirstAnswer(replies) + 1
    {
      hide Goes, LegalRun, After, LinkOrCopy, IsValidWav, Silence, Holds, Stored, KeptInCache;
      ghost var start := world;
      assert From(start) by { Nowhere(start); }
      attempts := 0;
      if skip {
        WriteSilence(Done, junk, start);
        result := Skipped;
      } else if Cached(world.fs, hash) {
        TakeFromCache(linkOk, junk, start);
        result := Hit;
      } else {
        result, attempts := AskEngine(junk, linkOk, replies, start);
      }
    }
  }

  /** The worker has its entry's status, and the files are what the result says. */
  predicate Ends(fs: FileSystem, fs': FileSystem, wk: Worker, pos: nat, result: Result, hash: string, i: nat)
    requires fs.Valid() && fs'.Valid()
  {
    && wk == (if result.Raised? then Dead(pos) else Finished(pos, if result.Gone? then Failed else Done))
    && match result
       case Skipped => Holds(fs', i, Silence(200))
       case Hit => Cached(fs, hash) && Holds(fs', i, fs.Read(CacheFile(hash)))
       case Voiced(audio) => Holds(fs', i, audio) && KeptInCache(fs, fs', hash, audio, true)
       case Recovered(audio) => Holds(fs', i, audio) && KeptInCache(fs, fs', hash, audio, false)
       case Gone => Holds(fs', i, Silence(300))
       case Raised => fs' == fs
  }

  lemma GoneEnds(fs: FileSystem, fs': FileSystem, wk: Worker, hash: string, i: nat)
    requires fs.Valid() && wk.Finished? && wk.status == Failed && Holds(fs', i, Silence(300))
    ensures Ends(fs, fs', wk, wk.pos, Gone, hash, i)
  {
  }

  predicate Cached(fs: FileSystem, hash: string)
    requires fs.Valid()
  {
    fs.Exists(CacheFile(hash)) && IsValidWav(fs.Read(CacheFile(hash)))
  }

  /** Audio of the plain text goes into the cache unless something is there. */
  predicate KeptInCache(fs: FileSystem, fs': FileSystem, hash: string, audio: Bytes, plain: bool)
    requires fs.Valid() && fs'.Valid()
  {
    if plain && !Stored(fs, hash) then
      fs'.Exists(CacheFile(hash)) && fs'.Read(CacheFile(hash)) == audio
    else
      (fs'.Exists(CacheFile(hash)) <==> fs.Exists(CacheFile(hash))) &&
      (fs.Exists(CacheFile(hash)) ==> fs'.Read(CacheFile(hash)) == fs.Read(CacheFile(hash)))
  }

  lemma Nowhere(s: State)
    requires s.fs.Valid()
    ensures LegalRun(s, []) && After(s, []) == s
  {
  }

  // --- the cache it uses ------------------------------------------------------------------

  /** Undisturbed, and with linking, the machine's steps of a hit do to the files what `get` does, and its
      look-up, clearing and link what `put` does. */
  lemma {:induction false} StepsAreGetAndPut(fs: FileSystem, index: map<string, Cache.Row>, hash: string, i: nat,
                                             now: int)
    requires fs.Valid()
    ensures Cached(fs, hash) ==>
              fs.Unlink(OwnChunk(i)).Exists(CacheFile(hash)) &&
              Cache.GetState(Cache.CacheState(fs, index), hash, OwnChunk(i), now, true).fs ==
              fs.Unlink(OwnChunk(i)).Link(CacheFile(hash), OwnChunk(i))
    ensures fs.Exists(OwnChunk(i)) ==>
              fs.Unlink(CacheFile(hash)).Exists(OwnChunk(i)) &&
              Cache.PutState(Cache.CacheState(fs, index), hash, OwnChunk(i), now, true).fs ==
              if Stored(fs, hash) then fs else fs.Unlink(CacheFile(hash)).Link(OwnChunk(i), CacheFile(hash))
  {
    hide IsValidWav;
  }
}
