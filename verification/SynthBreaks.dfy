/** Six legal runs after which a resumed job finds an entry done whose file is not its audio. */
module SynthBreaks {
  import opened Wrappers
  import opened Files
  import opened Synth
  import opened SynthRuns
  import opened SynthFiles

  // --- pieces of runs ------------------------------------------------------------------------------

  /** Each action leads from one state of the list to the next. */
  ghost predicate Chain(states: seq<State>, acts: seq<Act>) {
    |states| == |acts| + 1 &&
    forall k | 0 <= k < |acts| :: Goes(states[k], acts[k], states[k + 1])
  }

  predicate Goes(s: State, a: Act, s': State) {
    s.fs.Valid() && Enabled(s, a) && Step(s, a) == s'
  }

  lemma {:induction false} ChainRuns(states: seq<State>, acts: seq<Act>)
    requires Chain(states, acts) && states[0].fs.Valid()
    ensures LegalRun(states[0], acts) && After(states[0], acts) == states[|acts|]
    decreases |acts|
  {
    hide Step, Enabled;
    if acts != [] {
      var n := |acts| - 1;
      ChainRuns(states[..n + 1], acts[..n]);
      assert Goes(states[n], acts[n], states[n + 1]);
    }
  }

  /** Worker `w` of the run, at its place. */
  predicate Stands(s: State, r: Run, w: nat) {
    s.fs.Valid() && s.phase == Running(r) && w < |r.workers| && Placed(r, r.workers[w])
  }

  lemma {:induction false} GoesAcquire(s: State, r: Run, w: nat)
    requires Stands(s, r, w) && r.workers[w].Waiting? && r.dispatcher == None && !r.cancelled
    requires r.next < |r.pending| && r.pending[r.next] < |r.mem|
    ensures Goes(s, Acquire(w), s.(phase := Running(
                   SetWorker(r, w, Checking(r.next)).(next := r.next + 1, dispatcher := Some(w)))))
  {
    hide IsValidWav;
  }

  lemma {:induction false} GoesCheck(s: State, r: Run, w: nat)
    requires Stands(s, r, w) && r.workers[w].Checking? && !s.cancelFlag && !s.bulk
    ensures Goes(s, CheckCancel(w), s.(phase := Running(SetWorker(r, w, Cleared(r.workers[w].pos)))))
  {
    hide IsValidWav;
  }

  lemma {:induction false} GoesStart(s: State, r: Run, w: nat)
    requires Stands(s, r, w) && r.workers[w].Cleared?
    ensures var pos := r.workers[w].pos;
            Goes(s, Start(w), s.(phase := Running(
                   SetWorker(r, w, Working(pos, 0)).(dispatcher := None, started := r.started + [pos]))))
  {
    hide IsValidWav;
  }

  function Dispatch(w: nat): seq<Act> {
    [Acquire(w), CheckCancel(w), Start(w)]
  }

  function Dispatched(r: Run, w: nat): Run
    requires w < |r.workers|
  {
    SetWorker(r, w, Working(r.next, 0)).(next := r.next + 1, started := r.started + [r.next])
  }

  lemma {:induction false} DispatchRuns(s: State, r: Run, w: nat)
    requires Stands(s, r, w) && r.workers[w].Waiting? && r.dispatcher == None && !r.cancelled
    requires r.next < |r.pending| && r.pending[r.next] < |r.mem| && !s.cancelFlag && !s.bulk
    ensures LegalRun(s, Dispatch(w)) && After(s, Dispatch(w)) == s.(phase := Running(Dispatched(r, w)))
  {
    hide Goes, LegalRun, After;
    var r1 := SetWorker(r, w, Checking(r.next)).(next := r.next + 1, dispatcher := Some(w));
    var r2 := SetWorker(r1, w, Cleared(r.next));
    var s1, s2, s3 := s.(phase := Running(r1)), s.(phase := Running(r2)), s.(phase := Running(Dispatched(r, w)));
    GoesAcquire(s, r, w);
    GoesCheck(s1, r1, w);
    GoesStart(s2, r2, w);
    assert r2.workers[w := Working(r.next, 0)] == r.workers[w := Working(r.next, 0)];
    ChainRuns([s, s1, s2, s3], Dispatch(w));
  }

  lemma {:induction false} GoesMark(s: State, r: Run, w: nat)
    requires Stands(s, r, w) && r.workers[w].Finished?
    ensures var wk := r.workers[w];
            Goes(s, Mark(w), s.(phase := Running(SetWorker(r, w, Marked(wk.pos)).(
                   mem := r.mem[EntryOf(r, wk) := Entry(HashOf(r, wk), wk.status)]))))
  {
    hide IsValidWav;
  }

  lemma {:induction false} GoesSnapshot(s: State, r: Run, w: nat)
    requires Stands(s, r, w) && r.workers[w].Marked? && r.saver == None
    ensures Goes(s, Snapshot(w), s.(phase := Running(
                   SetWorker(r, w, Saving(r.workers[w].pos, r.mem)).(saver := Some(w)))))
  {
    hide IsValidWav;
  }

  lemma {:induction false} GoesWrite(s: State, r: Run, w: nat)
    requires Stands(s, r, w) && r.workers[w].Saving?
    ensures Goes(s, Write(w), s.(disk := Some(r.workers[w].snap),
                                 phase := Running(SetWorker(r, w, Publishing(r.workers[w].pos)))))
  {
    hide IsValidWav;
  }

  function Save(w: nat): seq<Act> {
    [Mark(w), Snapshot(w), Write(w)]
  }

  function Saved(r: Run, w: nat, mem: seq<Entry>): Run
    requires w < |r.workers| && Owner(r.workers[w])
  {
    SetWorker(r, w, Publishing(r.workers[w].pos)).(mem := mem, saver := Some(w))
  }

  lemma {:induction false} SaveRuns(s: State, r: Run, w: nat, mem: seq<Entry>)
    requires Stands(s, r, w) && r.workers[w].Finished? && r.saver == None
    requires mem == r.mem[EntryOf(r, r.workers[w]) := Entry(HashOf(r, r.workers[w]), r.workers[w].status)]
    ensures LegalRun(s, Save(w))
    ensures After(s, Save(w)) == s.(disk := Some(mem), phase := Running(Saved(r, w, mem)))
  {
    hide Goes, LegalRun, After;
    var pos := r.workers[w].pos;
    var r1 := SetWorker(r, w, Marked(pos)).(mem := mem);
    var r2 := SetWorker(r1, w, Saving(pos, mem)).(saver := Some(w));
    var s1, s2 := s.(phase := Running(r1)), s.(phase := Running(r2));
    var s3 := s.(disk := Some(mem), phase := Running(Saved(r, w, mem)));
    GoesMark(s, r, w);
    GoesSnapshot(s1, r1, w);
    GoesWrite(s2, r2, w);
    assert r2.workers[w := Publishing(pos)] == r.workers[w := Publishing(pos)];
    ChainRuns([s, s1, s2, s3], Save(w));
  }

  // --- audio from the cache -------------------------------------------------------------------------

  const TODO: seq<Entry> := [Entry("a", Pending)]
  const DONE: seq<Entry> := [Entry("a", Done)]

  /** A run of one worker over one chunk that the cache has. */
  const TAKE: seq<Act> :=
    [Load(["a"], true, 1), Open] + Dispatch(0) + [DropForHit(0), LinkHit(0)] + Save(0)

  /** The cache has a file under "a", which looks like a wav whatever it is, and this job has none. */
  predicate Takeable(s: State) {
    && s.fs.Valid() && s.fs.Exists(CacheFile("a")) && IsValidWav(s.fs.Read(CacheFile("a"))) && !s.fs.Exists(OwnChunk(0))
    && s.disk == None && s.phase.Idle? && !s.bulk && !s.cancelFlag
  }

  function TakeRun(wk: Worker): Run {
    Run(TODO, TODO, [0], 1, [wk], None, None, false, [0], {})
  }

  lemma {:induction false} TakeOpens(s: State)
    requires s.fs.Valid() && s.disk == None && s.phase.Idle? && !s.fs.Exists(OwnChunk(0))
    ensures LegalRun(s, [Load(["a"], true, 1), Open])
    ensures After(s, [Load(["a"], true, 1), Open]) == s.(disk := Some(TODO), phase := Running(Opened(TODO, 1)))
    ensures Opened(TODO, 1) == Run(TODO, TODO, [0], 0, [Waiting], None, None, false, [], {})
  {
    hide IsValidWav;
    assert Reload(s.fs, [], ["a"]) == TODO;
    assert PendingOf(TODO) == [0] by {
      assert TODO[..0] == [];
    }
    assert Opened(TODO, 1).workers == [Waiting];
    var s1, s2 := s.(phase := Loaded(TODO, 1)), s.(disk := Some(TODO), phase := Running(Opened(TODO, 1)));
    assert Goes(s, Load(["a"], true, 1), s1) && Goes(s1, Open, s2);
    ChainRuns([s, s1, s2], [Load(["a"], true, 1), Open]);
  }

  lemma {:induction false} GoesDrop(s: State, r: Run, w: nat)
    requires Stands(s, r, w) && r.workers[w].Working? && r.workers[w].tries == 0
    requires var cached := CacheFile(HashOf(r, r.workers[w])); s.fs.Exists(cached) && IsValidWav(s.fs.Read(cached))
    requires !s.fs.Exists(OwnChunk(EntryOf(r, r.workers[w])))
    ensures Goes(s, DropForHit(w), s.(phase := Running(SetWorker(r, w, Fetching(r.workers[w].pos)))))
  {
    hide IsValidWav;
    var own := OwnChunk(EntryOf(r, r.workers[w]));
    assert s.fs.Unlink(own) == s.fs by {
      assert s.fs.dir - {own} == s.fs.dir;
    }
  }

  lemma {:induction false} GoesLinkHit(s: State, r: Run, w: nat)
    requires Stands(s, r, w) && r.workers[w].Fetching?
    requires s.fs.Exists(CacheFile(HashOf(r, r.workers[w]))) && !s.fs.Exists(OwnChunk(EntryOf(r, r.workers[w])))
    ensures var wk := r.workers[w];
            Goes(s, LinkHit(w), s.(fs := s.fs.Link(CacheFile(HashOf(r, wk)), OwnChunk(EntryOf(r, wk))),
                                   phase := Running(SetWorker(r, w, Finished(wk.pos, Done)))))
  {
    hide IsValidWav;
  }

  lemma {:induction false} TakeLinks(s: State)
    requires s.fs.Valid() && s.phase == Running(TakeRun(Working(0, 0))) && !s.fs.Exists(OwnChunk(0))
    requires s.fs.Exists(CacheFile("a")) && IsValidWav(s.fs.Read(CacheFile("a")))
    ensures LegalRun(s, [DropForHit(0), LinkHit(0)])
    ensures After(s, [DropForHit(0), LinkHit(0)]) ==
            s.(fs := s.fs.Link(CacheFile("a"), OwnChunk(0)), phase := Running(TakeRun(Finished(0, Done))))
  {
    hide Goes, LegalRun, After, IsValidWav;
    var r, r1 := TakeRun(Working(0, 0)), TakeRun(Fetching(0));
    var s1 := s.(phase := Running(r1));
    var s2 := s.(fs := s.fs.Link(CacheFile("a"), OwnChunk(0)), phase := Running(TakeRun(Finished(0, Done))));
    GoesDrop(s, r, 0);
    assert r.workers[0 := Fetching(0)] == [Fetching(0)];
    GoesLinkHit(s1, r1, 0);
    assert r1.workers[0 := Finished(0, Done)] == [Finished(0, Done)];
    ChainRuns([s, s1, s2], [DropForHit(0), LinkHit(0)]);
  }

  /** Whatever the cache holds under a key, if it looks like a wav, becomes the audio of a done entry. */
  lemma {:induction false} CachedBytesBecomeAudio(s: State)
    requires Takeable(s)
    ensures LegalRun(s, TAKE)
    ensures var s' := After(s, TAKE);
            && s'.disk == Some(DONE) && s'.made == s.made && s'.others == s.others
            && s'.fs == s.fs.Link(CacheFile("a"), OwnChunk(0))
  {
    hide Goes, LegalRun, After, IsValidWav;
    var acts := [Load(["a"], true, 1), Open];
    TakeOpens(s);
    var r := Opened(TODO, 1);
    DispatchRuns(After(s, acts), r, 0);
    Compose(s, acts, Dispatch(0));
    assert Dispatched(r, 0) == TakeRun(Working(0, 0)) by {
      assert r.workers[0 := Working(0, 0)] == [Working(0, 0)] && [] + [0] == [0];
    }
    TakeLinks(After(s, acts + Dispatch(0)));
    Compose(s, acts + Dispatch(0), [DropForHit(0), LinkHit(0)]);
    assert TODO[0 := Entry("a", Done)] == DONE;
    SaveRuns(After(s, acts + Dispatch(0) + [DropForHit(0), LinkHit(0)]), TakeRun(Finished(0, Done)), 0, DONE);
    Compose(s, acts + Dispatch(0) + [DropForHit(0), LinkHit(0)], Save(0));
  }

  const START: State := State(FileSystem(map[], []), None, {}, Phase.Idle, false, false, 0, map[])

  /** Another job's chunk, which the cache has too. */
  function Linked(audio: Bytes, content: Bytes): State {
    START.(fs := FileSystem(map[ELSEWHERE := 0, CacheFile("a") := 0], [content]), made := {("a", audio)})
  }

  function LinkScript(audio: Bytes): seq<Act> {
    [ForeignPersist(ELSEWHERE, "a", audio), ForeignPut(ELSEWHERE, "a")]
  }

  /** The other job has synthesised its chunk. */
  function Spoken(audio: Bytes): State {
    START.(fs := FileSystem(map[ELSEWHERE := 0], [audio]), made := {("a", audio)})
  }

  lemma {:induction false} SpokenIsNext(audio: Bytes)
    ensures Goes(START, ForeignPersist(ELSEWHERE, "a", audio), Spoken(audio))
    ensures Spoken(audio).fs.Valid() && Spoken(audio).fs.Read(ELSEWHERE) == audio
  {
    hide IsValidWav;
    assert [] + [audio] == [audio];
  }

  lemma {:induction false} LinkRuns(audio: Bytes)
    ensures LegalRun(START, LinkScript(audio)) && After(START, LinkScript(audio)) == Linked(audio, audio)
  {
    hide IsValidWav, Goes, Step, Enabled;
    SpokenIsNext(audio);
    LinkIsNext(audio);
    ChainRuns([START, Spoken(audio), Linked(audio, audio)], LinkScript(audio));
  }

  lemma {:induction false} LinkIsNext(audio: Bytes)
    ensures Goes(Spoken(audio), ForeignPut(ELSEWHERE, "a"), Linked(audio, audio))
  {
    hide IsValidWav;
    assert Spoken(audio).fs.Read(ELSEWHERE) == audio;
  }

  lemma {:induction false} SilenceRuns(s: State, bytes: Bytes)
    requires s.fs.Valid() && s.fs.Exists(ELSEWHERE)
    ensures LegalRun(s, [ForeignSilence(ELSEWHERE, bytes)])
    ensures After(s, [ForeignSilence(ELSEWHERE, bytes)]) == s.(fs := s.fs.WriteInode(s.fs.dir[ELSEWHERE], bytes))
  {
    hide IsValidWav;
    var s' := s.(fs := s.fs.WriteInode(s.fs.dir[ELSEWHERE], bytes));
    assert Goes(s, ForeignSilence(ELSEWHERE, bytes), s');
    ChainRuns([s, s'], [ForeignSilence(ELSEWHERE, bytes)]);
  }

  /** The only entry is done and its file holds something else than the only audio there is. */
  lemma {:induction false} WrongAudio(s: State, audio: Bytes)
    requires s.fs.Valid() && s.disk == Some(DONE) && s.made == {("a", audio)}
    requires s.fs.Exists(OwnChunk(0)) && s.fs.Read(OwnChunk(0)) != audio
    ensures !ResumeSafe(s)
  {
    assert !Good(s.fs, s.made, OwnChunk(0), DONE[0].hash);
  }

  /** The other job is resumed with another text and skips the chunk, after this job has taken it from the
      cache: whatever was synthesised, and whatever bytes the placeholder has at that moment. */
  lemma {:induction false} PromiseCanBreak(audio: Bytes, bytes: Bytes)
    requires IsValidWav(audio) && bytes != audio
    ensures var acts := LinkScript(audio) + TAKE + [ForeignSilence(ELSEWHERE, bytes)];
            Blank(START) && LegalRun(START, acts) && !ResumeSafe(After(START, acts))
  {
    hide LegalRun, After, IsValidWav, ResumeSafe;
    LinkRuns(audio);
    var s := Linked(audio, audio);
    LinkedIsTakeable(audio, audio);
    CachedBytesBecomeAudio(s);
    Compose(START, LinkScript(audio), TAKE);
    SilenceRuns(After(s, TAKE), bytes);
    Compose(START, LinkScript(audio) + TAKE, [ForeignSilence(ELSEWHERE, bytes)]);
    WrongAudio(After(START, LinkScript(audio) + TAKE + [ForeignSilence(ELSEWHERE, bytes)]), audio);
  }

  lemma LinkedIsTakeable(audio: Bytes, content: Bytes)
    requires IsValidWav(content)
    ensures Takeable(Linked(audio, content))
  {
    hide IsValidWav;
    assert Linked(audio, content).fs.Read(CacheFile("a")) == content;
  }

  /** Or before: no entry is done on disk when the placeholder is written, and a whole run later one is, with
      the placeholder as its audio. */
  lemma {:induction false} PromiseCanBreakLater(audio: Bytes, bytes: Bytes)
    requires IsValidWav(bytes) && bytes != audio
    ensures var before := LinkScript(audio) + [ForeignSilence(ELSEWHERE, bytes)];
            && Blank(START) && LegalRun(START, before + TAKE)
            && LegalRun(START, before) && After(START, before).disk == None && ResumeSafe(After(START, before))
            && !ResumeSafe(After(START, before + TAKE))
  {
    hide LegalRun, After, IsValidWav;
    LinkRuns(audio);
    SilenceRuns(Linked(audio, audio), bytes);
    Compose(START, LinkScript(audio), [ForeignSilence(ELSEWHERE, bytes)]);
    var before := LinkScript(audio) + [ForeignSilence(ELSEWHERE, bytes)];
    assert [audio][0 := bytes] == [bytes];
    assert After(START, before) == Linked(audio, bytes);
    LinkedIsTakeable(audio, bytes);
    CachedBytesBecomeAudio(Linked(audio, bytes));
    Compose(START, before, TAKE);
    WrongAudio(After(START, before + TAKE), audio);
  }

  // --- half-copied files ---------------------------------------------------------------------------

  function CopyScript(audio: Bytes, junk: Bytes): seq<Act> {
    [ForeignPersist(ELSEWHERE, "a", audio), ForeignBeginCopy(0, ELSEWHERE, "a", junk)]
  }

  /** Another job's chunk, and the beginning of a copy of it in the cache. */
  function Copied(audio: Bytes, junk: Bytes, others: map<nat, Copy>): State {
    START.(fs := FileSystem(map[ELSEWHERE := 0, CacheFile("a") := 1], [audio, junk]), made := {("a", audio)},
           others := others)
  }

  lemma {:induction false} CopyRuns(audio: Bytes, junk: Bytes)
    ensures LegalRun(START, CopyScript(audio, junk))
    ensures After(START, CopyScript(audio, junk)) == Copied(audio, junk, map[0 := Copy("a", 1, audio, junk)])
  {
    hide IsValidWav, Goes, Step, Enabled;
    SpokenIsNext(audio);
    CopyIsNext(audio, junk);
    ChainRuns([START, Spoken(audio), Copied(audio, junk, map[0 := Copy("a", 1, audio, junk)])],
              CopyScript(audio, junk));
  }

  lemma {:induction false} CopyIsNext(audio: Bytes, junk: Bytes)
    ensures Goes(Spoken(audio), ForeignBeginCopy(0, ELSEWHERE, "a", junk),
                 Copied(audio, junk, map[0 := Copy("a", 1, audio, junk)]))
  {
    hide IsValidWav;
    assert Spoken(audio).fs.Read(ELSEWHERE) == audio;
    assert [audio] + [junk] == [audio, junk];
  }

  lemma CopiedIsTakeable(audio: Bytes, junk: Bytes, others: map<nat, Copy>)
    requires IsValidWav(junk)
    ensures Takeable(Copied(audio, junk, others))
  {
    hide IsValidWav;
    assert Copied(audio, junk, others).fs.Read(CacheFile("a")) == junk;
  }

  /** A half-copied cache file that looks like a wav becomes the audio of a done entry: while the copy is
      still under way, with no crash at all ... */
  lemma {:induction false} HalfCopyCanBeTaken(audio: Bytes, junk: Bytes)
    requires IsValidWav(junk) && junk != audio
    ensures var acts := CopyScript(audio, junk) + TAKE;
            && Blank(START) && LegalRun(START, acts)
            && 0 in After(START, acts).others && !ResumeSafe(After(START, acts))
  {
    hide LegalRun, After, IsValidWav, ResumeSafe;
    CopyRuns(audio, junk);
    var s := Copied(audio, junk, map[0 := Copy("a", 1, audio, junk)]);
    CopiedIsTakeable(audio, junk, s.others);
    CachedBytesBecomeAudio(s);
    Compose(START, CopyScript(audio, junk), TAKE);
    WrongAudio(After(START, CopyScript(audio, junk) + TAKE), audio);
  }

  /** ... and after the process that was copying has died. */
  lemma {:induction false} HalfCopyCanBeLeft(audio: Bytes, junk: Bytes)
    requires IsValidWav(junk) && junk != audio
    ensures var acts := CopyScript(audio, junk) + [ForeignLeave(0)] + TAKE;
            && Blank(START) && LegalRun(START, acts)
            && After(START, acts).others == map[] && !ResumeSafe(After(START, acts))
  {
    hide LegalRun, After, IsValidWav, ResumeSafe;
    CopyRuns(audio, junk);
    LeaveRuns(audio, junk);
    Compose(START, CopyScript(audio, junk), [ForeignLeave(0)]);
    var s := Copied(audio, junk, map[]);
    CopiedIsTakeable(audio, junk, map[]);
    CachedBytesBecomeAudio(s);
    Compose(START, CopyScript(audio, junk) + [ForeignLeave(0)], TAKE);
    WrongAudio(After(START, CopyScript(audio, junk) + [ForeignLeave(0)] + TAKE), audio);
  }

  lemma {:induction false} LeaveRuns(audio: Bytes, junk: Bytes)
    ensures var s := Copied(audio, junk, map[0 := Copy("a", 1, audio, junk)]);
            s.fs.Valid() && LegalRun(s, [ForeignLeave(0)]) && After(s, [ForeignLeave(0)]) == Copied(audio, junk, map[])
  {
    hide IsValidWav;
    var s := Copied(audio, junk, map[0 := Copy("a", 1, audio, junk)]);
    assert s.others - {0} == map[];
    assert Goes(s, ForeignLeave(0), Copied(audio, junk, map[]));
    ChainRuns([s, Copied(audio, junk, map[])], [ForeignLeave(0)]);
  }

  // --- two chunks of one text ------------------------------------------------------------------------

  lemma {:induction false} GoesSpeak(s: State, r: Run, w: nat, audio: Bytes)
    requires Stands(s, r, w) && r.workers[w].Working? && r.workers[w].tries < MAX_CHUNK_ATTEMPTS
    ensures var wk := r.workers[w];
            Goes(s, Speak(w, audio, true), s.(
                   made := s.made + {(HashOf(r, wk), audio)},
                   phase := Running(SetWorker(r, w, Speaking(wk.pos, audio, true)).(
                     engine := r.engine + {EntryOf(r, wk)}))))
  {
    hide IsValidWav;
  }

  lemma {:induction false} GoesPersist(s: State, r: Run, w: nat)
    requires Stands(s, r, w) && r.workers[w].Speaking?
    ensures var wk := r.workers[w];
            Goes(s, Persist(w), s.(fs := s.fs.Replace(OwnChunk(EntryOf(r, wk)), wk.audio),
                                   phase := Running(SetWorker(r, w, Persisted(wk.pos, wk.plain)))))
  {
    hide IsValidWav;
  }

  lemma {:induction false} GoesLookUp(s: State, r: Run, w: nat)
    requires Stands(s, r, w) && r.workers[w].Persisted? && r.workers[w].plain
    requires !s.fs.Exists(CacheFile(HashOf(r, r.workers[w])))
    ensures Goes(s, LookUp(w), s.(phase := Running(SetWorker(r, w, Storing(r.workers[w].pos)))))
  {
    hide IsValidWav;
  }

  function Voice(w: nat, audio: Bytes): seq<Act> {
    [Speak(w, audio, true), Persist(w), LookUp(w)]
  }

  /** A worker that the cache has nothing for synthesises its chunk. */
  lemma {:induction false} VoiceRuns(s: State, r: Run, w: nat, audio: Bytes)
    requires Stands(s, r, w) && r.workers[w].Working? && r.workers[w].tries == 0
    requires !s.fs.Exists(CacheFile(HashOf(r, r.workers[w])))
    ensures LegalRun(s, Voice(w, audio))
    ensures var wk := r.workers[w];
            After(s, Voice(w, audio)) ==
            s.(fs := s.fs.Replace(OwnChunk(EntryOf(r, wk)), audio), made := s.made + {(HashOf(r, wk), audio)},
               phase := Running(SetWorker(r, w, Storing(wk.pos)).(engine := r.engine + {EntryOf(r, wk)})))
  {
    hide Goes, LegalRun, After;
    var wk := r.workers[w];
    var i, pos, made := EntryOf(r, wk), wk.pos, s.made + {(HashOf(r, wk), audio)};
    var fs := s.fs.Replace(OwnChunk(i), audio);
    var r1 := SetWorker(r, w, Speaking(pos, audio, true)).(engine := r.engine + {i});
    var r2 := SetWorker(r1, w, Persisted(pos, true));
    var r3 := SetWorker(r, w, Storing(pos)).(engine := r.engine + {i});
    var s1 := s.(made := made, phase := Running(r1));
    var s2, s3 := s1.(fs := fs, phase := Running(r2)), s1.(fs := fs, phase := Running(r3));
    GoesSpeak(s, r, w, audio);
    GoesPersist(s1, r1, w);
    GoesLookUp(s2, r2, w);
    assert r2.workers[w := Storing(pos)] == r3.workers;
    ChainRuns([s, s1, s2, s3], Voice(w, audio));
  }

  const TWINS: seq<Entry> := [Entry("a", Pending), Entry("a", Pending)]
  const FIRST_DONE: seq<Entry> := [Entry("a", Done), Entry("a", Pending)]
  const BOTH_START: seq<Act> := [Load(["a", "a"], true, 2), Open] + Dispatch(0) + Dispatch(1)
  const FIRST_LINKS: seq<Act> := [ClearCache(0), ClearCache(1), LinkStore(0)]

  /** Two workers of one job miss the cache for the same text and clear it; the first links its audio there
      and is done, the second finds the name taken and copies over it, and then the process dies. */
  function TwinScript(one: Bytes, two: Bytes, junk: Bytes): seq<Act> {
    BOTH_START + Voice(0, one) + Voice(1, two) + FIRST_LINKS + Save(0) + [BeginCopyStore(1, junk), Crash]
  }

  function TwinRun(first: Worker, second: Worker): Run {
    Run(TWINS, TWINS, [0, 1], 2, [first, second], None, None, false, [0, 1], {})
  }

  lemma {:induction false} TwinsLoad()
    ensures Goes(START, Load(["a", "a"], true, 2), START.(phase := Loaded(TWINS, 2)))
  {
    hide IsValidWav;
    assert Reload(START.fs, [], ["a", "a"]) == TWINS;
  }

  lemma {:induction false} TwinsOpen()
    ensures LegalRun(START, [Load(["a", "a"], true, 2), Open])
    ensures After(START, [Load(["a", "a"], true, 2), Open]) ==
            START.(disk := Some(TWINS), phase := Running(Opened(TWINS, 2)))
    ensures Opened(TWINS, 2) == Run(TWINS, TWINS, [0, 1], 0, [Waiting, Waiting], None, None, false, [], {})
  {
    hide IsValidWav, LegalRun, After;
    assert PendingOf(TWINS) == [0, 1] by {
      assert TWINS[..1] == [Entry("a", Pending)] && TWINS[..1][..0] == [];
    }
    assert Opened(TWINS, 2).workers == [Waiting, Waiting];
    var s1 := START.(phase := Loaded(TWINS, 2));
    var s2 := START.(disk := Some(TWINS), phase := Running(Opened(TWINS, 2)));
    TwinsLoad();
    assert Goes(s1, Open, s2);
    ChainRuns([START, s1, s2], [Load(["a", "a"], true, 2), Open]);
  }

  lemma {:induction false} TwinsStart()
    ensures LegalRun(START, BOTH_START)
    ensures After(START, BOTH_START) ==
            START.(disk := Some(TWINS), phase := Running(TwinRun(Working(0, 0), Working(1, 0))))
  {
    hide Goes, LegalRun, After;
    var acts := [Load(["a", "a"], true, 2), Open];
    TwinsOpen();
    var r := Opened(TWINS, 2);
    var r1 := Run(TWINS, TWINS, [0, 1], 1, [Working(0, 0), Waiting], None, None, false, [0], {});
    DispatchRuns(After(START, acts), r, 0);
    Compose(START, acts, Dispatch(0));
    assert Dispatched(r, 0) == r1 by {
      assert r.workers[0 := Working(0, 0)] == r1.workers && [] + [0] == [0];
    }
    DispatchRuns(After(START, acts + Dispatch(0)), r1, 1);
    Compose(START, acts + Dispatch(0), Dispatch(1));
    assert Dispatched(r1, 1) == TwinRun(Working(0, 0), Working(1, 0)) by {
      assert r1.workers[1 := Working(1, 0)] == [Working(0, 0), Working(1, 0)] && [0] + [1] == [0, 1];
    }
  }

  /** Both have their audio and have found nothing in the cache. */
  function Twins(one: Bytes, two: Bytes): State {
    START.(fs := FileSystem(map[OwnChunk(0) := 0, OwnChunk(1) := 1], [one, two]), disk := Some(TWINS),
           made := {("a", one), ("a", two)}, phase := Running(TwinRun(Storing(0), Storing(1)).(engine := {0, 1})))
  }

  lemma {:induction false} TwinsSpeak(one: Bytes, two: Bytes)
    ensures LegalRun(START, BOTH_START + Voice(0, one) + Voice(1, two))
    ensures After(START, BOTH_START + Voice(0, one) + Voice(1, two)) == Twins(one, two)
  {
    hide Goes, LegalRun, After;
    TwinsStart();
    var r := TwinRun(Working(0, 0), Working(1, 0));
    VoiceRuns(After(START, BOTH_START), r, 0, one);
    Compose(START, BOTH_START, Voice(0, one));
    var r1 := TwinRun(Storing(0), Working(1, 0)).(engine := {0});
    var s1 := START.(fs := FileSystem(map[OwnChunk(0) := 0], [one]), disk := Some(TWINS), made := {("a", one)},
                     phase := Running(r1));
    assert After(START, BOTH_START + Voice(0, one)) == s1 by {
      assert r.workers[0 := Storing(0)] == r1.workers && r.engine + {0} == r1.engine;
      assert START.made + {("a", one)} == s1.made && START.fs.Replace(OwnChunk(0), one) == s1.fs;
    }
    VoiceRuns(s1, r1, 1, two);
    Compose(START, BOTH_START + Voice(0, one), Voice(1, two));
    assert r1.workers[1 := Storing(1)] == [Storing(0), Storing(1)] && [one] + [two] == [one, two];
    assert {("a", one)} + {("a", two)} == {("a", one), ("a", two)} && {0 as nat} + {1} == {0, 1};
  }

  /** The first has linked its audio into the cache; the second is about to. */
  function TwinLinked(one: Bytes, two: Bytes): State {
    Twins(one, two).(
      fs := FileSystem(map[OwnChunk(0) := 0, OwnChunk(1) := 1, CacheFile("a") := 0], [one, two]),
      phase := Running(TwinRun(Finished(0, Done), Linking(1)).(engine := {0, 1})))
  }

  lemma {:induction false} GoesClear(s: State, r: Run, w: nat)
    requires Stands(s, r, w) && r.workers[w].Storing? && !s.fs.Exists(CacheFile(HashOf(r, r.workers[w])))
    ensures Goes(s, ClearCache(w), s.(phase := Running(SetWorker(r, w, Linking(r.workers[w].pos)))))
  {
    hide IsValidWav;
    var cached := CacheFile(HashOf(r, r.workers[w]));
    assert s.fs.Unlink(cached) == s.fs by {
      assert s.fs.dir - {cached} == s.fs.dir;
    }
  }

  lemma {:induction false} GoesLinkStore(s: State, r: Run, w: nat)
    requires Stands(s, r, w) && r.workers[w].Linking?
    requires s.fs.Exists(OwnChunk(EntryOf(r, r.workers[w]))) && !s.fs.Exists(CacheFile(HashOf(r, r.workers[w])))
    ensures var wk := r.workers[w];
            Goes(s, LinkStore(w), s.(fs := s.fs.Link(OwnChunk(EntryOf(r, wk)), CacheFile(HashOf(r, wk))),
                                     phase := Running(SetWorker(r, w, Finished(wk.pos, Done)))))
  {
    hide IsValidWav;
  }

  lemma {:induction false} FirstLinks(one: Bytes, two: Bytes)
    ensures Twins(one, two).fs.Valid()
    ensures LegalRun(Twins(one, two), FIRST_LINKS) && After(Twins(one, two), FIRST_LINKS) == TwinLinked(one, two)
  {
    hide Goes, LegalRun, After;
    var s := Twins(one, two);
    var r := TwinRun(Storing(0), Storing(1)).(engine := {0, 1});
    var r1, r2 := r.(workers := [Linking(0), Storing(1)]), r.(workers := [Linking(0), Linking(1)]);
    var s1, s2 := s.(phase := Running(r1)), s.(phase := Running(r2));
    GoesClear(s, r, 0);
    assert r.workers[0 := Linking(0)] == r1.workers;
    GoesClear(s1, r1, 1);
    assert r1.workers[1 := Linking(1)] == r2.workers;
    GoesLinkStore(s2, r2, 0);
    assert r2.workers[0 := Finished(0, Done)] == [Finished(0, Done), Linking(1)];
    ChainRuns([s, s1, s2, TwinLinked(one, two)], FIRST_LINKS);
  }

  /** The first is saved as done, and the second is still about to link. */
  function TwinSaved(one: Bytes, two: Bytes): State {
    TwinLinked(one, two).(
      disk := Some(FIRST_DONE),
      phase := Running(TwinRun(Publishing(0), Linking(1)).(mem := FIRST_DONE, saver := Some(0), engine := {0, 1})))
  }

  lemma {:induction false} FirstSaves(one: Bytes, two: Bytes)
    ensures TwinLinked(one, two).fs.Valid()
    ensures LegalRun(TwinLinked(one, two), Save(0)) && After(TwinLinked(one, two), Save(0)) == TwinSaved(one, two)
  {
    hide Goes, LegalRun, After;
    var r := TwinRun(Finished(0, Done), Linking(1)).(engine := {0, 1});
    assert TWINS[0 := Entry("a", Done)] == FIRST_DONE;
    SaveRuns(TwinLinked(one, two), r, 0, FIRST_DONE);
    assert r.workers[0 := Publishing(0)] == [Publishing(0), Linking(1)];
  }

  lemma {:induction false} SecondCopies(one: Bytes, two: Bytes, junk: Bytes)
    ensures TwinSaved(one, two).fs.Valid()
    ensures LegalRun(TwinSaved(one, two), [BeginCopyStore(1, junk), Crash])
    ensures After(TwinSaved(one, two), [BeginCopyStore(1, junk), Crash]) ==
            TwinSaved(one, two).(fs := TwinSaved(one, two).fs.WriteInode(0, junk), phase := Phase.Idle)
  {
    hide IsValidWav;
    var s := TwinSaved(one, two);
    var s1 := Step(s, BeginCopyStore(1, junk));
    assert s1 == s.(fs := s.fs.WriteInode(0, junk), phase := s1.phase);
    assert Goes(s, BeginCopyStore(1, junk), s1);
    ChainRuns([s, s1, s1.(phase := Phase.Idle)], [BeginCopyStore(1, junk), Crash]);
  }

  /** One job, one cache, no other writer, and links that serve until a name is taken: the entry that is done
      on disk is left with half a copy of its twin's audio, and a resumed job takes that for its own if it looks
      like a wav. */
  lemma {:induction false} TwinsCanBreak(one: Bytes, two: Bytes, junk: Bytes)
    requires junk != one && junk != two
    ensures var acts := TwinScript(one, two, junk);
            && Blank(START) && LegalRun(START, acts)
            && var s := After(START, acts);
               && !ResumeSafe(s) && s.disk == Some(FIRST_DONE)
               && (IsValidWav(junk) ==> Reusable(s.fs, FIRST_DONE, 0, "a"))
  {
    hide LegalRun, After, IsValidWav, Goes;
    var acts := BOTH_START + Voice(0, one) + Voice(1, two);
    TwinsSpeak(one, two);
    FirstLinks(one, two);
    Compose(START, acts, FIRST_LINKS);
    FirstSaves(one, two);
    Compose(START, acts + FIRST_LINKS, Save(0));
    SecondCopies(one, two, junk);
    Compose(START, acts + FIRST_LINKS + Save(0), [BeginCopyStore(1, junk), Crash]);
    var s := After(START, TwinScript(one, two, junk));
    assert s.fs.Read(OwnChunk(0)) == junk;
    assert !Good(s.fs, s.made, OwnChunk(0), FIRST_DONE[0].hash);
  }

  // --- audio this job has stored ---------------------------------------------------------------------

  /** A run of one worker over one chunk that the cache lacks, up to where its entry is saved. */
  function Own(audio: Bytes): seq<Act> {
    [Load(["a"], true, 1), Open] + Dispatch(0) + Voice(0, audio) + [ClearCache(0), LinkStore(0)] + Save(0)
  }

  function Stored(audio: Bytes): State {
    START.(fs := FileSystem(map[OwnChunk(0) := 0, CacheFile("a") := 0], [audio]), disk := Some(DONE),
           made := {("a", audio)},
           phase := Running(TakeRun(Publishing(0)).(mem := DONE, saver := Some(0), engine := {0})))
  }

  lemma {:induction false} OwnSpeaks(audio: Bytes)
    ensures var acts := [Load(["a"], true, 1), Open] + Dispatch(0) + Voice(0, audio);
            && LegalRun(START, acts)
            && After(START, acts) ==
               START.(fs := FileSystem(map[OwnChunk(0) := 0], [audio]), disk := Some(TODO), made := {("a", audio)},
                      phase := Running(TakeRun(Storing(0)).(engine := {0})))
  {
    hide Goes, LegalRun, After, IsValidWav;
    var acts := [Load(["a"], true, 1), Open];
    TakeOpens(START);
    var r := Opened(TODO, 1);
    DispatchRuns(After(START, acts), r, 0);
    Compose(START, acts, Dispatch(0));
    assert Dispatched(r, 0) == TakeRun(Working(0, 0)) by {
      assert r.workers[0 := Working(0, 0)] == [Working(0, 0)] && [] + [0] == [0];
    }
    VoiceRuns(After(START, acts + Dispatch(0)), TakeRun(Working(0, 0)), 0, audio);
    Compose(START, acts + Dispatch(0), Voice(0, audio));
    assert [Working(0, 0)][0 := Storing(0)] == [Storing(0)] && [] + [audio] == [audio];
    assert {} + {0 as nat} == {0} && START.made + {("a", audio)} == {("a", audio)};
  }

  lemma {:induction false} OwnStores(audio: Bytes)
    ensures LegalRun(START, Own(audio)) && After(START, Own(audio)) == Stored(audio)
  {
    hide Goes, LegalRun, After, IsValidWav;
    OwnSpeaks(audio);
    var acts := [Load(["a"], true, 1), Open] + Dispatch(0) + Voice(0, audio);
    var s := After(START, acts);
    var r, r1 := TakeRun(Storing(0)).(engine := {0}), TakeRun(Linking(0)).(engine := {0});
    var r2 := TakeRun(Finished(0, Done)).(engine := {0});
    GoesClear(s, r, 0);
    assert [Storing(0)][0 := Linking(0)] == [Linking(0)] && [Linking(0)][0 := Finished(0, Done)] == [Finished(0, Done)];
    GoesLinkStore(s.(phase := Running(r1)), r1, 0);
    var s2 := s.(fs := Stored(audio).fs, phase := Running(r2));
    assert s.fs.Link(OwnChunk(0), CacheFile("a")) == s2.fs;
    ChainRuns([s, s.(phase := Running(r1)), s2], [ClearCache(0), LinkStore(0)]);
    Compose(START, acts, [ClearCache(0), LinkStore(0)]);
    assert TODO[0 := Entry("a", Done)] == DONE && [Finished(0, Done)][0 := Publishing(0)] == [Publishing(0)];
    SaveRuns(s2, r2, 0, DONE);
    Compose(START, acts + [ClearCache(0), LinkStore(0)], Save(0));
  }

  /** The same the other way round: this job has synthesised the chunk and stored it, another takes it from the
      cache, and then, resumed with another text, writes its placeholder in place. */
  lemma {:induction false} PromiseCanBreakBack(audio: Bytes, bytes: Bytes)
    requires bytes != audio
    ensures var acts := Own(audio) + [ForeignGet("a", ELSEWHERE)] + [ForeignSilence(ELSEWHERE, bytes)];
            Blank(START) && LegalRun(START, acts) && !ResumeSafe(After(START, acts))
  {
    hide LegalRun, After, IsValidWav, ResumeSafe;
    OwnStores(audio);
    var s := Stored(audio);
    var s' := s.(fs := FileSystem(map[OwnChunk(0) := 0, CacheFile("a") := 0, ELSEWHERE := 0], [audio]));
    OtherTakes(s, s');
    Compose(START, Own(audio), [ForeignGet("a", ELSEWHERE)]);
    SilenceRuns(s', bytes);
    Compose(START, Own(audio) + [ForeignGet("a", ELSEWHERE)], [ForeignSilence(ELSEWHERE, bytes)]);
    WrongAudio(After(START, Own(audio) + [ForeignGet("a", ELSEWHERE)] + [ForeignSilence(ELSEWHERE, bytes)]), audio);
  }

  lemma {:induction false} OtherTakes(s: State, s': State)
    requires s.fs.Valid() && s.fs.Exists(CacheFile("a")) && s' == s.(fs := s.fs.Link(CacheFile("a"), ELSEWHERE))
    ensures LegalRun(s, [ForeignGet("a", ELSEWHERE)]) && After(s, [ForeignGet("a", ELSEWHERE)]) == s'
  {
    hide IsValidWav;
    assert Goes(s, ForeignGet("a", ELSEWHERE), s');
    ChainRuns([s, s'], [ForeignGet("a", ELSEWHERE)]);
  }
}
