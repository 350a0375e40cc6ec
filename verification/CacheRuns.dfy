/** The cache over whole runs: it agrees with a plain map from keys to bytes, and never disturbs a
    chunk file it has handed out. */
module CacheRuns {
  import opened Wrappers
  import opened Files
  import opened Cache

  /** One call on the cache, or a chunk file replaced by `_persist_wav` (`src/narrator/pipeline/synth.py`). */
  datatype Op =
    | OpGet(key: string, dest: Path, now: int, linkOk: bool)
    | OpPut(key: string, src: Path, now: int, linkOk: bool)
    | OpEvict(gone: seq<string>, busy: set<string>)
    | OpPersist(chunk: Path, bytes: Bytes)

  predicate Legal(st: CacheState, op: Op) {
    match op
    case OpGet(_, dest, _, _) => dest.ChunkFile?
    case OpPut(_, src, _, _) => src.ChunkFile? && st.fs.Exists(src)
    case OpEvict(gone, _) => forall k | k in gone :: k in st.index
    case OpPersist(chunk, _) => chunk.ChunkFile?
  }

  function Do(st: CacheState, op: Op): (st': CacheState)
    requires st.fs.Valid() && Legal(st, op)
    ensures st'.fs.Valid()
  {
    match op
    case OpGet(key, dest, now, linkOk) => GetState(st, key, dest, now, linkOk)
    case OpPut(key, src, now, linkOk) => PutState(st, key, src, now, linkOk)
    case OpEvict(gone, busy) => EvictRows(st, gone, busy)
    case OpPersist(chunk, bytes) => st.(fs := st.fs.Replace(chunk, bytes))
  }

  predicate LegalRun(ops: seq<Op>)
    decreases |ops|, 0
  {
    ops == [] || (LegalRun(ops[..|ops| - 1]) && Legal(Run(ops[..|ops| - 1]), ops[|ops| - 1]))
  }

  /** From an empty cache and no chunk files. */
  function Run(ops: seq<Op>): (st: CacheState)
    requires LegalRun(ops)
    ensures st.fs.Valid()
    decreases |ops|, 1
  {
    if ops == [] then CacheState(FileSystem(map[], []), map[]) else Do(Run(ops[..|ops| - 1]), ops[|ops| - 1])
  }

  // --- the history a plain map would be built from ---------------------------------------

  datatype Event = Stored(key: string, bytes: Bytes) | Removed(keys: set<string>)

  function EventsOf(st: CacheState, op: Op): seq<Event>
    requires st.fs.Valid() && Legal(st, op)
  {
    match op
    case OpPut(key, src, _, _) => [Stored(key, st.fs.Read(src))]
    case OpEvict(gone, busy) => [Removed(KeysOf(gone) - busy)]
    case _ => []
  }

  function History(ops: seq<Op>): seq<Event>
    requires LegalRun(ops)
  {
    if ops == [] then []
    else History(ops[..|ops| - 1]) + EventsOf(Run(ops[..|ops| - 1]), ops[|ops| - 1])
  }

  /** The first non-empty audio stored for a key since it was last evicted. */
  function FirstStored(events: seq<Event>, key: string): Option<Bytes> {
    if events == [] then None
    else AddEvent(FirstStored(events[..|events| - 1], key), events[|events| - 1], key)
  }

  function AddEvent(before: Option<Bytes>, event: Event, key: string): Option<Bytes> {
    match event
    case Removed(keys) => if key in keys then None else before
    case Stored(k, bytes) => if k != key || (before.Some? && |before.value| > 0) then before else Some(bytes)
  }

  /** The file of `key` holds exactly what the history says it should. */
  ghost predicate Agrees(st: CacheState, events: seq<Event>) {
    && st.fs.Valid()
    && forall key :: FirstStored(events, key) ==
         if st.fs.Exists(CacheFile(key)) then Some(st.fs.Read(CacheFile(key))) else None
  }

  lemma {:induction false} FirstStoredAppend(events: seq<Event>, last: Event, key: string)
    ensures FirstStored(events + [last], key) == AddEvent(FirstStored(events, key), last, key)
  {
    assert (events + [last])[..|events|] == events;
  }

  lemma {:induction false} StepAgrees(st: CacheState, events: seq<Event>, op: Op)
    requires st.fs.Valid() && Legal(st, op) && Agrees(st, events)
    ensures Agrees(Do(st, op), events + EventsOf(st, op))
  {
    hide FirstStored;
    assert events + [] == events;
    match op
    case OpGet(key, dest, now, linkOk) =>
      if Usable(st, key) {
        LinkOrCopyFacts(st.fs, CacheFile(key), dest, linkOk);
      }
    case OpPut(key, src, now, linkOk) =>
      LinkOrCopyFacts(st.fs, src, CacheFile(key), linkOk);
      forall k {
        FirstStoredAppend(events, Stored(key, st.fs.Read(src)), k);
      }
    case OpEvict(gone, busy) =>
      forall k {
        FirstStoredAppend(events, Removed(KeysOf(gone) - busy), k);
      }
    case OpPersist(chunk, bytes) =>
  }

  lemma {:induction false} RunAgrees(ops: seq<Op>)
    requires LegalRun(ops)
    ensures Agrees(Run(ops), History(ops))
    decreases |ops|
  {
    hide FirstStored, Do, Legal, EventsOf;
    if ops == [] {
      NothingAgrees();
    } else {
      RunAgrees(ops[..|ops| - 1]);
      StepAgrees(Run(ops[..|ops| - 1]), History(ops[..|ops| - 1]), ops[|ops| - 1]);
    }
  }

  lemma NothingAgrees()
    ensures Agrees(CacheState(FileSystem(map[], []), map[]), [])
  {
  }

  /** Transparency: after any run, a `get` hits exactly when the first audio stored for the key since
      its last eviction is a valid wav, and then the destination holds that audio. */
  lemma {:induction false} CacheIsTransparent(ops: seq<Op>, key: string, dest: Path, now: int, linkOk: bool)
    requires LegalRun(ops) && dest.ChunkFile?
    ensures var st, first := Run(ops), FirstStored(History(ops), key);
            var st' := GetState(st, key, dest, now, linkOk);
            && (Usable(st, key) <==> first.Some? && IsValidWav(first.value))
            && (Usable(st, key) ==> st'.fs.Valid() && st'.fs.Exists(dest) && st'.fs.Read(dest) == first.value)
  {
    hide FirstStored, IsValidWav;
    RunAgrees(ops);
    if Usable(Run(ops), key) {
      LinkOrCopyFacts(Run(ops).fs, CacheFile(key), dest, linkOk);
    }
  }

  // --- chunk files stay as they are -----------------------------------------------------

  predicate Names(op: Op, chunk: Path) {
    match op
    case OpGet(_, dest, _, _) => dest == chunk
    case OpPersist(c, _) => c == chunk
    case _ => false
  }

  /** No operation on the cache changes a chunk file other than the one it names: not an eviction, not
      a later `put` or `get` of the same key, not another chunk replaced. */
  lemma {:induction false} ChunksAreSafe(st: CacheState, more: seq<Op>, chunk: Path, st': CacheState)
    requires st.fs.Valid() && chunk.ChunkFile? && st.fs.Exists(chunk)
    requires RunsTo(st, more, st') && forall op | op in more :: !Names(op, chunk)
    ensures st'.fs.Valid() && st'.fs.Exists(chunk) && st'.fs.Read(chunk) == st.fs.Read(chunk)
    decreases |more|
  {
    hide Legal, Do;
    if more != [] {
      assert more[0] in more && forall op | op in more[1..] :: op in more;
      ChunkIsSafe(st, more[0], chunk);
      ChunksAreSafe(Do(st, more[0]), more[1..], chunk, st');
    }
  }

  predicate RunsTo(st: CacheState, ops: seq<Op>, st': CacheState)
    requires st.fs.Valid()
    decreases |ops|
  {
    if ops == [] then st == st' else Legal(st, ops[0]) && RunsTo(Do(st, ops[0]), ops[1..], st')
  }

  lemma {:induction false} ChunkIsSafe(st: CacheState, op: Op, chunk: Path)
    requires st.fs.Valid() && chunk.ChunkFile? && st.fs.Exists(chunk) && Legal(st, op) && !Names(op, chunk)
    ensures Do(st, op).fs.Exists(chunk) && Do(st, op).fs.Read(chunk) == st.fs.Read(chunk)
  {
    match op
    case OpGet(key, dest, now, linkOk) =>
      if Usable(st, key) {
        LinkOrCopyFacts(st.fs, CacheFile(key), dest, linkOk);
      }
    case OpPut(key, src, now, linkOk) =>
      LinkOrCopyFacts(st.fs, src, CacheFile(key), linkOk);
    case OpEvict(gone, busy) =>
    case OpPersist(c, bytes) =>
  }

  // --- row sizes ----------------------------------------------------------------------------

  /** Every index row stands for a file of its size. */
  ghost predicate RowsMatch(st: CacheState) {
    && st.fs.Valid()
    && forall key | key in st.index ::
         st.fs.Exists(CacheFile(key)) && st.index[key].size == |st.fs.Read(CacheFile(key))|
  }

  /** The branch that breaks the sizes: a row of size zero, whose file a later `put` replaces. */
  predicate EmptyPut(st: CacheState, op: Op)
    requires st.fs.Valid() && Legal(st, op)
  {
    op.OpPut? && op.key in st.index && |st.fs.Read(op.src)| > 0 &&
    st.fs.Exists(CacheFile(op.key)) && st.fs.Read(CacheFile(op.key)) == []
  }

  /** A step keeps the row sizes right exactly when it does not replace an empty cached file. */
  lemma {:induction false} StepKeepsSizesIff(st: CacheState, op: Op)
    requires RowsMatch(st) && Legal(st, op)
    ensures RowsMatch(Do(st, op)) <==> !EmptyPut(st, op)
  {
    match op
    case OpGet(key, dest, now, linkOk) =>
      if Usable(st, key) {
        LinkOrCopyFacts(st.fs, CacheFile(key), dest, linkOk);
      }
    case OpPut(_, _, _, _) => PutKeepsSizesIff(st, op);
    case OpEvict(gone, busy) =>
    case OpPersist(chunk, bytes) =>
  }

  /** Such a row can come about: an empty chunk is stored, and then a chunk that is not, under one key. */
  lemma {:induction false} SizesCanDiffer(chunk: Path, key: string, bytes: Bytes, now: int, linkOk: bool)
    requires chunk.ChunkFile? && bytes != []
    ensures var put := OpPut(key, chunk, now, linkOk);
            var ops := [OpPersist(chunk, []), put, OpPersist(chunk, bytes), put];
            && LegalRun(ops) && !RowsMatch(Run(ops))
            && LegalRun(ops[..3]) && RowsMatch(Run(ops[..3])) && EmptyPut(Run(ops[..3]), put)
  {
    hide RowsMatch, EmptyPut, Do, Legal;
    var put := OpPut(key, chunk, now, linkOk);
    var a, b := OpPersist(chunk, []), OpPersist(chunk, bytes);
    EmptyRun();
    EmptyThenFull(Run([]), a, put, b);
    OneMore([], a);
    assert [] + [a] == [a];
    OneMore([a], put);
    assert [a] + [put] == [a, put];
    OneMore([a, put], b);
    assert [a, put] + [b] == [a, put, b];
    OneMore([a, put, b], put);
    assert [a, put, b] + [put] == [a, put, b, put];
    assert [a, put, b, put][..3] == [a, put, b];
  }

  lemma {:induction false} EmptyThenFull(st: CacheState, a: Op, put: Op, b: Op)
    requires put.OpPut? && RowsMatch(st) && !st.fs.Exists(CacheFile(put.key)) && st.fs.Valid()
    requires a.OpPersist? && b.OpPersist? && a.chunk == b.chunk == put.src && a.chunk.ChunkFile?
    requires a.bytes == [] && b.bytes != []
    ensures Legal(st, a) && Legal(Do(st, a), put) && Legal(Do(Do(st, a), put), b)
    ensures var st3 := Do(Do(Do(st, a), put), b);
            RowsMatch(st3) && Legal(st3, put) && EmptyPut(st3, put) && !RowsMatch(Do(st3, put))
  {
    hide RowsMatch, LinkOrCopy;
    StepKeepsSizesIff(st, a);
    LinkOrCopyFacts(Do(st, a).fs, put.src, CacheFile(put.key), put.linkOk);
    StepKeepsSizesIff(Do(st, a), put);
    StepKeepsSizesIff(Do(Do(st, a), put), b);
    StepKeepsSizesIff(Do(Do(Do(st, a), put), b), put);
  }

  lemma EmptyRun()
    ensures LegalRun([]) && RowsMatch(Run([])) && Run([]) == CacheState(FileSystem(map[], []), map[])
  {
  }

  lemma {:induction false} OneMore(ops: seq<Op>, op: Op)
    requires LegalRun(ops) && Legal(Run(ops), op)
    ensures LegalRun(ops + [op]) && Run(ops + [op]) == Do(Run(ops), op)
  {
    assert (ops + [op])[..|ops|] == ops;
  }

  lemma {:induction false} PutKeepsSizesIff(st: CacheState, op: Op)
    requires RowsMatch(st) && Legal(st, op) && op.OpPut?
    ensures RowsMatch(Do(st, op)) <==> !EmptyPut(st, op)
  {
    hide LinkOrCopy;
    LinkOrCopyFacts(st.fs, op.src, CacheFile(op.key), op.linkOk);
    assert op.key in Do(st, op).index;
  }

  predicate StoresAudio(events: seq<Event>) {
    forall i | 0 <= i < |events| :: events[i].Stored? ==> events[i].bytes != []
  }

  lemma {:induction false} StoredIsNonEmpty(events: seq<Event>, key: string)
    requires StoresAudio(events)
    ensures FirstStored(events, key).Some? ==> FirstStored(events, key).value != []
  {
    if events != [] {
      StoredIsNonEmpty(events[..|events| - 1], key);
    }
  }

  /** In every run in which only non-empty audio is stored, every row's size is its file's size. */
  lemma {:induction false} RowSizesAreFileSizes(ops: seq<Op>)
    requires LegalRun(ops) && StoresAudio(History(ops))
    ensures RowsMatch(Run(ops))
    decreases |ops|
  {
    hide FirstStored, Do, Legal, EventsOf;
    if ops != [] {
      var front, last := ops[..|ops| - 1], ops[|ops| - 1];
      assert forall i | 0 <= i < |History(front)| :: History(front)[i] == History(ops)[i];
      RowSizesAreFileSizes(front);
      RunAgrees(front);
      if last.OpPut? {
        StoredIsNonEmpty(History(front), last.key);
      }
      StepKeepsSizesIff(Run(front), last);
    }
  }

  // --- recency -----------------------------------------------------------------------------------

  /** When the key was last put, or got with a hit, since it came into the index; told from the calls. A `get`
      that finds a bad file takes the key out. */
  function LastUse(ops: seq<Op>, key: string): Option<int>
    requires LegalRun(ops)
  {
    if ops == [] then None
    else
      var front, last := ops[..|ops| - 1], ops[|ops| - 1];
      match last
      case OpGet(k, _, now, _) =>
        var cached := FirstStored(History(front), key);
        if k != key || cached == None then LastUse(front, key)
        else if IsValidWav(cached.value) then Some(now)
        else None
      case OpPut(k, _, now, _) => if k == key then Some(now) else LastUse(front, key)
      case OpEvict(gone, _) => if key in gone then None else LastUse(front, key)
      case OpPersist(_, _) => LastUse(front, key)
  }

  /** After any run, the index has the keys with such a use, and their rows are stamped with it. */
  ghost predicate StampsAgree(ops: seq<Op>)
    requires LegalRun(ops)
  {
    forall key ::
      LastUse(ops, key) == if key in Run(ops).index then Some(Run(ops).index[key].lastUsed) else None
  }

  lemma {:induction false} StampsAreLastUses(ops: seq<Op>)
    requires LegalRun(ops)
    ensures StampsAgree(ops)
    decreases |ops|
  {
    hide FirstStored, LinkOrCopy, IsValidWav;
    if ops != [] {
      var front, last := ops[..|ops| - 1], ops[|ops| - 1];
      StampsAreLastUses(front);
      RunAgrees(front);
      hide Agrees;
      forall key ensures LastUse(ops, key) ==
                         if key in Run(ops).index then Some(Run(ops).index[key].lastUsed) else None
      {
        CachedIs(Run(front), History(front), key);
      }
    }
  }

  lemma CachedIs(st: CacheState, events: seq<Event>, key: string)
    requires Agrees(st, events)
    ensures FirstStored(events, key) ==
            if st.fs.Exists(CacheFile(key)) then Some(st.fs.Read(CacheFile(key))) else None
  {
    hide FirstStored;
  }

  /** Eviction goes by last use: no key goes while one that was used before it stays, and they go in that order. */
  lemma {:induction false} EvictionFollowsUse(ops: seq<Op>, gone: seq<string>, earlier: string, later: string)
    requires LegalRun(ops) && IsLruPrefix(Run(ops).index, gone) && later in gone
    requires LastUse(ops, earlier).Some? && LastUse(ops, later).Some?
    requires LastUse(ops, earlier).value < LastUse(ops, later).value
    ensures exists i, j :: 0 <= i < j < |gone| && gone[i] == earlier && gone[j] == later
  {
    hide LastUse, Run, LegalRun;
    StampsAreLastUses(ops);
    var index := Run(ops).index;
    var j :| 0 <= j < |gone| && gone[j] == later;
    assert index[earlier].lastUsed < index[later].lastUsed;
    assert earlier in gone;
    var i :| 0 <= i < |gone| && gone[i] == earlier;
    assert i < j;
  }

  predicate TimedOp(op: Op) {
    op.OpGet? || op.OpPut?
  }

  /** The clock goes up from one call to the next. */
  predicate ClockRuns(ops: seq<Op>) {
    forall i, j | 0 <= i < j < |ops| :: TimedOp(ops[i]) && TimedOp(ops[j]) ==> ops[i].now < ops[j].now
  }

  lemma {:induction false} LastUseIsACall(ops: seq<Op>, key: string)
    requires LegalRun(ops) && LastUse(ops, key).Some?
    ensures exists i :: 0 <= i < |ops| && TimedOp(ops[i]) && ops[i].key == key && ops[i].now == LastUse(ops, key).value
    decreases |ops|
  {
    hide FirstStored, IsValidWav, History;
    var n := |ops| - 1;
    if !(TimedOp(ops[n]) && ops[n].key == key && LastUse(ops, key) == Some(ops[n].now)) {
      LastUseIsACall(ops[..n], key);
      var i :| 0 <= i < n && TimedOp(ops[..n][i]) && ops[..n][i].key == key &&
               ops[..n][i].now == LastUse(ops[..n], key).value;
      assert ops[i] == ops[..n][i];
    }
  }

  /** So the key of the last call, put or hit, is the last of all to be evicted. */
  lemma {:induction false} JustUsedGoesLast(ops: seq<Op>, gone: seq<string>)
    requires LegalRun(ops) && ops != [] && ClockRuns(ops) && IsLruPrefix(Run(ops).index, gone)
    requires var last := ops[|ops| - 1];
             TimedOp(last) && LastUse(ops, last.key) == Some(last.now) && last.key in gone
    ensures KeysOf(gone) == Run(ops).index.Keys && gone[|gone| - 1] == ops[|ops| - 1].key
  {
    hide LastUse, Run, LegalRun, IsLruPrefix;
    var last := ops[|ops| - 1];
    StampsAreLastUses(ops);
    forall k | k in Run(ops).index && k != last.key
      ensures exists i, j :: 0 <= i < j < |gone| && gone[i] == k && gone[j] == last.key
    {
      LastUseIsACall(ops, k);
      EvictionFollowsUse(ops, gone, k, last.key);
    }
    LastInPrefix(Run(ops).index, gone, last.key);
  }

  lemma {:induction false} LastInPrefix(index: map<string, Row>, gone: seq<string>, key: string)
    requires IsLruPrefix(index, gone) && key in gone
    requires forall k | k in index && k != key ::
               exists i, j :: 0 <= i < j < |gone| && gone[i] == k && gone[j] == key
    ensures KeysOf(gone) == index.Keys && gone[|gone| - 1] == key
  {
    var k := gone[|gone| - 1];
    assert k in gone && k in index;
  }
}
