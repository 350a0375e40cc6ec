/** The content-addressed synthesis cache: `src/narrator/core/cache.py` with the index rows of
    `src/narrator/core/state.py`. */
module Cache {
  import opened Wrappers
  import opened Files

  datatype Row = Row(size: int, lastUsed: int)

  /** The cached files, every job's chunk files, and the index. */
  datatype CacheState = CacheState(fs: FileSystem, index: map<string, Row>)

  // --- the index -------------------------------------------------------------------

  /** `cache_touch`: a new row, or a new stamp on the row there is. */
  function Touch(index: map<string, Row>, key: string, size: int, now: int): map<string, Row> {
    index[key := if key in index then index[key].(lastUsed := now) else Row(size, now)]
  }

  ghost function TotalSize(index: map<string, Row>): int {
    if index == map[] then 0
    else
      var key :| key in index;
      index[key].size + TotalSize(index - {key})
  }

  lemma {:induction false} TotalRemove(index: map<string, Row>, key: string)
    requires key in index
    ensures TotalSize(index) == index[key].size + TotalSize(index - {key})
    decreases |index|
  {
    assert index != map[];
    var k :| k in index && TotalSize(index) == index[k].size + TotalSize(index - {k});
    if k != key {
      TotalRemove(index - {k}, key);
      TotalRemove(index - {key}, k);
      assert index - {k} - {key} == index - {key} - {k};
    }
  }

  predicate IsOldest(index: map<string, Row>, key: string) {
    key in index && forall k | k in index :: index[key].lastUsed <= index[k].lastUsed
  }

  lemma {:induction false} HasOldest(index: map<string, Row>)
    requires index != map[]
    ensures exists key :: IsOldest(index, key)
    decreases |index|
  {
    var key :| key in index;
    var rest := index - {key};
    if rest == map[] {
      assert forall k | k in index :: k == key || k in rest;
      assert IsOldest(index, key);
    } else {
      HasOldest(rest);
      var other :| IsOldest(rest, other);
      assert forall k | k in index :: k == key || k in rest;
      assert IsOldest(index, if index[other].lastUsed < index[key].lastUsed then other else key);
    }
  }

  // --- get and put ---------------------------------------------------------------------

  predicate Usable(st: CacheState, key: string)
    requires st.fs.Valid()
  {
    st.fs.Exists(CacheFile(key)) && IsValidWav(st.fs.Read(CacheFile(key)))
  }

  function GetState(st: CacheState, key: string, dest: Path, now: int, linkOk: bool): CacheState
    requires st.fs.Valid() && dest.ChunkFile?
  {
    var src := CacheFile(key);
    if Usable(st, key) then
      CacheState(LinkOrCopy(st.fs, src, dest, linkOk), Touch(st.index, key, |st.fs.Read(src)|, now))
    else if st.fs.Exists(src) then st.(index := st.index - {key})
    else st
  }

  function PutState(st: CacheState, key: string, src: Path, now: int, linkOk: bool): CacheState
    requires st.fs.Valid() && src.ChunkFile? && st.fs.Exists(src)
  {
    var dst := CacheFile(key);
    if st.fs.Exists(dst) && |st.fs.Read(dst)| > 0 then
      st.(index := Touch(st.index, key, |st.fs.Read(dst)|, now))
    else
      CacheState(LinkOrCopy(st.fs, src, dst, linkOk), Touch(st.index, key, |st.fs.Read(src)|, now))
  }

  // --- eviction ------------------------------------------------------------------------

  function KeysOf(keys: seq<string>): set<string> {
    set k | k in keys
  }

  /** The rows of `gone` are deleted, and their files, except those the system refuses to unlink. */
  function EvictRows(st: CacheState, gone: seq<string>, busy: set<string>): CacheState {
    CacheState(
      st.fs.(dir := st.fs.dir - (set k | k in gone && k !in busy :: CacheFile(k))),
      st.index - KeysOf(gone))
  }

  /** `gone` lists rows without repetition, least recently used first, and nothing older remains. */
  predicate IsLruPrefix(index: map<string, Row>, gone: seq<string>) {
    && (forall k | k in gone :: k in index)
    && (forall i, j | 0 <= i < j < |gone| :: gone[i] != gone[j] && index[gone[i]].lastUsed <= index[gone[j]].lastUsed)
    && (forall i, k | 0 <= i < |gone| && k in index && k !in gone :: index[gone[i]].lastUsed <= index[k].lastUsed)
  }

  /** The shortest such prefix whose removal brings the total to the limit. */
  ghost predicate IsShortestPrefix(index: map<string, Row>, gone: seq<string>, maxBytes: int) {
    && IsLruPrefix(index, gone)
    && (forall i | 0 <= i < |gone| :: TotalSize(index - KeysOf(gone[..i])) > maxBytes)
    && (TotalSize(index - KeysOf(gone)) <= maxBytes || index - KeysOf(gone) == map[])
  }

  class TTSCache {
    var fs: FileSystem
    var index: map<string, Row>
    const maxBytes: int

    function State(): CacheState
      reads this
    {
      CacheState(fs, index)
    }

    constructor (fs: FileSystem, index: map<string, Row>, maxBytes: int)
      ensures State() == CacheState(fs, index) && this.maxBytes == maxBytes
    {
      this.fs, this.index, this.maxBytes := fs, index, maxBytes;
    }

    method Get(key: string, dest: Path, now: int, linkOk: bool) returns (hit: bool)
      requires fs.Valid() && dest.ChunkFile?
      modifies this
      ensures State() == GetState(old(State()), key, dest, now, linkOk)
      ensures hit <==> Usable(old(State()), key)
    {
      var src := CacheFile(key);
      if !(fs.Exists(src) && IsValidWav(fs.Read(src))) {
        if fs.Exists(src) {
          index := index - {key};
        }
        return false;
      }
      var size := |fs.Read(src)|;
      fs := LinkOrCopy(fs, src, dest, linkOk);
      index := Touch(index, key, size, now);
      return true;
    }

    method Put(key: string, src: Path, now: int, linkOk: bool)
      requires fs.Valid() && src.ChunkFile? && fs.Exists(src)
      modifies this
      ensures State() == PutState(old(State()), key, src, now, linkOk)
    {
      var dst := CacheFile(key);
      if fs.Exists(dst) && |fs.Read(dst)| > 0 {
        index := Touch(index, key, |fs.Read(dst)|, now);
        return;
      }
      var size := |fs.Read(src)|;
      fs := LinkOrCopy(fs, src, dst, linkOk);
      index := Touch(index, key, size, now);
    }

    /** `SUM(size)` over the index rows. */
    method CacheTotalSize() returns (total: int)
      ensures total == TotalSize(index)
    {
      total := 0;
      var rest := index;
      while rest != map[]
        invariant total + TotalSize(rest) == TotalSize(index)
        decreases |rest|
      {
        var key :| key in rest;
        TotalRemove(rest, key);
        total := total + rest[key].size;
        rest := rest - {key};
      }
    }

    /** The `limit` least recently used keys, oldest first. */
    method CacheLru(limit: nat) returns (rows: seq<string>)
      ensures IsLruPrefix(index, rows)
      ensures |rows| == limit || index - KeysOf(rows) == map[]
      ensures |rows| <= limit
    {
      hide IsLruPrefix, IsOldest;
      rows := [];
      var rest := index;
      NothingListed(index);
      while |rows| < limit && rest != map[]
        invariant |rows| <= limit && rest == index - KeysOf(rows)
        invariant IsLruPrefix(index, rows)
        decreases |rest|
      {
        HasOldest(rest);
        OldestIsKey(rest);
        var key :| key in rest && IsOldest(rest, key);
        ExtendPrefix(index, rows, key);
        KeysOfAppend(rows, key);
        rows := rows + [key];
        rest := rest - {key};
      }
    }

    /** `evict_to_limit`, in batches of `batch` rows (64 in the source). `busy` are the keys whose file
        the system refuses to unlink. */
    method EvictToLimit(batch: nat, busy: set<string>) returns (evicted: nat, ghost gone: seq<string>)
      requires batch > 0
      modifies this
      ensures State() == EvictRows(old(State()), gone, busy)
      ensures IsShortestPrefix(old(index), gone, maxBytes)
      ensures evicted == |gone|
    {
      hide IsLruPrefix, TotalSize;
      var total := CacheTotalSize();
      evicted, gone := 0, [];
      NothingEvicted(State(), busy, maxBytes);
      while total > maxBytes
        invariant Progress(old(index), gone, total, maxBytes) && evicted == |gone|
        invariant State() == EvictRows(old(State()), gone, busy)
        decreases |index|
      {
        var rows := CacheLru(batch);
        if rows == [] {
          assert index - KeysOf([]) == index;
          break;
        }
        total, evicted, gone := EvictBatch(rows, busy, total, evicted, old(State()), gone);
      }
    }

    /** The inner loop: one batch, until the limit is met. `start` and `gone0` are where the eviction
        started and what it has removed so far. */
    method EvictBatch(rows: seq<string>, busy: set<string>, total0: int, evicted0: nat,
                      ghost start: CacheState, ghost gone0: seq<string>)
      returns (total: int, evicted: nat, ghost gone: seq<string>)
      requires rows != [] && IsLruPrefix(index, rows)
      requires Progress(start.index, gone0, total0, maxBytes) && evicted0 == |gone0| && total0 > maxBytes
      requires State() == EvictRows(start, gone0, busy)
      modifies this
      ensures Progress(start.index, gone, total, maxBytes) && evicted == |gone|
      ensures State() == EvictRows(start, gone, busy)
      ensures |index| < old(|index|)
    {
      hide IsLruPrefix, TotalSize, Progress, EvictRows;
      total, evicted, gone := total0, evicted0, gone0;
      assert rows[0..] == rows;
      for i := 0 to |rows|
        invariant IsLruPrefix(index, rows[i..]) && total > maxBytes
        invariant Progress(start.index, gone, total, maxBytes) && evicted == |gone|
        invariant State() == EvictRows(start, gone, busy)
        invariant |index| + i == old(|index|)
      {
        var key := rows[i];
        var rest := rows[i..];
        assert rest[0] == key && rest[1..] == rows[i + 1..];
        OldestFirst(index, rest);
        var size := index[key].size;
        EvictOne(start, gone, busy, total, maxBytes, rest, State());
        if key !in busy {
          fs := fs.Unlink(CacheFile(key));
        }
        index := index - {key};
        total := total - size;
        evicted := evicted + 1;
        gone := gone + [key];
        if total <= maxBytes {
          return;
        }
      }
    }
  }

  // --- the eviction loop -------------------------------------------------------------------

  /** What the loop has done so far: a least-recently-used prefix is gone, `total` is what remains, and
      the limit was exceeded before each removal. */
  ghost predicate Progress(index: map<string, Row>, gone: seq<string>, total: int, maxBytes: int) {
    && IsLruPrefix(index, gone)
    && total == TotalSize(index - KeysOf(gone))
    && (forall i | 0 <= i < |gone| :: TotalSize(index - KeysOf(gone[..i])) > maxBytes)
  }

  lemma KeysOfAppend(gone: seq<string>, key: string)
    ensures KeysOf(gone + [key]) == KeysOf(gone) + {key}
  {
  }

  lemma {:induction false} ExtendPrefix(index: map<string, Row>, gone: seq<string>, key: string)
    requires IsLruPrefix(index, gone) && IsOldest(index - KeysOf(gone), key)
    ensures IsLruPrefix(index, gone + [key])
  {
    assert forall k | k in index && k !in gone :: k in index - KeysOf(gone);
  }

  lemma {:induction false} NothingListed(index: map<string, Row>)
    ensures index - KeysOf([]) == index && IsLruPrefix(index, [])
  {
  }

  lemma {:induction false} OldestIsKey(index: map<string, Row>)
    ensures forall key | IsOldest(index, key) :: key in index
  {
  }

  lemma {:induction false} NothingEvicted(st: CacheState, busy: set<string>, maxBytes: int)
    ensures EvictRows(st, [], busy) == st && Progress(st.index, [], TotalSize(st.index), maxBytes)
  {
    assert st.index - KeysOf([]) == st.index;
    assert (set k | k in [] && k !in busy :: CacheFile(k)) == {};
    assert st.fs.dir - {} == st.fs.dir;
  }

  lemma {:induction false} OldestFirst(index: map<string, Row>, rows: seq<string>)
    requires rows != [] && IsLruPrefix(index, rows)
    ensures IsOldest(index, rows[0])
  {
    forall k | k in index ensures index[rows[0]].lastUsed <= index[k].lastUsed {
      if k in rows {
        var j :| 0 <= j < |rows| && rows[j] == k;
      }
    }
    assert rows[0] in rows;
  }

  /** Removing the oldest remaining row keeps the loop's account. */
  lemma {:induction false} EvictOne(start: CacheState, gone: seq<string>, busy: set<string>, total: int, maxBytes: int,
                                    rows: seq<string>, st: CacheState)
    requires Progress(start.index, gone, total, maxBytes) && total > maxBytes
    requires st == EvictRows(start, gone, busy) && rows != [] && IsLruPrefix(st.index, rows)
    ensures rows[0] in st.index
    ensures Progress(start.index, gone + [rows[0]], total - st.index[rows[0]].size, maxBytes)
    ensures IsLruPrefix(st.index - {rows[0]}, rows[1..])
    ensures EvictRows(start, gone + [rows[0]], busy) ==
            CacheState(if rows[0] in busy then st.fs else st.fs.Unlink(CacheFile(rows[0])), st.index - {rows[0]})
  {
    hide IsLruPrefix, TotalSize;
    var key := rows[0];
    OldestFirst(st.index, rows);
    TailPrefix(st.index, rows);
    EvictRowsStep(start, gone, busy, key);
    ProgressStep(start.index, gone, total, maxBytes, key);
  }

  lemma {:induction false} ProgressStep(index: map<string, Row>, gone: seq<string>, total: int, maxBytes: int,
                                        key: string)
    requires Progress(index, gone, total, maxBytes) && total > maxBytes && IsOldest(index - KeysOf(gone), key)
    ensures Progress(index, gone + [key], total - index[key].size, maxBytes)
  {
    hide IsLruPrefix, TotalSize;
    var rest := index - KeysOf(gone);
    KeysOfAppend(gone, key);
    TotalRemove(rest, key);
    assert rest - {key} == index - KeysOf(gone + [key]);
    ExtendPrefix(index, gone, key);
    forall i | 0 <= i < |gone + [key]| ensures TotalSize(index - KeysOf((gone + [key])[..i])) > maxBytes {
      assert (gone + [key])[..i] == if i < |gone| then gone[..i] else gone;
    }
  }

  lemma {:induction false} TailPrefix(index: map<string, Row>, rows: seq<string>)
    requires rows != [] && IsLruPrefix(index, rows)
    ensures IsLruPrefix(index - {rows[0]}, rows[1..])
  {
    var rest := rows[1..];
    forall k | k in rest ensures k in index - {rows[0]} {
      var j :| 0 <= j < |rest| && rest[j] == k;
      assert k == rows[j + 1] && rows[0] != rows[j + 1] && k in rows;
    }
  }

  lemma {:induction false} EvictRowsStep(st: CacheState, gone: seq<string>, busy: set<string>, key: string)
    ensures var st' := EvictRows(st, gone, busy);
            EvictRows(st, gone + [key], busy) ==
            CacheState(if key in busy then st'.fs else st'.fs.Unlink(CacheFile(key)), st'.index - {key})
  {
    KeysOfAppend(gone, key);
    var a := set k | k in gone && k !in busy :: CacheFile(k);
    var b := set k | k in gone + [key] && k !in busy :: CacheFile(k);
    assert b == if key in busy then a else a + {CacheFile(key)};
  }

  // --- the simple rule -----------------------------------------------------------------------

  predicate DistinctStamps(index: map<string, Row>) {
    forall j, k | j in index && k in index && j != k :: index[j].lastUsed != index[k].lastUsed
  }

  /** One row at a time, the oldest first, until the total is within the limit. */
  ghost function SimpleEviction(index: map<string, Row>, maxBytes: int): seq<string> {
    if index == map[] || TotalSize(index) <= maxBytes then []
    else
      HasOldest(index);
      var key :| IsOldest(index, key);
      [key] + SimpleEviction(index - {key}, maxBytes)
  }

  /** With stamps in a strict order the batched loop does exactly what the simple rule does, whatever
      the batch size. */
  lemma {:induction false} EvictionIsSimple(index: map<string, Row>, gone: seq<string>, maxBytes: int)
    requires DistinctStamps(index) && IsShortestPrefix(index, gone, maxBytes)
    ensures gone == SimpleEviction(index, maxBytes)
    decreases |index|
  {
    hide IsLruPrefix, TotalSize, IsOldest;
    NothingListed(index);
    if gone != [] {
      var key := gone[0];
      OldestFirst(index, gone);
      OldestIsKey(index);
      ShortestTail(index, gone, maxBytes);
      assert gone[..0] == [];
      EvictionIsSimple(index - {key}, gone[1..], maxBytes);
      SimpleStep(index, key, maxBytes);
      assert gone == [key] + gone[1..];
    }
  }

  lemma {:induction false} SimpleStep(index: map<string, Row>, key: string, maxBytes: int)
    requires DistinctStamps(index) && IsOldest(index, key) && TotalSize(index) > maxBytes
    ensures SimpleEviction(index, maxBytes) == [key] + SimpleEviction(index - {key}, maxBytes)
  {
    hide TotalSize;
    OldestUnique(index, key);
  }

  lemma {:induction false} OldestUnique(index: map<string, Row>, key: string)
    requires DistinctStamps(index) && IsOldest(index, key)
    ensures forall k | IsOldest(index, k) :: k == key
  {
  }

  lemma {:induction false} ShortestTail(index: map<string, Row>, gone: seq<string>, maxBytes: int)
    requires gone != [] && IsShortestPrefix(index, gone, maxBytes)
    ensures IsShortestPrefix(index - {gone[0]}, gone[1..], maxBytes)
  {
    hide IsLruPrefix, TotalSize;
    var rest, index' := gone[1..], index - {gone[0]};
    TailPrefix(index, gone);
    assert gone == [gone[0]] + rest;
    RemoveFirst(index, gone[0], rest);
    forall i | 0 <= i < |rest| ensures TotalSize(index' - KeysOf(rest[..i])) > maxBytes {
      assert gone[..i + 1] == [gone[0]] + rest[..i];
      RemoveFirst(index, gone[0], rest[..i]);
    }
  }

  lemma RemoveFirst(index: map<string, Row>, key: string, rest: seq<string>)
    ensures index - {key} - KeysOf(rest) == index - KeysOf([key] + rest)
  {
  }
}
