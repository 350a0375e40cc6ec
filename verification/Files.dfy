/** Files as the synthesis stage and its cache use them: paths lead to inodes, inodes hold bytes, and
    hard links make several paths lead to one inode. An inode number is never used twice. */
module Files {
  newtype byte = x: int | 0 <= x < 256
  type Bytes = seq<byte>

  /** A cache entry, or chunk `idx` of a job. */
  datatype Path = CacheFile(key: string) | ChunkFile(job: nat, idx: nat)

  const MIN_WAV_BYTES := 1024
  const RIFF: Bytes := [82, 73, 70, 70]
  const WAVE: Bytes := [87, 65, 86, 69]

  /** The size and header test made on a wav file's content (`src/narrator/pipeline/wavtools.py`). */
  predicate IsValidWav(b: Bytes) {
    |b| >= MIN_WAV_BYTES && b[..4] == RIFF && b[8..12] == WAVE
  }

  datatype FileSystem = FileSystem(dir: map<Path, nat>, inodes: seq<Bytes>) {
    predicate Valid() {
      forall p | p in dir :: dir[p] < |inodes|
    }

    predicate Exists(p: Path) {
      p in dir
    }

    function Read(p: Path): Bytes
      requires Valid() && Exists(p)
    {
      inodes[dir[p]]
    }

    /** Another path leads to the same inode. */
    predicate Shared(p: Path) {
      p in dir && exists q :: q in dir && q != p && dir[q] == dir[p]
    }

    function Unlink(p: Path): FileSystem {
      this.(dir := dir - {p})
    }

    function Link(src: Path, dst: Path): FileSystem
      requires Exists(src)
    {
      this.(dir := dir[dst := dir[src]])
    }

    /** A new inode under `p`: writing a temporary file and renaming it over `p`, or creating `p`. */
    function Replace(p: Path, b: Bytes): FileSystem {
      FileSystem(dir[p := |inodes|], inodes + [b])
    }

    /** Writing to an inode through an open file: every path to it shows the bytes. */
    function WriteInode(n: nat, b: Bytes): FileSystem
      requires n < |inodes|
    {
      this.(inodes := inodes[n := b])
    }

    /** Opening `p` for writing: an existing inode is truncated and rewritten where it is. */
    function Overwrite(p: Path, b: Bytes): FileSystem
      requires Valid()
    {
      if p in dir then WriteInode(dir[p], b) else Replace(p, b)
    }
  }

  /** `_link_or_copy` (`src/narrator/core/cache.py`): drop `dst`, then link it to `src`, or copy when
      linking fails. */
  function LinkOrCopy(fs: FileSystem, src: Path, dst: Path, linkOk: bool): FileSystem
    requires fs.Valid() && fs.Exists(src) && src != dst
  {
    var cleared := fs.Unlink(dst);
    if linkOk then cleared.Link(src, dst) else cleared.Replace(dst, fs.Read(src))
  }

  lemma LinkOrCopyFacts(fs: FileSystem, src: Path, dst: Path, linkOk: bool)
    requires fs.Valid() && fs.Exists(src) && src != dst
    ensures var fs' := LinkOrCopy(fs, src, dst, linkOk);
            && fs'.Valid() && fs'.Exists(dst) && fs'.Read(dst) == fs.Read(src)
            && fs.inodes <= fs'.inodes
            && (forall p | p != dst :: fs'.Exists(p) <==> fs.Exists(p))
            && (forall p | p != dst && fs.Exists(p) :: fs'.Read(p) == fs.Read(p))
  {
  }
}
