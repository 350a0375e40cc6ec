/** What every step of the worker loops keeps: places, locks, the log of started entries, and how far
    the manifest on disk may be behind the one in memory. */
module SynthControl {
  import opened Wrappers
  import opened Files
  import opened Synth

  // --- pending entries ---------------------------------------------------------------

  predicate Increasing(s: seq<nat>, bound: nat) {
    (forall i | 0 <= i < |s| :: s[i] < bound) && (forall i, j | 0 <= i < j < |s| :: s[i] < s[j])
  }

  /** The pending list names each entry that is not done once, in order. */
  lemma {:induction false} PendingFacts(entries: seq<Entry>)
    ensures Increasing(PendingOf(entries), |entries|)
    ensures forall i: nat | i < |entries| :: i in PendingOf(entries) <==> entries[i].status != Done
  {
    if entries != [] {
      var n := |entries| - 1;
      PendingFacts(entries[..n]);
      assert forall i: nat | i < n :: entries[..n][i] == entries[i];
    }
  }

  lemma PendingEntry(entries: seq<Entry>, p: nat)
    requires p < |PendingOf(entries)|
    ensures PendingOf(entries)[p] < |entries| && entries[PendingOf(entries)[p]].status != Done
  {
    PendingFacts(entries);
    assert PendingOf(entries)[p] in PendingOf(entries);
  }

  /** The chunk file is there and is a valid wav. */
  predicate HoldsWav(fs: FileSystem, i: nat)
    requires fs.Valid()
  {
    fs.Exists(OwnChunk(i)) && IsValidWav(fs.Read(OwnChunk(i)))
  }

  /** A resumed job leaves a chunk out exactly when its text is unchanged, it was done, and its file is a valid
      wav, wherever in the list it stands; and a run cut short before it did anything has lost nothing. */
  lemma {:induction false} ResumeRedoesExactly(fs: FileSystem, prev: seq<Entry>, hashes: seq<string>)
    requires fs.Valid()
    ensures var entries := Reload(fs, prev, hashes);
            && (forall i: nat | i < |hashes| ::
                  i !in PendingOf(entries) <==> i < |prev| && prev[i] == Entry(hashes[i], Done) && HoldsWav(fs, i))
            && Increasing(PendingOf(entries), |hashes|)
            && Reload(fs, entries, hashes) == entries
  {
    hide IsValidWav, PendingOf;
    PendingFacts(Reload(fs, prev, hashes));
    assert forall i: nat | i < |hashes| :: Reusable(fs, Reload(fs, prev, hashes), i, hashes[i]) <==>
                                           Reusable(fs, prev, i, hashes[i]);
  }

  /** A chunk whose file is gone, cut off within its first kilobyte, or without the tags of a wav, is synthesised
      again, whatever the manifest says of it; the placeholder of a skipped chunk serves as its audio. */
  lemma {:induction false} BrokenFilesAreRedone(fs: FileSystem, prev: seq<Entry>, hashes: seq<string>, i: nat)
    requires fs.Valid() && i < |hashes|
    ensures i !in PendingOf(Reload(fs, prev, hashes)) ==>
              fs.Exists(OwnChunk(i)) && |fs.Read(OwnChunk(i))| >= 1024 &&
              fs.Read(OwnChunk(i))[..4] == [82, 73, 70, 70] && fs.Read(OwnChunk(i))[8..12] == [87, 65, 86, 69]
    ensures fs.Exists(OwnChunk(i)) && fs.Read(OwnChunk(i)) == Silence(200) &&
            i < |prev| && prev[i] == Entry(hashes[i], Done) ==>
            i !in PendingOf(Reload(fs, prev, hashes))
  {
    hide PendingOf, Reload;
    ResumeRedoesExactly(fs, prev, hashes);
  }

  // --- the invariant -----------------------------------------------------------------------

  predicate Dispatching(wk: Worker) {
    wk.Checking? || wk.Yielding? || wk.Cleared?
  }

  predicate Writing(wk: Worker) {
    wk.Saving? || wk.Publishing?
  }

  /** The worker has an entry that it has not marked. */
  predicate Unmarked(wk: Worker) {
    Owner(wk) && !wk.Marked? && !Writing(wk) && !wk.Dead?
  }

  /** The worker may have marked its entry and not yet put it on disk. */
  predicate Holding(wk: Worker) {
    Owner(wk) && !Dispatching(wk) && !wk.Publishing?
  }

  predicate Shape(r: Run) {
    && r.pending == PendingOf(r.loaded) && |r.mem| == |r.loaded| && r.next <= |r.pending|
    && Increasing(r.pending, |r.mem|)
    && (forall i | 0 <= i < |r.mem| :: r.mem[i].hash == r.loaded[i].hash && r.loaded[i].status != Failed)
    && r.engine <= (set i | i in r.pending)
  }

  predicate Seat(r: Run, w: nat)
    requires w < |r.workers|
  {
    var wk := r.workers[w];
    && (Owner(wk) ==> wk.pos < r.next)
    && (Dispatching(wk) ==> wk.pos == r.next - 1)
    && (Dispatching(wk) <==> r.dispatcher == Some(w))
    && (Writing(wk) <==> r.saver == Some(w))
    && (wk.Silencing? || wk.Finished? ==> wk.status != Pending)
    && (wk.Stopped? && !r.cancelled ==> r.next == |r.pending|)
  }

  predicate Seats(r: Run) {
    && (forall w | 0 <= w < |r.workers| :: Seat(r, w))
    && (r.dispatcher.Some? ==> r.dispatcher.value < |r.workers|)
    && (r.saver.Some? ==> r.saver.value < |r.workers|)
  }

  /** No two workers have the same entry. */
  predicate Apart(workers: seq<Worker>) {
    forall v, w | 0 <= v < w < |workers| :: Owner(workers[v]) && Owner(workers[w]) ==> workers[v].pos != workers[w].pos
  }

  predicate Taken(workers: seq<Worker>, p: nat) {
    exists w :: 0 <= w < |workers| && Owner(workers[w]) && workers[w].pos == p
  }

  /** What the manifest in memory says about each entry. */
  predicate Marks(r: Run)
    requires Shape(r)
  {
    && (forall i | 0 <= i < |r.mem| && r.loaded[i].status == Done :: r.mem[i] == r.loaded[i])
    && (forall p | r.next <= p < |r.pending| :: StatusAt(r.mem, r.pending, p) == Pending)
    && (forall w | 0 <= w < |r.workers| :: Mirrored(r, w))
  }

  /** A worker's entry is pending until the worker marks it. */
  predicate Mirrored(r: Run, w: nat)
    requires Shape(r) && w < |r.workers|
  {
    var wk := r.workers[w];
    Owner(wk) && wk.pos < |r.pending| ==>
      && (Unmarked(wk) ==> StatusAt(r.mem, r.pending, wk.pos) == Pending)
      && (wk.Marked? || Writing(wk) ==> StatusAt(r.mem, r.pending, wk.pos) != Pending)
  }

  /** The status of the entry at place `p` of the pending list. */
  function StatusAt(mem: seq<Entry>, pending: seq<nat>, p: nat): Status
    requires p < |pending| && Increasing(pending, |mem|)
  {
    mem[pending[p]].status
  }

  predicate Holds(r: Run, wk: Worker, i: nat) {
    Holding(wk) && wk.pos < |r.pending| && r.pending[wk.pos] == i
  }

  predicate HeldByOther(r: Run, w: nat, i: nat) {
    exists v :: 0 <= v < |r.workers| && v != w && Holds(r, r.workers[v], i)
  }

  /** `m` is the manifest in memory as it is or was: it never claims more, and it is behind only where
      a worker other than `w` is between taking its entry and saving it. */
  predicate Image(r: Run, m: seq<Entry>, w: nat) {
    && |m| == |r.mem|
    && (forall i | 0 <= i < |m| ::
          && m[i].hash == r.mem[i].hash
          && (m[i].status == Done ==> m[i] == r.mem[i])
          && (m[i] == r.mem[i] || HeldByOther(r, w, i)))
  }

  /** The disk's manifest, and every serialised one, is such an image. */
  predicate Images(r: Run, disk: seq<Entry>) {
    && Image(r, disk, |r.workers|)
    && (forall w | 0 <= w < |r.workers| && r.workers[w].Saving? :: Image(r, r.workers[w].snap, w))
  }

  function StartBound(r: Run): int {
    if r.dispatcher.Some? then r.next - 1 else r.next
  }

  /** Nothing has cut the run short. */
  predicate Undisturbed(r: Run) {
    !r.cancelled && forall w | 0 <= w < |r.workers| :: !r.workers[w].Dead?
  }

  /** The places started: none twice, and none left out while nothing disturbs the run. */
  predicate Log(r: Run)
    requires Shape(r)
  {
    && StartBound(r) >= 0
    && Increasing(r.started, StartBound(r))
    && (Undisturbed(r) ==>
          && |r.started| == StartBound(r)
          && (forall p | 0 <= p < r.next :: Taken(r.workers, p) || StatusAt(r.mem, r.pending, p) != Pending))
  }

  ghost predicate Control(r: Run, disk: seq<Entry>) {
    Shape(r) && Seats(r) && Apart(r.workers) && Marks(r) && Images(r, disk) && Log(r)
  }

  // --- steps within one entry ------------------------------------------------------------

  /** The worker goes on with its entry, which it does not mark. */
  predicate Quiet(wk: Worker, wk': Worker) {
    && Unmarked(wk) && Unmarked(wk') && wk'.pos == wk.pos && (Dispatching(wk') <==> Dispatching(wk))
    && (wk'.Silencing? || wk'.Finished? ==> wk'.status != Pending)
  }

  predicate KeepsHolding(workers: seq<Worker>, workers': seq<Worker>) {
    && |workers'| == |workers|
    && (forall v | 0 <= v < |workers| && Holding(workers[v]) ::
          Holding(workers'[v]) && workers'[v].pos == workers[v].pos)
  }

  lemma {:induction false} StillHeld(r: Run, r': Run, w: nat, i: nat)
    requires KeepsHolding(r.workers, r'.workers) && r'.pending == r.pending && HeldByOther(r, w, i)
    ensures HeldByOther(r', w, i)
  {
    hide Holding;
    var v :| 0 <= v < |r.workers| && v != w && Holds(r, r.workers[v], i);
    assert Holds(r', r'.workers[v], i);
  }

  lemma {:induction false} ImageKept(r: Run, r': Run, m: seq<Entry>, w: nat)
    requires Image(r, m, w) && KeepsHolding(r.workers, r'.workers) && r'.pending == r.pending && r'.mem == r.mem
    ensures Image(r', m, w)
  {
    hide KeepsHolding, HeldByOther;
    forall i | 0 <= i < |m| && m[i] != r.mem[i] ensures HeldByOther(r', w, i) {
      StillHeld(r, r', w, i);
    }
  }

  /** Images stay images while the manifest in memory does, and nobody lets go of an entry. */
  lemma {:induction false} ImagesKept(r: Run, r': Run, disk: seq<Entry>)
    requires Images(r, disk) && KeepsHolding(r.workers, r'.workers) && r'.pending == r.pending && r'.mem == r.mem
    requires forall v | 0 <= v < |r.workers| && r'.workers[v].Saving? :: r'.workers[v] == r.workers[v]
    ensures Images(r', disk)
  {
    assert |r'.workers| == |r.workers|;
    hide KeepsHolding, Image;
    ImageKept(r, r', disk, |r.workers|);
    forall w | 0 <= w < |r'.workers| && r'.workers[w].Saving? ensures Image(r', r'.workers[w].snap, w) {
      ImageKept(r, r', r'.workers[w].snap, w);
    }
  }

  lemma {:induction false} TakenKept(workers: seq<Worker>, w: nat, wk: Worker, p: nat)
    requires w < |workers| && (Owner(workers[w]) ==> Owner(wk) && wk.pos == workers[w].pos) && Taken(workers, p)
    ensures Taken(workers[w := wk], p)
  {
    var v :| 0 <= v < |workers| && Owner(workers[v]) && workers[v].pos == p;
    assert Owner(workers[w := wk][v]) && workers[w := wk][v].pos == p;
  }

  lemma {:induction false} QuietLog(r: Run, w: nat, wk: Worker, engine: set<nat>)
    requires Shape(r) && Log(r) && w < |r.workers| && Quiet(r.workers[w], wk)
    requires engine <= (set i | i in r.pending)
    ensures Log(r.(workers := r.workers[w := wk], engine := engine))
  {
    var r' := r.(workers := r.workers[w := wk], engine := engine);
    if Undisturbed(r') {
      assert Undisturbed(r) by {
        assert forall v | 0 <= v < |r.workers| && v != w :: r.workers[v] == r'.workers[v];
      }
      forall p | 0 <= p < r.next && Taken(r.workers, p) ensures Taken(r'.workers, p) {
        TakenKept(r.workers, w, wk, p);
      }
    }
  }

  lemma {:induction false} QuietStep(r: Run, disk: seq<Entry>, w: nat, wk: Worker, engine: set<nat>)
    requires Control(r, disk) && w < |r.workers| && Quiet(r.workers[w], wk)
    requires engine <= (set i | i in r.pending)
    ensures Control(r.(workers := r.workers[w := wk], engine := engine), disk)
  {
    hide Log, Images, PendingOf;
    var r' := r.(workers := r.workers[w := wk], engine := engine);
    QuietLog(r, w, wk, engine);
    ImagesKept(r, r', disk);
    forall v | 0 <= v < |r.workers| ensures Seat(r', v) && Mirrored(r', v) {
      assert Seat(r, v) && Mirrored(r, v);
    }
  }

  // --- steps between entries -----------------------------------------------------------

  /** Taking the next entry, under the dispatch lock. */
  lemma {:induction false} TakeStep(r: Run, disk: seq<Entry>, w: nat)
    requires Control(r, disk) && w < |r.workers| && r.workers[w].Waiting? && r.dispatcher == None
    requires r.next < |r.pending|
    ensures Control(SetWorker(r, w, Checking(r.next)).(next := r.next + 1, dispatcher := Some(w)), disk)
  {
    hide Images, PendingOf;
    var r' := SetWorker(r, w, Checking(r.next)).(next := r.next + 1, dispatcher := Some(w));
    ImagesKept(r, r', disk);
    forall v | 0 <= v < |r.workers| ensures Seat(r', v) && Mirrored(r', v) {
      assert Seat(r, v) && Mirrored(r, v);
    }
    assert Apart(r'.workers) by {
      assert forall v | 0 <= v < |r.workers| && v != w :: Seat(r, v) && r'.workers[v] == r.workers[v];
    }
    if Undisturbed(r') {
      assert Undisturbed(r) by {
        assert forall v | 0 <= v < |r.workers| && v != w :: r.workers[v] == r'.workers[v];
      }
      assert Taken(r'.workers, r.next);
      forall p | 0 <= p < r.next && Taken(r.workers, p) ensures Taken(r'.workers, p) {
        TakenKept(r.workers, w, Checking(r.next), p);
      }
    }
  }

  /** Returning, because the run is cancelled or nothing is left. */
  lemma {:induction false} HaltStep(r: Run, disk: seq<Entry>, w: nat)
    requires Control(r, disk) && w < |r.workers| && r.workers[w].Waiting? && r.dispatcher == None
    requires r.cancelled || r.next == |r.pending|
    ensures Control(SetWorker(r, w, Stopped), disk)
  {
    hide Images, PendingOf;
    var r' := SetWorker(r, w, Stopped);
    ImagesKept(r, r', disk);
    forall v | 0 <= v < |r.workers| ensures Seat(r', v) && Mirrored(r', v) {
      assert Seat(r, v) && Mirrored(r, v);
    }
    if Undisturbed(r') {
      assert Undisturbed(r) by {
        assert forall v | 0 <= v < |r.workers| && v != w :: r.workers[v] == r'.workers[v];
      }
      forall p | 0 <= p < r.next && Taken(r.workers, p) ensures Taken(r'.workers, p) {
        TakenKept(r.workers, w, Stopped, p);
      }
    }
  }

  /** Finding the cancel flag set. */
  lemma {:induction false} CancelStep(r: Run, disk: seq<Entry>, w: nat)
    requires Control(r, disk) && w < |r.workers| && r.workers[w].Checking?
    ensures Control(SetWorker(r, w, Stopped).(cancelled := true, dispatcher := None), disk)
  {
    hide Images, PendingOf;
    var r' := SetWorker(r, w, Stopped).(cancelled := true, dispatcher := None);
    ImagesKept(r, r', disk);
    assert Seat(r, w);
    forall v | 0 <= v < |r.workers| ensures Seat(r', v) && Mirrored(r', v) {
      assert Seat(r, v) && Mirrored(r, v);
    }
  }

  /** Letting the dispatch lock go and starting the entry. */
  lemma {:induction false} StartStep(r: Run, disk: seq<Entry>, w: nat)
    requires Control(r, disk) && w < |r.workers| && r.workers[w].Cleared?
    ensures Control(SetWorker(r, w, Working(r.workers[w].pos, 0)).(
                      dispatcher := None, started := r.started + [r.workers[w].pos]), disk)
  {
    hide Images, PendingOf;
    var pos := r.workers[w].pos;
    var r' := SetWorker(r, w, Working(pos, 0)).(dispatcher := None, started := r.started + [pos]);
    ImagesKept(r, r', disk);
    assert Seat(r, w);
    forall v | 0 <= v < |r.workers| ensures Seat(r', v) && Mirrored(r', v) {
      assert Seat(r, v) && Mirrored(r, v);
    }
    if Undisturbed(r') {
      assert Undisturbed(r) by {
        assert forall v | 0 <= v < |r.workers| && v != w :: r.workers[v] == r'.workers[v];
      }
      forall p | 0 <= p < r.next && Taken(r.workers, p) ensures Taken(r'.workers, p) {
        TakenKept(r.workers, w, Working(pos, 0), p);
      }
    }
  }

  function Raised(r: Run, w: nat, engine: set<nat>): Run
    requires w < |r.workers| && Owner(r.workers[w])
  {
    SetWorker(r, w, Dead(r.workers[w].pos)).(
      dispatcher := if r.dispatcher == Some(w) then None else r.dispatcher,
      saver := if r.saver == Some(w) then None else r.saver,
      engine := engine)
  }

  lemma {:induction false} RaiseSeats(r: Run, w: nat, engine: set<nat>)
    requires Shape(r) && Seats(r) && Marks(r) && w < |r.workers| && Owner(r.workers[w])
    requires engine <= (set i | i in r.pending)
    ensures Seats(Raised(r, w, engine)) && Marks(Raised(r, w, engine))
  {
    hide Increasing, PendingOf;
    var r' := Raised(r, w, engine);
    assert Seat(r, w);
    forall v | 0 <= v < |r.workers| ensures Seat(r', v) && Mirrored(r', v) {
      assert Seat(r, v) && Mirrored(r, v);
    }
  }

  /** Raising: the locks are released, the entry stays as it is. */
  lemma {:induction false} RaiseStep(r: Run, disk: seq<Entry>, w: nat, engine: set<nat>)
    requires Control(r, disk) && w < |r.workers| && Owner(r.workers[w]) && engine <= (set i | i in r.pending)
    ensures Control(Raised(r, w, engine), disk)
  {
    hide Images, PendingOf, Seats, Marks;
    var r' := Raised(r, w, engine);
    ImagesKept(r, r', disk);
    RaiseSeats(r, w, engine);
    assert r'.workers[w].Dead?;
    assert Seat(r, w) by {
      assert Seats(r);
      SeatOf(r, w);
    }
  }

  lemma SeatOf(r: Run, w: nat)
    requires Seats(r) && w < |r.workers|
    ensures Seat(r, w)
  {
  }

  // --- steps that mark and save ------------------------------------------------------------

  lemma {:induction false} MarkImage(r: Run, r': Run, m: seq<Entry>, w: nat, v: nat, i: nat)
    requires Image(r, m, v) && i < |r.mem| && r.mem[i].status != Done && w != v && w < |r.workers|
    requires KeepsHolding(r.workers, r'.workers) && r'.pending == r.pending && Holds(r', r'.workers[w], i)
    requires |r'.mem| == |r.mem| && r'.mem[i].hash == r.mem[i].hash
    requires forall j | 0 <= j < |r.mem| && j != i :: r'.mem[j] == r.mem[j]
    ensures Image(r', m, v)
  {
    assert |r'.workers| == |r.workers|;
    assert HeldByOther(r', v, i);
    hide KeepsHolding, HeldByOther;
    forall j | 0 <= j < |m| && m[j] != r.mem[j] ensures HeldByOther(r', v, j) {
      StillHeld(r, r', v, j);
    }
  }

  function MarkedRun(r: Run, w: nat, i: nat, status: Status): Run
    requires w < |r.workers| && Owner(r.workers[w]) && i < |r.mem|
  {
    SetWorker(r, w, Marked(r.workers[w].pos)).(mem := r.mem[i := Entry(r.mem[i].hash, status)])
  }

  lemma {:induction false} MarkImages(r: Run, disk: seq<Entry>, w: nat, status: Status)
    requires Shape(r) && Images(r, disk) && w < |r.workers| && r.workers[w].Finished? && r.workers[w].pos < |r.pending|
    requires StatusAt(r.mem, r.pending, r.workers[w].pos) == Pending
    ensures Images(MarkedRun(r, w, r.pending[r.workers[w].pos], status), disk)
  {
    hide Image, PendingOf;
    var i := r.pending[r.workers[w].pos];
    var r' := MarkedRun(r, w, i, status);
    MarkImage(r, r', disk, w, |r.workers|, i);
    forall v | 0 <= v < |r'.workers| && r'.workers[v].Saving? ensures Image(r', r'.workers[v].snap, v) {
      MarkImage(r, r', r'.workers[v].snap, w, v, i);
    }
  }

  lemma {:induction false} MarkLog(r: Run, w: nat, status: Status)
    requires Shape(r) && Log(r) && w < |r.workers| && r.workers[w].Finished? && r.workers[w].pos < |r.pending|
    ensures var r' := MarkedRun(r, w, r.pending[r.workers[w].pos], status); Shape(r') && Log(r')
  {
    hide PendingOf;
    var pos := r.workers[w].pos;
    var r' := MarkedRun(r, w, r.pending[pos], status);
    if Undisturbed(r') {
      assert Undisturbed(r) by {
        assert forall v | 0 <= v < |r.workers| && v != w :: r.workers[v] == r'.workers[v];
      }
      assert Owner(r.workers[w]) && Taken(r.workers, pos);
      forall p | 0 <= p < r.next ensures Taken(r'.workers, p) || StatusAt(r'.mem, r'.pending, p) != Pending {
        assert Taken(r.workers, p) || StatusAt(r.mem, r.pending, p) != Pending;
        if Taken(r.workers, p) {
          TakenKept(r.workers, w, Marked(pos), p);
        }
      }
    }
  }

  /** Marking the entry. */
  lemma {:induction false} MarkStep(r: Run, disk: seq<Entry>, w: nat, status: Status)
    requires Control(r, disk) && w < |r.workers| && r.workers[w].Finished? && r.workers[w].pos < |r.pending|
    requires status != Pending
    ensures Control(MarkedRun(r, w, r.pending[r.workers[w].pos], status), disk)
  {
    hide Images, PendingOf, Log;
    var pos := r.workers[w].pos;
    var r' := MarkedRun(r, w, r.pending[pos], status);
    assert Seat(r, w) && Mirrored(r, w);
    MarkImages(r, disk, w, status);
    MarkLog(r, w, status);
    forall p | 0 <= p < |r.pending| ensures
      StatusAt(r'.mem, r'.pending, p) == if p == pos then status else StatusAt(r.mem, r.pending, p)
    {
    }
    forall v | 0 <= v < |r.workers| ensures Seat(r', v) && Mirrored(r', v) {
      assert Seat(r, v) && Mirrored(r, v);
    }
    PendingEntry(r.loaded, pos);
  }

  lemma {:induction false} SnapshotImages(r: Run, disk: seq<Entry>, w: nat)
    requires Images(r, disk) && w < |r.workers| && r.workers[w].Marked?
    ensures Images(SetWorker(r, w, Saving(r.workers[w].pos, r.mem)).(saver := Some(w)), disk)
  {
    hide Image;
    var r' := SetWorker(r, w, Saving(r.workers[w].pos, r.mem)).(saver := Some(w));
    ImageKept(r, r', disk, |r.workers|);
    forall v | 0 <= v < |r'.workers| && r'.workers[v].Saving? ensures Image(r', r'.workers[v].snap, v) {
      if v == w {
        OwnImage(r', w);
      } else {
        ImageKept(r, r', r'.workers[v].snap, v);
      }
    }
  }

  lemma OwnImage(r: Run, w: nat)
    ensures Image(r, r.mem, w)
  {
  }

  /** The worker's place and marks stay, and so do all others'. */
  lemma {:induction false} SaverLog(r: Run, w: nat, wk: Worker, saver: Option<nat>)
    requires Shape(r) && Log(r) && w < |r.workers|
    requires Owner(r.workers[w]) && Owner(wk) && !wk.Dead? && !r.workers[w].Dead? && wk.pos == r.workers[w].pos
    ensures Log(SetWorker(r, w, wk).(saver := saver))
  {
    hide PendingOf;
    var r' := SetWorker(r, w, wk).(saver := saver);
    if Undisturbed(r') {
      assert Undisturbed(r) by {
        assert forall v | 0 <= v < |r.workers| && v != w :: r.workers[v] == r'.workers[v];
      }
      forall p | 0 <= p < r.next && Taken(r.workers, p) ensures Taken(r'.workers, p) {
        TakenKept(r.workers, w, wk, p);
      }
    }
  }

  /** Taking the manifest lock and serialising the manifest. */
  lemma {:induction false} SnapshotStep(r: Run, disk: seq<Entry>, w: nat)
    requires Control(r, disk) && w < |r.workers| && r.workers[w].Marked? && r.saver == None
    ensures Control(SetWorker(r, w, Saving(r.workers[w].pos, r.mem)).(saver := Some(w)), disk)
  {
    hide Images, PendingOf, Log;
    var r' := SetWorker(r, w, Saving(r.workers[w].pos, r.mem)).(saver := Some(w));
    SnapshotImages(r, disk, w);
    SaverLog(r, w, Saving(r.workers[w].pos, r.mem), Some(w));
    forall v | 0 <= v < |r.workers| ensures Seat(r', v) && Mirrored(r', v) {
      assert Seat(r, v) && Mirrored(r, v);
    }
  }

  lemma {:induction false} WriteImages(r: Run, disk: seq<Entry>, w: nat)
    requires Images(r, disk) && Seats(r) && w < |r.workers| && r.workers[w].Saving?
    ensures Images(SetWorker(r, w, Publishing(r.workers[w].pos)), r.workers[w].snap)
  {
    hide Holding;
    var snap := r.workers[w].snap;
    var r' := SetWorker(r, w, Publishing(r.workers[w].pos));
    forall i | 0 <= i < |snap| && HeldByOther(r, w, i) ensures HeldByOther(r', |r.workers|, i) {
      var v :| 0 <= v < |r.workers| && v != w && Holds(r, r.workers[v], i);
      assert Holds(r', r'.workers[v], i);
    }
    OneSaver(r, w);
  }

  lemma {:induction false} OneSaver(r: Run, w: nat)
    requires Seats(r) && w < |r.workers| && r.workers[w].Saving?
    ensures forall v | 0 <= v < |r.workers| && v != w :: !r.workers[v].Saving?
  {
    assert Seat(r, w);
    forall v | 0 <= v < |r.workers| && v != w ensures !r.workers[v].Saving? {
      assert Seat(r, v);
    }
  }

  /** Replacing the manifest on disk. */
  lemma {:induction false} WriteStep(r: Run, disk: seq<Entry>, w: nat)
    requires Control(r, disk) && w < |r.workers| && r.workers[w].Saving?
    ensures Control(SetWorker(r, w, Publishing(r.workers[w].pos)), r.workers[w].snap)
  {
    hide Images, PendingOf, Log;
    var r' := SetWorker(r, w, Publishing(r.workers[w].pos));
    WriteImages(r, disk, w);
    SaverLog(r, w, Publishing(r.workers[w].pos), r.saver);
    forall v | 0 <= v < |r.workers| ensures Seat(r', v) && Mirrored(r', v) {
      assert Seat(r, v) && Mirrored(r, v);
    }
  }

  /** Letting the manifest lock go: the entry is settled. */
  lemma {:induction false} ReleaseStep(r: Run, disk: seq<Entry>, w: nat)
    requires Control(r, disk) && w < |r.workers| && r.workers[w].Publishing?
    ensures Control(SetWorker(r, w, Waiting).(saver := None), disk)
  {
    hide Images, PendingOf;
    var r' := SetWorker(r, w, Waiting).(saver := None);
    ImagesKept(r, r', disk);
    assert Seat(r, w) && Mirrored(r, w);
    forall v | 0 <= v < |r.workers| ensures Seat(r', v) && Mirrored(r', v) {
      assert Seat(r, v) && Mirrored(r, v);
    }
    if Undisturbed(r') {
      assert Undisturbed(r) by {
        assert forall v | 0 <= v < |r.workers| && v != w :: r.workers[v] == r'.workers[v];
      }
      forall p | 0 <= p < r.next && Taken(r.workers, p) && p != r.workers[w].pos ensures Taken(r'.workers, p) {
        var v :| 0 <= v < |r.workers| && Owner(r.workers[v]) && r.workers[v].pos == p;
        assert Owner(r'.workers[v]) && r'.workers[v].pos == p;
      }
    }
  }

  // --- every step ------------------------------------------------------------------------

  lemma {:induction false} ChunkIsQuiet(s: State, r: Run, a: Act)
    requires ChunkAct(a) && s.fs.Valid() && WorkerEnabled(s, r, a)
    requires r.workers[a.w].Silencing? ==> r.workers[a.w].status != Pending
    ensures Quiet(r.workers[a.w], Advance(s, r, a))
  {
    hide IsValidWav, CanCopy, Placeholder;
  }

  /** Every step of a worker keeps the invariant. */
  lemma {:induction false} ControlStep(s: State, r: Run, a: Act, disk: seq<Entry>)
    requires OwnAct(a) && s.fs.Valid() && WorkerEnabled(s, r, a) && Control(r, disk)
    ensures Control(WorkerStep(s, r, a), if a.Write? then r.workers[a.w].snap else disk)
  {
    hide Shape, Seats, Apart, Marks, Images, Log, Advance, IsValidWav;
    var w := a.w;
    var wk := r.workers[w];
    ShapeOf(r);
    SeatOf(r, w);
    if ChunkAct(a) {
      ChunkIsQuiet(s, r, a);
      QuietStep(r, disk, w, WorkerStep(s, r, a).workers[w], WorkerStep(s, r, a).engine);
    } else {
      match a {
        case Acquire(_) =>
          if r.cancelled || r.next == |r.pending| { HaltStep(r, disk, w); } else { TakeStep(r, disk, w); }
        case CheckCancel(_) =>
          if s.cancelFlag {
            CancelStep(r, disk, w);
          } else {
            QuietStep(r, disk, w, WorkerStep(s, r, a).workers[w], r.engine);
          }
        case Poll(_) => QuietStep(r, disk, w, Cleared(wk.pos), r.engine);
        case Start(_) => StartStep(r, disk, w);
        case Mark(_) => MarkStep(r, disk, w, wk.status);
        case Snapshot(_) => SnapshotStep(r, disk, w);
        case Write(_) => WriteStep(r, disk, w);
        case Release(_) => ReleaseStep(r, disk, w);
        case Raise(_) => RaiseStep(r, disk, w, WorkerStep(s, r, a).engine);
      }
    }
  }

  lemma ShapeOf(r: Run)
    requires Shape(r)
    ensures r.next <= |r.pending| && |r.mem| == |r.loaded|
    ensures r.engine <= (set i | i in r.pending)
  {
  }

  /** A run as it is opened. */
  lemma {:induction false} ControlAtStart(entries: seq<Entry>, n: nat)
    requires forall i | 0 <= i < |entries| :: entries[i].status != Failed
    ensures Control(Opened(entries, n), entries)
  {
    var r := Opened(entries, n);
    PendingFacts(entries);
    forall p | 0 <= p < |r.pending| ensures StatusAt(r.mem, r.pending, p) == Pending {
      PendingEntry(entries, p);
    }
  }
}
