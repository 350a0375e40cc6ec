/** `delete_artifacts`, run by itself: `narration/src/narration/delete.py`. */
module Delete {
  import opened Drop

  /** What is met in one attempt: the order in which the temporary folder lists its files, the files the system
      refuses to unlink, and whether Redis fails at the cache record or at the failure mark. */
  datatype Attempt = Attempt(order: seq<Artifact>, stuck: set<Artifact>, recordFails: bool, markFails: bool)

  /** Nothing that is there is stuck, and Redis does what it is asked. */
  predicate NoFault(attempt: Attempt, files: set<Artifact>) {
    attempt.stuck !! files && !attempt.recordFails && !attempt.markFails
  }

  /** The paths to unlink: four fixed ones and whatever the temporary folder holds. */
  function Paths(files: set<Artifact>, order: seq<Artifact>): seq<Artifact> {
    [Opus, HdOpus, Meta, Script] + Present(TmpsIn(files), order)
  }

  function Present(tmps: set<Artifact>, order: seq<Artifact>): (r: seq<Artifact>)
    ensures forall a :: a in r <==> a in order && a in tmps
  {
    if order == [] then []
    else
      var n := |order| - 1;
      Present(tmps, order[..n]) + if order[n] in tmps then [order[n]] else []
  }

  /** The first path, from the `i`-th on, whose file is there and stuck. */
  function FirstStuck(files: set<Artifact>, paths: seq<Artifact>, stuck: set<Artifact>, i: nat): (k: nat)
    requires i <= |paths|
    ensures i <= k <= |paths| && (k < |paths| ==> paths[k] in files && paths[k] in stuck)
    ensures forall j | i <= j < k :: !(paths[j] in files && paths[j] in stuck)
    decreases |paths| - i
  {
    if i == |paths| || (paths[i] in files && paths[i] in stuck) then i else FirstStuck(files, paths, stuck, i + 1)
  }

  /** What an attempt leaves: all but the files listed before the first stuck one. */
  function LeftBy(files: set<Artifact>, attempt: Attempt): set<Artifact> {
    var paths := Paths(files, attempt.order);
    files - set a | a in paths[..FirstStuck(files, paths, attempt.stuck, 0)]
  }

  /** What the first `n` attempts leave. */
  function LeftAfter(files: set<Artifact>, attempts: seq<Attempt>, n: nat): (left: set<Artifact>)
    requires n <= |attempts|
    ensures left <= files
  {
    if n == 0 then files else LeftBy(LeftAfter(files, attempts, n - 1), attempts[n - 1])
  }

  /** Attempt `i` is the one that succeeds. */
  predicate Succeeds(files: set<Artifact>, attempts: seq<Attempt>, i: nat) {
    && i < |attempts| && NoFault(attempts[i], LeftAfter(files, attempts, i))
    && (forall j | 0 <= j < i :: !NoFault(attempts[j], LeftAfter(files, attempts, j)))
  }

  /** The attempt gets as far as to the cache record, and that goes. */
  predicate Erases(attempt: Attempt, files: set<Artifact>) {
    attempt.stuck !! files && !attempt.recordFails
  }

  /** The fixed paths come first and in this order. */
  function UpTo(a: Artifact): set<Artifact> {
    match a
    case Opus => {Opus}
    case HdOpus => {Opus, HdOpus}
    case Meta => {Opus, HdOpus, Meta}
    case _ => {Opus, HdOpus, Meta, Script}
  }

  /** Of the fixed files exactly those stay that come after, or are, one that is stuck; and a temporary file goes
      only when none of the fixed ones is. */
  lemma {:induction false} FixedOrder(files: set<Artifact>, attempt: Attempt, a: Artifact)
    requires a in files
    ensures a in FIXED ==> (a in LeftBy(files, attempt) <==> !(UpTo(a) * files !! attempt.stuck))
    ensures a.Tmp? && a !in LeftBy(files, attempt) ==> FIXED * files !! attempt.stuck
  {
    var paths := Paths(files, attempt.order);
    var k := FirstStuck(files, paths, attempt.stuck, 0);
    assert paths[0] == Opus && paths[1] == HdOpus && paths[2] == Meta && paths[3] == Script;
    forall j | 4 <= j < |paths| ensures paths[j].Tmp? {
      assert paths[j] in Present(TmpsIn(files), attempt.order);
    }
    if a.Tmp? && a in paths[..k] {
      var j :| 0 <= j < k && paths[j] == a;
      assert k > 4;
    }
  }

  /** The temporary folder lists every file it has. */
  predicate ListsAll(files: set<Artifact>, attempt: Attempt) {
    forall a | a in TmpsIn(files) :: a in attempt.order
  }

  /** A file that is stuck in every attempt stays. */
  lemma {:induction false} StuckStays(files: set<Artifact>, attempts: seq<Attempt>, n: nat, a: Artifact)
    requires n <= |attempts| && a in files && forall i | 0 <= i < n :: a in attempts[i].stuck
    ensures a in LeftAfter(files, attempts, n)
    decreases n
  {
    if n > 0 {
      StuckStays(files, attempts, n - 1, a);
    }
  }

  /** The files under one cache key. `chunks` are the chunk audio files, which are no artifacts. */
  class Store {
    var files: set<Artifact>
    var record: bool       // the cache record in Redis
    var failMark: bool     // the mark left by an exhausted deletion
    var chunks: set<nat>

    constructor (files: set<Artifact>, record: bool, failMark: bool, chunks: set<nat>)
      ensures this.files == files && this.record == record && this.failMark == failMark && this.chunks == chunks
    {
      this.files, this.record, this.failMark, this.chunks := files, record, failMark, chunks;
    }

    method ListPaths(order: seq<Artifact>) returns (paths: seq<Artifact>)
      ensures paths == Paths(files, order)
    {
      paths := [Opus, HdOpus, Meta, Script];
      for i := 0 to |order|
        invariant paths == Paths(files, order[..i])
      {
        assert order[..i + 1][..i] == order[..i];
        if order[i] in TmpsIn(files) {
          paths := paths + [order[i]];
        }
      }
      assert order[..|order|] == order;
    }

    /** Unlinking one path after another, until one is stuck. A path that is not there is no error. */
    method UnlinkAll(paths: seq<Artifact>, stuck: set<Artifact>) returns (ok: bool)
      modifies this`files
      ensures files == old(files) - set a | a in paths[..FirstStuck(old(files), paths, stuck, 0)]
      ensures ok <==> forall a | a in paths :: a !in files
      ensures ok <==> forall a | a in paths :: a !in old(files) || a !in stuck
    {
      for i := 0 to |paths|
        invariant files == old(files) - set a | a in paths[..i]
        invariant FirstStuck(old(files), paths, stuck, i) == FirstStuck(old(files), paths, stuck, 0)
        invariant forall j | 0 <= j < i :: paths[j] !in old(files) || paths[j] !in stuck
      {
        if paths[i] in files {
          if paths[i] in stuck {
            return false;
          }
          files := files - {paths[i]};
        }
        assert paths[..i + 1] == paths[..i] + [paths[i]];
      }
      return true;
    }

    /** One attempt. */
    method Try(attempt: Attempt) returns (ok: bool)
      requires CacheRecord !in files && ListsAll(files, attempt)
      modifies this`files, this`record, this`failMark
      ensures files == LeftBy(old(files), attempt) && (record <==> old(record) && !Erases(attempt, old(files)))
      ensures ok <==> NoFault(attempt, old(files))
      ensures ok ==> files == {} && !record
      ensures failMark == (old(failMark) && !ok)
    {
      var paths := ListPaths(attempt.order);
      assert forall a | a in files :: a in paths by { AllListed(files, attempt.order); }
      var unlinked := UnlinkAll(paths, attempt.stuck);
      if !unlinked || attempt.recordFails {
        return false;
      }
      record := false;
      var leftover := exists p :: p in paths && p in files;
      if leftover || attempt.markFails {
        return false;
      }
      failMark := false;
      return true;
    }

    /** The retry-and-verify loop; `attempts` says what each attempt meets, and `lastFails` whether Redis fails
        once more when an exhausted deletion leaves its mark, which then raises. */
    method DeleteArtifacts(attempts: seq<Attempt>, lastFails: bool) returns (ok: bool, raised: bool, tried: nat)
      requires CacheRecord !in files && forall i | 0 <= i < |attempts| :: ListsAll(files, attempts[i])
      modifies this`files, this`record, this`failMark
      // the attempt that succeeds, if any does, is the first that meets no fault in what the others left
      ensures ok <==> exists i: nat :: Succeeds(old(files), attempts, i)
      ensures ok ==> Succeeds(old(files), attempts, tried)
      // success leaves nothing, and takes the mark of an earlier failure away
      ensures ok ==> !raised && files == {} && !record && !failMark
      // exhaustion leaves what the attempts left, and is never silent: it leaves a mark or raises
      ensures !ok ==> files == LeftAfter(old(files), attempts, |attempts|)
      ensures !ok ==> (raised <==> lastFails)
      ensures !ok ==> failMark == (old(failMark) || !raised)
      // the cache record stays exactly when no attempt gets as far as to it
      ensures !ok ==> (record <==> old(record) && forall i | 0 <= i < |attempts| ::
                         !Erases(attempts[i], LeftAfter(old(files), attempts, i)))
    {
      hide NoFault, Erases, LeftBy;
      for i := 0 to |attempts|
        invariant files == LeftAfter(old(files), attempts, i) && failMark == old(failMark)
        invariant forall j | 0 <= j < i :: !NoFault(attempts[j], LeftAfter(old(files), attempts, j))
        invariant record <==> old(record) && forall j | 0 <= j < i ::
                    !Erases(attempts[j], LeftAfter(old(files), attempts, j))
      {
        var done := Try(attempts[i]);
        if done {
          assert Succeeds(old(files), attempts, i);
          return true, false, i;
        }
      }
      if lastFails {
        return false, true, |attempts|;
      }
      failMark := true;
      return false, false, |attempts|;
    }
  }

  lemma AllListed(files: set<Artifact>, order: seq<Artifact>)
    requires CacheRecord !in files && forall a | a in TmpsIn(files) :: a in order
    ensures forall a | a in files :: a in Paths(files, order)
  {
  }

  /** One attempt that meets no fault at all is enough; a file stuck in every attempt, or Redis failing in every
      one, exhausts the deletion. */
  lemma {:induction false} SuccessNeeds(files: set<Artifact>, attempts: seq<Attempt>)
    ensures (exists i :: 0 <= i < |attempts| && NoFault(attempts[i], files)) ==>
              exists i: nat :: Succeeds(files, attempts, i)
    ensures forall a, i: nat | a in files && Succeeds(files, attempts, i) ::
              exists j :: 0 <= j < |attempts| && a !in attempts[j].stuck
    ensures forall i: nat | Succeeds(files, attempts, i) :: !attempts[i].recordFails && !attempts[i].markFails
  {
    if k: nat :| k < |attempts| && NoFault(attempts[k], files) {
      var i := FirstWithout(files, attempts, 0, k);
      assert Succeeds(files, attempts, i);
    }
    forall a, i: nat | a in files && Succeeds(files, attempts, i)
      ensures exists j :: 0 <= j < |attempts| && a !in attempts[j].stuck
    {
      if forall j | 0 <= j < |attempts| :: a in attempts[j].stuck {
        StuckStays(files, attempts, i, a);
        assert false;
      }
    }
  }

  function FirstWithout(files: set<Artifact>, attempts: seq<Attempt>, i: nat, k: nat): (r: nat)
    requires i <= k < |attempts| && NoFault(attempts[k], files)
    ensures i <= r <= k && NoFault(attempts[r], LeftAfter(files, attempts, r))
    ensures forall j | i <= j < r :: !NoFault(attempts[j], LeftAfter(files, attempts, j))
    decreases k - i
  {
    if NoFault(attempts[i], LeftAfter(files, attempts, i)) then i else FirstWithout(files, attempts, i + 1, k)
  }
}
