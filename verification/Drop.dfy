/** The race between a narration job, which writes audio, and a drop, which deletes it, for one article
    and its one cache key: `narration/src/narration/pipeline.py`, `delete.py` and the `enqueue` route of
    `api/main.py`. Every thread runs concurrently with every other, in steps. */
module Drop {
  import opened Wrappers
  import opened EnqueuePolicy

  /** What `delete_artifacts` is meant to remove. `Tmp(n)` is any file in the key's temporary folder. */
  datatype Artifact = Opus | HdOpus | Meta | Script | CacheRecord | Tmp(n: nat)

  const ATTEMPTS: nat := 5

  /** A `delete_artifacts` under way: about to list the paths, or working through the list. */
  datatype Sweep =
    | Listing(tries: nat)
    | Removing(tries: nat, listed: set<Artifact>, todo: set<Artifact>)

  datatype Thread =
    // generate
    | Begun                      // about to read the article record
    | Refused(sweep: Sweep)      // the record was deleted already
    | Chosen                     // about to look in the cache, at the breaker and the memory, and to take the lock
    | Locked                     // about to mark the article as generating
    | Announced                  // about to check for a drop, outside the try
    | Aborting(sweep: Sweep)     // that check found one
    | Body                       // inside the try
    | BodyAborting(sweep: Sweep) // a check inside the try found one
    | Dropped(sweep: Sweep)      // the handler of that check deletes again
    | Failing                    // the handler of any other error is about to read the record
    | FailingDropped(sweep: Sweep)
    | Reporting                  // that handler found the article live and is about to bind a fallback
    | Leaving                    // about to read the record in the finally
    | LeavingDropped(sweep: Sweep)
    | Unlocking
    | Over(ran: bool, leaked: bool)   // `ran`: it was in the try; `leaked`: it left the lock behind
    // drop_article_audio
    | DropBegun                  // about to read and bind the record
    | DropSweeping(sweep: Sweep)
    | DropOver(ok: bool)

  datatype State = State(
    record: Option<Record>,
    artifacts: set<Artifact>,
    lock: Option<nat>,           // the thread that holds the key's lock
    threads: seq<Thread>,
    // what is there for a reason of its own: the last to touch it was ...
    strays: set<Artifact>,       // ... a task that its job no longer waited for
    abandoned: set<Artifact>)    // ... nobody, since a delete ran out of attempts with none listing the files later

  // --- records ----------------------------------------------------------------------------

  /** `_set_article` with the cache key: a deleted record stays. */
  function SetArticle(record: Option<Record>, status: Status): Option<Record> {
    if record.Some? && record.value.status.Deleted? then record else Some(Record(status, true))
  }

  predicate IsDeleted(record: Option<Record>) {
    record.Some? && record.value.status.Deleted?
  }

  predicate IsRemoved(record: Option<Record>) {
    record.Some? && record.value.status == Deleted(true)
  }

  /** `mark_listened`, called with or without the cache key. */
  function Listened(record: Option<Record>, withKey: bool): Option<Record> {
    if IsDeleted(record) then record
    else if record == None then Some(Record(Ready, withKey))
    else Some(record.value.(keyed := withKey || record.value.keyed))
  }

  // --- deletion ---------------------------------------------------------------------------

  const FIXED: set<Artifact> := {Opus, HdOpus, Meta, Script}

  function TmpsIn(artifacts: set<Artifact>): set<Artifact> {
    set a | a in artifacts && a.Tmp?
  }

  function Listed(artifacts: set<Artifact>): set<Artifact> {
    FIXED + TmpsIn(artifacts)
  }

  /** The sweep a thread is in, if any. */
  function SweepOf(th: Thread): Option<Sweep> {
    match th
    case Refused(sw) => Some(sw)
    case Aborting(sw) => Some(sw)
    case BodyAborting(sw) => Some(sw)
    case Dropped(sw) => Some(sw)
    case FailingDropped(sw) => Some(sw)
    case LeavingDropped(sw) => Some(sw)
    case DropSweeping(sw) => Some(sw)
    case _ => None
  }

  function WithSweep(th: Thread, sw: Sweep): Thread
    requires SweepOf(th).Some?
  {
    th.(sweep := sw)
  }

  /** Where the thread goes when `delete_artifacts` returns. */
  function Swept(th: Thread, ok: bool): Thread
    requires SweepOf(th).Some?
  {
    match th
    case Refused(_) => Over(false, false)
    case Aborting(_) => Over(false, true)
    case BodyAborting(_) => Dropped(Listing(0))
    case Dropped(_) => Leaving
    case FailingDropped(_) => Leaving
    case LeavingDropped(_) => Unlocking
    case DropSweeping(_) => DropOver(ok)
  }

  // --- steps ----------------------------------------------------------------------------------

  datatype Act =
    // requests
    | Request(requestedReady: bool, force: bool, breakerOpen: bool)
    | Requeue                             // a deferred or repeated job starts
    | Listen(withKey: bool)
    | DropRequest
    // generate
    | Read(t: nat)
    | Return(t: nat, bound: Option<Status>) // cache hit, breaker open, lock held: perhaps after binding a status
    | TakeLock(t: nat)
    | Announce(t: nat)
    | Check(t: nat)                       // `_abort_if_dropped`, before or inside the try
    | Put(t: nat, artifact: Artifact)
    | Erase(t: nat, artifact: Artifact)   // its own temporary files
    | Publish(t: nat, status: Status)
    | Finish(t: nat)                      // out of the try, without an error or with a deferral
    | Fail(t: nat)
    | HandleFailure(t: nat)
    | Report(t: nat)
    | Leave(t: nat)
    | Unlock(t: nat)
    | Straggle(t: nat, n: nat)            // a cloud task writes its temporary file after its job has left the try
    | StragglerPublishes(t: nat)
    // drop_article_audio
    | BindDeleted(t: nat)
    // delete_artifacts
    | List(t: nat)
    | Remove(t: nat, artifact: Artifact)
    | RemoveFails(t: nat)
    | Verify(t: nat)
    // the world
    | ExpireLock

  predicate PastTry(th: Thread) {
    th.Failing? || th.FailingDropped? || th.Reporting? || th.Leaving? || th.LeavingDropped? || th.Unlocking? ||
    (th.Over? && th.ran)
  }

  predicate Spawning(a: Act) {
    a.Request? || a.Requeue? || a.Listen? || a.DropRequest? || a.ExpireLock?
  }

  predicate Enabled(s: State, a: Act) {
    Spawning(a) ||
    (a.t < |s.threads| &&
     var th := s.threads[a.t];
     match a
     case Read(_) => th.Begun?
     case Return(_, status) => th.Chosen? && (status.Some? ==> !status.value.Deleted?)
     case TakeLock(_) => th.Chosen? && s.lock == None
     case Announce(_) => th.Locked?
     case Check(_) => th.Announced? || th.Body?
     case Put(_, _) => th.Body?
     case Erase(_, artifact) => th.Body? && artifact.Tmp?
     case Publish(_, status) => th.Body? && !status.Deleted?
     case Finish(_) => th.Body?
     case Fail(_) => th.Body?
     case HandleFailure(_) => th.Failing?
     case Report(_) => th.Reporting?
     case Leave(_) => th.Leaving?
     case Unlock(_) => th.Unlocking?
     case Straggle(_, _) => PastTry(th)
     case StragglerPublishes(_) => PastTry(th)
     case BindDeleted(_) => th.DropBegun?
     case List(_) => SweepOf(th).Some? && SweepOf(th).value.Listing?
     case Remove(_, artifact) => SweepOf(th).Some? && SweepOf(th).value.Removing? && artifact in SweepOf(th).value.todo
     case RemoveFails(_) => SweepOf(th).Some? && SweepOf(th).value.Removing?
     case Verify(_) => SweepOf(th).Some? && SweepOf(th).value.Removing? && SweepOf(th).value.todo == {})
  }

  function Move(s: State, t: nat, th: Thread): State
    requires t < |s.threads|
  {
    s.(threads := s.threads[t := th])
  }

  /** The artifact goes, and with it what was known of how it came. */
  function Cleared(s: State, artifact: Artifact): State {
    s.(artifacts := s.artifacts - {artifact}, strays := s.strays - {artifact}, abandoned := s.abandoned - {artifact})
  }

  /** An attempt has failed: the next one lists again, or there is none left. */
  function Retry(s: State, t: nat): State
    requires t < |s.threads| && SweepOf(s.threads[t]).Some?
  {
    var th, tries := s.threads[t], SweepOf(s.threads[t]).value.tries + 1;
    if tries < ATTEMPTS then Move(s, t, WithSweep(th, Listing(tries)))
    else Move(s, t, Swept(th, false)).(abandoned := s.artifacts)
  }

  function RequestStep(s: State, a: Act): State
    requires Spawning(a)
  {
    match a
    case Request(requestedReady, force, breakerOpen) =>
      var (record, started) := Enqueue(s.record, requestedReady, force, breakerOpen, s.lock.Some?);
      s.(record := record, threads := if started then s.threads + [Begun] else s.threads)
    case Requeue => s.(threads := s.threads + [Begun])
    case Listen(withKey) => s.(record := Listened(s.record, withKey))
    case DropRequest => s.(threads := s.threads + [DropBegun])
    case ExpireLock => s.(lock := None)
  }

  function GenerateStep(s: State, a: Act): State
    requires !Spawning(a) && Enabled(s, a)
  {
    var t, th := a.t, s.threads[a.t];
    match a
    case Read(_) => Move(s, t, if IsDeleted(s.record) then Thread.Refused(Listing(0)) else Chosen)
    case Return(_, status) =>
      Move(s, t, Over(false, false)).(record := if status.Some? then SetArticle(s.record, status.value) else s.record)
    case TakeLock(_) => Move(s, t, Locked).(lock := Some(t))
    case Announce(_) => Move(s, t, Announced).(record := SetArticle(s.record, Generating))
    case Check(_) =>
      if IsDeleted(s.record) then Move(s, t, if th.Body? then BodyAborting(Listing(0)) else Aborting(Listing(0)))
      else Move(s, t, Body)
    case Put(_, artifact) => Cleared(s, artifact).(artifacts := s.artifacts + {artifact})
    case Erase(_, artifact) => Cleared(s, artifact)
    case Publish(_, status) => s.(record := SetArticle(s.record, status))
    case Finish(_) => Move(s, t, Leaving)
    case Fail(_) => Move(s, t, Failing)
    case HandleFailure(_) => Move(s, t, if IsDeleted(s.record) then FailingDropped(Listing(0)) else Reporting)
    case Report(_) => Move(s, t, Leaving).(record := SetArticle(s.record, Fallback))
    case Leave(_) => Move(s, t, if IsDeleted(s.record) then LeavingDropped(Listing(0)) else Unlocking)
    case Unlock(_) => Move(s, t, Over(true, false)).(lock := None)
    case Straggle(_, n) => s.(artifacts := s.artifacts + {Tmp(n)}, strays := s.strays + {Tmp(n)})
    case StragglerPublishes(_) => s.(record := SetArticle(s.record, Generating))
    case BindDeleted(_) =>
      var keyed := s.record.Some? && s.record.value.keyed;
      Move(s, t, if keyed then DropSweeping(Listing(0)) else DropOver(true)).(
        record := Some(Record(Deleted(true), keyed)))
    case List(_) =>
      var listed := Listed(s.artifacts);
      Move(s, t, WithSweep(th, Removing(SweepOf(th).value.tries, listed, listed + {CacheRecord}))).(abandoned := {})
    case Remove(_, artifact) =>
      var sw := SweepOf(th).value;
      Cleared(Move(s, t, WithSweep(th, sw.(todo := sw.todo - {artifact}))), artifact)
    case RemoveFails(_) => Retry(s, t)
    case Verify(_) =>
      if SweepOf(th).value.listed * s.artifacts == {} then Move(s, t, Swept(th, true)) else Retry(s, t)
  }

  function Step(s: State, a: Act): State
    requires Enabled(s, a)
  {
    if Spawning(a) then RequestStep(s, a) else GenerateStep(s, a)
  }
}
