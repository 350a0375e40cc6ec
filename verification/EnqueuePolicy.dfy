/** Article records, and whether a request may start a new synthesis:
    `narration/src/narration/enqueue_policy.py`. */
module EnqueuePolicy {
  import opened Wrappers

  /** `Deleted(true)` is the tombstone left by a drop: the reason `article_removed`. */
  datatype Status = Queued | Generating | Ready | Fallback | Failed | Deleted(removed: bool)

  /** `keyed`: the record carries the article's cache key. */
  datatype Record = Record(status: Status, keyed: bool)

  datatype Decision = KeepReady | InFlight | BindReady | Refused | Start

  function ClassifyEnqueue(existing: Option<Record>, requestedReady: bool, force: bool): Decision {
    if existing.Some? && existing.value.status.Deleted? && (existing.value.status.removed || !force) then Refused
    else if existing.Some? && existing.value.status == Ready && existing.value.keyed then KeepReady
    else if existing.Some? && (existing.value.status == Queued || existing.value.status == Generating) then InFlight
    else if requestedReady then BindReady
    else Start
  }

  /** The record after `enqueue` has acted on its decision, and whether it started a job. `breakerOpen`
      and `locked` are what the breaker and the enqueue lock answer. */
  function Enqueue(existing: Option<Record>, requestedReady: bool, force: bool, breakerOpen: bool, locked: bool)
    : (r: (Option<Record>, bool))
  {
    match ClassifyEnqueue(existing, requestedReady, force)
    case Refused => (existing, false)
    case KeepReady => (existing, false)
    case InFlight => (existing, false)
    case BindReady => (Some(Record(Ready, true)), false)
    case Start =>
      if breakerOpen then (Some(Record(Fallback, true)), false) else (Some(Record(Queued, true)), !locked)
  }

  /** The request is about an article that is deleted and stays so, ready, or on its way. */
  predicate Settled(existing: Option<Record>, force: bool) {
    existing.Some? &&
    match existing.value.status
    case Queued => true
    case Generating => true
    case Ready => existing.value.keyed
    case Deleted(removed) => removed || !force
    case _ => false
  }

  /** Exactly what a request does. A settled article is left alone. For any other the record becomes ready when
      the requested audio is there, a fallback when the breaker is open, and queued otherwise; and a job is
      started in that last case alone, unless one holds the lock. */
  lemma {:induction false} EnqueueIsExact(existing: Option<Record>, requestedReady: bool, force: bool,
                                          breakerOpen: bool, locked: bool)
    ensures var (after, started) := Enqueue(existing, requestedReady, force, breakerOpen, locked);
            && (started <==>
                  && !requestedReady && !breakerOpen && !locked
                  && (existing == None || existing.value == Record(Ready, false) || existing.value.status == Fallback ||
                      existing.value.status == Failed || (existing.value.status == Deleted(false) && force)))
            && (Settled(existing, force) ==> after == existing)
            && (!Settled(existing, force) ==>
                  && after.Some? && after.value.keyed
                  && (after.value.status == Ready <==> requestedReady)
                  && (after.value.status == Fallback <==> !requestedReady && breakerOpen)
                  && (after.value.status == Queued <==> !requestedReady && !breakerOpen))
  {
  }

  /** A request never disturbs audio that is ready or on its way, never revives a removed article, and
      revives another deleted one only by force. */
  lemma {:induction false} EnqueueIsSafe(existing: Option<Record>, requestedReady: bool, force: bool,
                                         breakerOpen: bool, locked: bool)
    ensures var (after, started) := Enqueue(existing, requestedReady, force, breakerOpen, locked);
            && (existing.Some? && existing.value.status == Deleted(true) ==> after == existing && !started)
            && (existing.Some? && existing.value.status.Deleted? && after != existing ==>
                  force && !existing.value.status.removed)
            && (started ==> !requestedReady && !breakerOpen && !locked && after == Some(Record(Queued, true)))
            && (started && existing.Some? ==>
                  || (existing.value.status == Ready && !existing.value.keyed)
                  || existing.value.status == Fallback || existing.value.status == Failed
                  || (existing.value.status == Deleted(false) && force))
            && (after.Some? && after != existing ==> after.value.keyed && !after.value.status.Deleted?)
  {
  }
}
