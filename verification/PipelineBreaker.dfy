/** The narration breaker, which counts distinct articles: `narration/src/narration/breaker.py`. */
module PipelineBreaker {
  import opened Wrappers

  datatype Config = Config(threshold: int, cooldown: int)

  /** The set key with the time at which it expires. */
  datatype Members = Members(articles: set<string>, expiry: int)
  datatype Keys = Keys(failArticles: Option<Members>, isOpen: bool, openedAt: Option<int>)

  const CLEAR: Keys := Keys(None, false, None)

  /** The members a command at `now` sees. */
  function Live(k: Keys, now: int): set<string> {
    if k.failArticles.Some? && now < k.failArticles.value.expiry then k.failArticles.value.articles else {}
  }

  predicate Elapsed(c: Config, k: Keys, now: int) {
    k.isOpen && k.openedAt.Some? && now - k.openedAt.value >= c.cooldown
  }

  /** What `is_open` answers, and the keys it leaves: a breaker whose cooldown is over is reset. */
  predicate OpenNow(c: Config, k: Keys, now: int) {
    k.isOpen && !Elapsed(c, k, now)
  }

  function Checked(c: Config, k: Keys, now: int): Keys {
    if Elapsed(c, k, now) then CLEAR else k
  }

  function Added(c: Config, k: Keys, article: string, now: int): Keys {
    k.(failArticles := Some(Members(Live(k, now) + {article}, now + c.cooldown * 2)))
  }

  function Failed(c: Config, k: Keys, article: string, now: int): Keys {
    if OpenNow(c, k, now) then k
    else
      var k' := Added(c, Checked(c, k, now), article, now);
      if |Live(k', now)| >= c.threshold then k'.(isOpen := true, openedAt := Some(now)) else k'
  }

  class PipelineBreaker {
    const config: Config
    var failArticles: Option<Members>
    var isOpen: bool
    var openedAt: Option<int>

    function AsKeys(): Keys
      reads this
    {
      Keys(failArticles, isOpen, openedAt)
    }

    constructor (config: Config)
      ensures this.config == config && AsKeys() == CLEAR
    {
      this.config := config;
      failArticles, isOpen, openedAt := None, false, None;
    }

    method Reset()
      modifies this
      ensures AsKeys() == CLEAR
    {
      failArticles, isOpen, openedAt := None, false, None;
    }

    method IsOpen(now: int) returns (answer: bool)
      modifies this
      ensures answer == OpenNow(config, old(AsKeys()), now)
      ensures AsKeys() == Checked(config, old(AsKeys()), now)
    {
      if !isOpen {
        return false;
      }
      if openedAt == None {
        return true;
      }
      if now - openedAt.value >= config.cooldown {
        Reset();
        return false;
      }
      return true;
    }

    method RecordSuccess(now: int) returns (closed: bool)
      modifies this
      ensures closed == OpenNow(config, old(AsKeys()), now)
      ensures AsKeys() == CLEAR
    {
      closed := IsOpen(now);
      failArticles, isOpen, openedAt := None, false, None;
    }

    method RecordFailure(article: string, now: int) returns (tripped: bool)
      modifies this
      ensures AsKeys() == Failed(config, old(AsKeys()), article, now)
      ensures tripped <==> !OpenNow(config, old(AsKeys()), now) && AsKeys().isOpen
    {
      var refused := IsOpen(now);
      if refused {
        return false;
      }
      failArticles := Some(Members(Live(AsKeys(), now) + {article}, now + config.cooldown * 2));
      var n := |Live(AsKeys(), now)|;
      if n >= config.threshold {
        isOpen := true;
        openedAt := Some(now);
        return true;
      }
      return false;
    }
  }

  // --- the breaker as a history ---------------------------------------------------------

  datatype Event = Failure(article: string, now: int) | Success(now: int) | Check(now: int) | Reset(now: int)

  function After(c: Config, k: Keys, e: Event): Keys {
    match e
    case Failure(article, now) => Failed(c, k, article, now)
    case Success(_) => CLEAR
    case Check(now) => Checked(c, k, now)
    case Reset(_) => CLEAR
  }

  function KeysAfter(c: Config, events: seq<Event>): Keys {
    if events == [] then CLEAR else After(c, KeysAfter(c, events[..|events| - 1]), events[|events| - 1])
  }

  /** Time does not run backwards. */
  predicate Ordered(events: seq<Event>) {
    forall i, j | 0 <= i < j < |events| :: events[i].now <= events[j].now
  }

  /** The last event is a failure that opens the breaker: it is not open, and the distinct articles that
      failed recently, with this one, reach the threshold. */
  predicate Trips(c: Config, events: seq<Event>)
    decreases |events|, 2
  {
    events != [] && events[|events| - 1].Failure? &&
    var front, e := events[..|events| - 1], events[|events| - 1];
    !IsOpenBy(c, front, e.now) && |Recent(c, front, e.now) + {e.article}| >= c.threshold
  }

  /** The last opening has no later success or reset. */
  function OpenSince(c: Config, events: seq<Event>): Option<int>
    decreases |events|, 3
  {
    if events == [] then None
    else
      var front, e := events[..|events| - 1], events[|events| - 1];
      if e.Success? || e.Reset? then None
      else if Trips(c, events) then Some(e.now)
      else OpenSince(c, front)
  }

  /** And it is younger than the cooldown. */
  predicate IsOpenBy(c: Config, events: seq<Event>, now: int)
    decreases |events|, 4
  {
    OpenSince(c, events).Some? && now - OpenSince(c, events).value < c.cooldown
  }

  /** The distinct articles that have failed since the last success, reset, opening, or gap of twice the
      cooldown between one failure and the next, looking back from `until`. */
  function Recent(c: Config, events: seq<Event>, until: int): set<string>
    decreases |events|, 5
  {
    if events == [] then {}
    else
      var front, e := events[..|events| - 1], events[|events| - 1];
      match e
      case Success(_) => {}
      case Reset(_) => {}
      case Check(_) => Recent(c, front, until)
      case Failure(article, now) =>
        if until - now >= 2 * c.cooldown || Trips(c, events) || IsOpenBy(c, front, now) then {}
        else Recent(c, front, now) + {article}
  }

  /** The keys are what the history says, for any reader from `since` on. */
  ghost predicate Stands(c: Config, k: Keys, events: seq<Event>, since: int) {
    if k.isOpen then
      && k.openedAt.Some? && OpenSince(c, events) == k.openedAt
      && (forall now :: Recent(c, events, now) == {})
    else
      && (OpenSince(c, events).Some? ==> since - OpenSince(c, events).value >= c.cooldown)
      && (forall now | now >= since :: Live(k, now) == Recent(c, events, now))
  }

  lemma {:induction false} OpenAgrees(c: Config, k: Keys, events: seq<Event>, since: int, now: int)
    requires Stands(c, k, events, since) && since <= now
    ensures OpenNow(c, k, now) <==> IsOpenBy(c, events, now)
    ensures !OpenNow(c, k, now) ==>
              !Checked(c, k, now).isOpen && Live(Checked(c, k, now), now) == Recent(c, events, now)
  {
    hide OpenSince, Recent;
  }

  lemma {:induction false} CheckStands(c: Config, k: Keys, events: seq<Event>, since: int, now: int)
    requires Stands(c, k, events, since) && since <= now
    ensures Stands(c, Checked(c, k, now), events + [Check(now)], now)
  {
    var events' := events + [Check(now)];
    assert events'[..|events|] == events;
    assert !Trips(c, events') && OpenSince(c, events') == OpenSince(c, events);
    forall t ensures Recent(c, events', t) == Recent(c, events, t) {
    }
    hide OpenSince, Recent;
  }

  /** What a failure adds to the history. */
  lemma {:induction false} FailureUnfolds(c: Config, events: seq<Event>, article: string, now: int)
    ensures var events' := events + [Failure(article, now)];
            && (Trips(c, events') <==> !IsOpenBy(c, events, now) && |Recent(c, events, now) + {article}| >= c.threshold)
            && OpenSince(c, events') == (if Trips(c, events') then Some(now) else OpenSince(c, events))
            && forall t :: Recent(c, events', t) ==
                 if t - now >= 2 * c.cooldown || Trips(c, events') || IsOpenBy(c, events, now) then {}
                 else Recent(c, events, now) + {article}
  {
    assert (events + [Failure(article, now)])[..|events|] == events;
  }

  lemma {:induction false} FailureStands(c: Config, k: Keys, events: seq<Event>, since: int, article: string, now: int)
    requires c.cooldown > 0 && Stands(c, k, events, since) && since <= now
    ensures Stands(c, Failed(c, k, article, now), events + [Failure(article, now)], now)
    ensures Trips(c, events + [Failure(article, now)]) <==>
            !OpenNow(c, k, now) && Failed(c, k, article, now).isOpen
  {
    hide OpenSince, Recent, Trips;
    OpenAgrees(c, k, events, since, now);
    FailureUnfolds(c, events, article, now);
  }

  lemma {:induction false} EventStands(c: Config, k: Keys, events: seq<Event>, since: int, e: Event)
    requires c.cooldown > 0 && Stands(c, k, events, since) && since <= e.now
    ensures Stands(c, After(c, k, e), events + [e], e.now)
  {
    match e
    case Failure(article, now) => FailureStands(c, k, events, since, article, now);
    case Check(now) => CheckStands(c, k, events, since, now);
    case _ => assert (events + [e])[..|events|] == events;
  }

  /** Over any history in which time does not run backwards: `is_open` holds exactly when the last opening
      has no later success or reset and is younger than the cooldown, and a failure opens the breaker
      exactly when the distinct articles that failed recently reach the threshold. */
  lemma {:induction false} BreakerIsItsHistory(c: Config, events: seq<Event>, now: int)
    requires c.cooldown > 0 && Ordered(events + [Check(now)])
    ensures OpenNow(c, KeysAfter(c, events), now) <==> IsOpenBy(c, events, now)
    ensures forall article ::
              (!OpenNow(c, KeysAfter(c, events), now) && Failed(c, KeysAfter(c, events), article, now).isOpen) <==>
              Trips(c, events + [Failure(article, now)])
  {
    var since := if events == [] then now else events[|events| - 1].now;
    assert forall i | 0 <= i < |events| :: events[i] == (events + [Check(now)])[i];
    assert events != [] ==> since == (events + [Check(now)])[|events| - 1].now <= (events + [Check(now)])[|events|].now;
    HistoryStands(c, events, since);
    OpenAgrees(c, KeysAfter(c, events), events, since, now);
    forall article {
      FailureStands(c, KeysAfter(c, events), events, since, article, now);
    }
  }

  lemma {:induction false} HistoryStands(c: Config, events: seq<Event>, since: int)
    requires c.cooldown > 0 && Ordered(events) && (events != [] ==> since == events[|events| - 1].now)
    ensures Stands(c, KeysAfter(c, events), events, since)
    decreases |events|
  {
    if events != [] {
      var n := |events| - 1;
      hide Stands, KeysAfter, After;
      var before := if n == 0 then since else events[n - 1].now;
      HistoryStands(c, events[..n], before);
      EventStands(c, KeysAfter(c, events[..n]), events[..n], before, events[n]);
      assert events[..n] + [events[n]] == events;
    }
  }
}
