/** The shared circuit breaker: `src/narrator/core/breaker.py`. */
module Breaker {
  import opened Wrappers

  datatype Mode = Closed | Open | HalfOpen
  datatype Config = Config(threshold: nat, base: real, max: real)

  /** The breaker's keys; the probe key carries the time at which it expires. */
  datatype Keys = Keys(
    state: Option<Mode>, failures: Option<int>, openedAt: Option<real>, cooldown: Option<real>, probe: Option<real>)

  const FRESH: Keys := Keys(None, None, None, None, None)

  function GetOr<T>(o: Option<T>, default: T): T {
    if o.Some? then o.value else default
  }

  function State(k: Keys): Mode {
    GetOr(k.state, Closed)
  }

  function Cooldown(c: Config, k: Keys): real {
    GetOr(k.cooldown, c.base)
  }

  // --- the three operations on the keys ------------------------------------------------------

  function Opened(k: Keys, now: real, cooldown: real): Keys {
    k.(state := Some(Open), openedAt := Some(now), cooldown := Some(cooldown))
  }

  /** The probe key can be set only while there is none. */
  predicate ProbeIsFree(k: Keys, now: real) {
    k.probe == None || k.probe.value <= now
  }

  function Claimed(k: Keys, now: real, cooldown: real): Keys {
    k.(probe := Some(now + cooldown.Floor as real + 30.0))
  }

  /** Whether `_enter` lets the caller through. */
  predicate Admits(c: Config, k: Keys, now: real) {
    match State(k)
    case Closed => true
    case Open => now - GetOr(k.openedAt, 0.0) >= Cooldown(c, k) && ProbeIsFree(k, now)
    case HalfOpen => false
  }

  function Entered(c: Config, k: Keys, now: real): Keys {
    if State(k) == Open && Admits(c, k, now) then
      Claimed(k, now, Cooldown(c, k)).(state := Some(HalfOpen))
    else k
  }

  function Succeeded(c: Config, k: Keys): Keys {
    k.(state := Some(Closed), failures := Some(0), cooldown := Some(c.base), probe := None)
  }

  function Failed(c: Config, k: Keys, now: real): Keys {
    if State(k) == HalfOpen then
      var doubled := Cooldown(c, k) * 2.0;
      Opened(k.(failures := Some(c.threshold)), now, if doubled <= c.max then doubled else c.max).(probe := None)
    else
      var failures := GetOr(k.failures, 0) + 1;
      var k' := k.(failures := Some(failures));
      if failures >= c.threshold then Opened(k', now, c.base) else k'
  }

  datatype Outcome = Ok | Counted | Uncounted

  /** One guarded call: it enters at `now` and, if let through, ends at `end`. */
  datatype Call = Call(now: real, end: real, outcome: Outcome)

  function Guarded(c: Config, k: Keys, call: Call): Keys {
    if !Admits(c, k, call.now) then k
    else
      var k' := Entered(c, k, call.now);
      match call.outcome
      case Ok => Succeeded(c, k')
      case Counted => Failed(c, k', call.end)
      case Uncounted => k'
  }

  class CircuitBreaker {
    const config: Config
    var state: Option<Mode>
    var failures: Option<int>
    var openedAt: Option<real>
    var cooldown: Option<real>
    var probe: Option<real>

    function AsKeys(): Keys
      reads this
    {
      Keys(state, failures, openedAt, cooldown, probe)
    }

    constructor (config: Config)
      ensures this.config == config && AsKeys() == FRESH
    {
      this.config := config;
      state, failures, openedAt, cooldown, probe := None, None, None, None, None;
    }

    method OpenFor(seconds: real, now: real)
      modifies this
      ensures AsKeys() == Opened(old(AsKeys()), now, seconds)
    {
      state := Some(Open);
      openedAt := Some(now);
      cooldown := Some(seconds);
    }

    method Enter(now: real) returns (admitted: bool)
      modifies this
      ensures AsKeys() == Entered(config, old(AsKeys()), now)
      ensures admitted <==> Admits(config, old(AsKeys()), now)
    {
      var mode := GetOr(state, Closed);
      if mode == Closed {
        return true;
      }
      if mode == Open {
        var since := GetOr(openedAt, 0.0);
        var seconds := GetOr(cooldown, config.base);
        if now - since >= seconds {
          var got := probe == None || probe.value <= now;
          if got {
            probe := Some(now + seconds.Floor as real + 30.0);
            state := Some(HalfOpen);
            return true;
          }
        }
      }
      return false;
    }

    method OnSuccess()
      modifies this
      ensures AsKeys() == Succeeded(config, old(AsKeys()))
    {
      state := Some(Closed);
      failures := Some(0);
      cooldown := Some(config.base);
      probe := None;
    }

    method OnFailure(now: real)
      modifies this
      ensures AsKeys() == Failed(config, old(AsKeys()), now)
    {
      if GetOr(state, Closed) == HalfOpen {
        var doubled := GetOr(cooldown, config.base) * 2.0;
        failures := Some(config.threshold);
        OpenFor(if doubled <= config.max then doubled else config.max, now);
        probe := None;
        return;
      }
      failures := Some(GetOr(failures, 0) + 1);
      if failures.value >= config.threshold {
        OpenFor(config.base, now);
      }
    }

    method Guard(call: Call) returns (admitted: bool)
      modifies this
      ensures AsKeys() == Guarded(config, old(AsKeys()), call)
      ensures admitted <==> Admits(config, old(AsKeys()), call.now)
    {
      admitted := Enter(call.now);
      if admitted {
        match call.outcome {
          case Ok => OnSuccess();
          case Counted => OnFailure(call.end);
          case Uncounted =>
        }
      }
    }
  }

  // --- the breaker as a history ---------------------------------------------------------

  /** The keys after calls that do not overlap. */
  function KeysAfter(c: Config, calls: seq<Call>): Keys {
    if calls == [] then FRESH else Guarded(c, KeysAfter(c, calls[..|calls| - 1]), calls[|calls| - 1])
  }

  /** Whether each call was let through. */
  function Admitted(c: Config, calls: seq<Call>): (flags: seq<bool>)
    ensures |flags| == |calls|
  {
    if calls == [] then []
    else
      Admitted(c, calls[..|calls| - 1]) + [Admits(c, KeysAfter(c, calls[..|calls| - 1]), calls[|calls| - 1].now)]
  }

  /** The counted failures, among the calls let through, since the last success. */
  function Failures(calls: seq<Call>, flags: seq<bool>): nat
    requires |flags| == |calls|
  {
    if calls == [] then 0
    else
      var n := |calls| - 1;
      var before := Failures(calls[..n], flags[..n]);
      if !flags[n] || calls[n].outcome == Uncounted then before
      else if calls[n].outcome == Ok then 0
      else before + 1
  }

  /** When the last counted failure came. */
  function LastFailure(calls: seq<Call>, flags: seq<bool>): real
    requires |flags| == |calls|
  {
    if calls == [] then 0.0
    else
      var n := |calls| - 1;
      if flags[n] && calls[n].outcome == Counted then calls[n].end else LastFailure(calls[..n], flags[..n])
  }

  function Power(k: nat): real {
    if k == 0 then 1.0 else 2.0 * Power(k - 1)
  }

  /** The cooldown after `k` failed probes in a row. */
  function CooldownAfter(c: Config, k: nat): real {
    if k == 0 || c.base * Power(k) <= c.max then c.base * Power(k) else c.max
  }

  /** The rule by which a caller is let through, from the history alone. */
  predicate Rule(c: Config, failures: nat, last: real, now: real) {
    failures < c.threshold || now - last >= CooldownAfter(c, failures - c.threshold)
  }

  /** A probe is a call let through although the threshold was reached. */
  predicate IsProbe(c: Config, calls: seq<Call>, i: nat)
    requires i < |calls|
  {
    Admitted(c, calls[..i + 1])[i] && Failures(calls[..i], Admitted(c, calls[..i])) >= c.threshold
  }

  predicate NoProbeIsLost(c: Config, calls: seq<Call>) {
    forall i | 0 <= i < |calls| :: IsProbe(c, calls, i) ==> calls[i].outcome != Uncounted
  }

  /** What the keys are for a history with `failures` and `last`. */
  predicate Stands(c: Config, k: Keys, failures: nat, last: real) {
    && k.probe == None
    && GetOr(k.failures, 0) == (if failures < c.threshold then failures else c.threshold)
    && (failures < c.threshold ==> State(k) == Closed)
    && (failures >= c.threshold ==>
          && State(k) == Open && k.openedAt == Some(last)
          && Cooldown(c, k) == CooldownAfter(c, failures - c.threshold))
  }

  lemma {:induction false} Doubling(c: Config, k: nat)
    requires 0.0 <= c.base && 0.0 <= c.max
    ensures var doubled := CooldownAfter(c, k) * 2.0;
            CooldownAfter(c, k + 1) == if doubled <= c.max then doubled else c.max
    ensures Power(k) >= 1.0
  {
    PowerGrows(k);
    assert Power(k + 1) == 2.0 * Power(k);
    Regroup(c.base, Power(k));
    if k > 0 {
      Larger(c.base, Power(k));
    }
  }

  lemma PowerGrows(k: nat)
    ensures Power(k) >= 1.0
  {
  }

  lemma Regroup(a: real, p: real)
    ensures a * (2.0 * p) == a * p * 2.0
  {
  }

  lemma Larger(a: real, p: real)
    requires 0.0 <= a && p >= 1.0
    ensures a * p >= 0.0
  {
  }

  /** One call keeps the keys in step with the history, unless it is a probe that ends uncounted. */
  lemma {:induction false} CallStands(c: Config, k: Keys, failures: nat, last: real, call: Call)
    requires 0.0 <= c.base && 0.0 <= c.max && Stands(c, k, failures, last)
    ensures Admits(c, k, call.now) <==> Rule(c, failures, last, call.now)
    ensures !Admits(c, k, call.now) ==> Guarded(c, k, call) == k
    ensures Admits(c, k, call.now) && call.outcome == Ok ==> c.threshold > 0 ==> Stands(c, Guarded(c, k, call), 0, last)
    ensures Admits(c, k, call.now) && call.outcome == Counted ==>
              Stands(c, Guarded(c, k, call), failures + 1, call.end)
    ensures Admits(c, k, call.now) && call.outcome == Uncounted ==>
              if failures < c.threshold then Guarded(c, k, call) == k else State(Guarded(c, k, call)) == HalfOpen
  {
    if failures >= c.threshold {
      Doubling(c, failures - c.threshold);
    } else {
      hide Power;
    }
    assert CooldownAfter(c, 0) == c.base;
  }

  /** The keys are the history: the breaker is open exactly when the threshold-th counted failure since the
      last success has come, its cooldown is the base doubled by each failed probe up to the maximum, and
      a call is let through exactly when the history's rule says so. */
  lemma {:induction false} BreakerIsItsHistory(c: Config, calls: seq<Call>, now: real)
    requires 0.0 <= c.base && 0.0 <= c.max && c.threshold > 0 && NoProbeIsLost(c, calls)
    ensures var flags := Admitted(c, calls);
            var failures, last := Failures(calls, flags), LastFailure(calls, flags);
            && Stands(c, KeysAfter(c, calls), failures, last)
            && (Admits(c, KeysAfter(c, calls), now) <==> Rule(c, failures, last, now))
    decreases |calls|
  {
    hide CooldownAfter, Admits, Guarded, Rule;
    if calls == [] {
      CallStands(c, FRESH, 0, 0.0, Call(now, now, Ok));
    } else {
      var n := |calls| - 1;
      var front, call := calls[..n], calls[n];
      LostInFront(c, calls);
      BreakerIsItsHistory(c, front, call.now);
      var flags := Admitted(c, front);
      assert Admitted(c, calls)[..n] == flags;
      CallStands(c, KeysAfter(c, front), Failures(front, flags), LastFailure(front, flags), call);
      assert calls[..n + 1] == calls;
      assert IsProbe(c, calls, n) ==> call.outcome != Uncounted;
      var all := Admitted(c, calls);
      CallStands(c, KeysAfter(c, calls), Failures(calls, all), LastFailure(calls, all), Call(now, now, Ok));
    }
  }

  /** Who is let through, computed from the calls alone. */
  function ByRule(c: Config, calls: seq<Call>): (flags: seq<bool>)
    ensures |flags| == |calls|
  {
    if calls == [] then []
    else
      var front := calls[..|calls| - 1];
      var flags := ByRule(c, front);
      flags + [Rule(c, Failures(front, flags), LastFailure(front, flags), calls[|calls| - 1].now)]
  }

  lemma {:induction false} AdmissionFollowsRule(c: Config, calls: seq<Call>)
    requires 0.0 <= c.base && 0.0 <= c.max && c.threshold > 0 && NoProbeIsLost(c, calls)
    ensures Admitted(c, calls) == ByRule(c, calls)
    decreases |calls|
  {
    hide Admits, Rule, Stands, NoProbeIsLost;
    if calls != [] {
      var n := |calls| - 1;
      LostInFront(c, calls);
      AdmissionFollowsRule(c, calls[..n]);
      BreakerIsItsHistory(c, calls[..n], calls[n].now);
    }
  }

  lemma {:induction false} LostInFront(c: Config, calls: seq<Call>)
    requires calls != [] && NoProbeIsLost(c, calls)
    ensures NoProbeIsLost(c, calls[..|calls| - 1])
  {
    hide IsProbe;
    var front := calls[..|calls| - 1];
    forall i | 0 <= i < |front| && IsProbe(c, front, i) ensures front[i].outcome != Uncounted {
      ProbeInFront(c, calls, i);
    }
  }

  lemma ProbeInFront(c: Config, calls: seq<Call>, i: nat)
    requires i < |calls| - 1
    ensures IsProbe(c, calls[..|calls| - 1], i) == IsProbe(c, calls, i)
  {
    hide Admitted, Failures;
    var front := calls[..|calls| - 1];
    assert front[..i + 1] == calls[..i + 1] && front[..i] == calls[..i];
  }

  // --- a lost probe --------------------------------------------------------------------------

  /** Half open is for ever: nobody is let through again, whatever the time. */
  lemma {:induction false} HalfOpenIsForever(c: Config, calls: seq<Call>, more: seq<Call>)
    requires State(KeysAfter(c, calls)) == HalfOpen
    ensures KeysAfter(c, calls + more) == KeysAfter(c, calls)
    ensures forall now :: !Admits(c, KeysAfter(c, calls + more), now)
    decreases |more|
  {
    if more == [] {
      assert calls + more == calls;
    } else {
      var n := |more| - 1;
      HalfOpenIsForever(c, calls, more[..n]);
      assert (calls + more)[..|calls + more| - 1] == calls + more[..n];
    }
  }

  /** And it is where the breaker ends up exactly when some probe ended uncounted. */
  lemma {:induction false} StuckIffProbeLost(c: Config, calls: seq<Call>)
    requires 0.0 <= c.base && 0.0 <= c.max && c.threshold > 0
    ensures State(KeysAfter(c, calls)) == HalfOpen <==> !NoProbeIsLost(c, calls)
    decreases |calls|
  {
    hide CooldownAfter, Rule, Failures;
    if calls != [] && NoProbeIsLost(c, calls) {
      BreakerIsItsHistory(c, calls, 0.0);
    } else if calls != [] {
      var n := |calls| - 1;
      var front := calls[..n];
      StuckIffProbeLost(c, front);
      if NoProbeIsLost(c, front) {
        OnlyLastIsLost(c, calls);
        BreakerIsItsHistory(c, front, calls[n].now);
        var flags := Admitted(c, front);
        CallStands(c, KeysAfter(c, front), Failures(front, flags), LastFailure(front, flags), calls[n]);
      }
    }
  }

  lemma {:induction false} OnlyLastIsLost(c: Config, calls: seq<Call>)
    requires calls != [] && !NoProbeIsLost(c, calls) && NoProbeIsLost(c, calls[..|calls| - 1])
    ensures var n := |calls| - 1;
            && Admits(c, KeysAfter(c, calls[..n]), calls[n].now) && calls[n].outcome == Uncounted
            && Failures(calls[..n], Admitted(c, calls[..n])) >= c.threshold
  {
    hide Failures, Guarded, Admits;
    var n := |calls| - 1;
    forall i | 0 <= i < n && IsProbe(c, calls, i) ensures calls[i].outcome != Uncounted {
      ProbeInFront(c, calls, i);
    }
    assert calls[..n + 1] == calls;
    assert IsProbe(c, calls, n);
  }

  // --- overlapping calls ---------------------------------------------------------------------

  /** One operation of any of many overlapping calls, or the expiry of the probe key. */
  datatype Event = Enter(now: real) | Success | Failure(now: real) | ExpireProbe

  function Next(c: Config, k: Keys, e: Event): Keys {
    match e
    case Enter(now) => Entered(c, k, now)
    case Success => Succeeded(c, k)
    case Failure(now) => Failed(c, k, now)
    case ExpireProbe => k.(probe := None)
  }

  function KeysFrom(c: Config, events: seq<Event>): Keys {
    if events == [] then FRESH else Next(c, KeysFrom(c, events[..|events| - 1]), events[|events| - 1])
  }

  predicate Sensible(c: Config) {
    c.threshold > 0 && 0.0 <= c.base <= c.max
  }

  predicate Coherent(c: Config, k: Keys) {
    && (State(k) == Closed <==> GetOr(k.failures, 0) < c.threshold)
    && (State(k) != HalfOpen ==> k.probe == None)
    && c.base <= Cooldown(c, k) <= c.max
    && (State(k) == Open ==> k.openedAt.Some?)
  }

  /** However the calls overlap and however late they end. */
  lemma {:induction false} OverlapIsCoherent(c: Config, events: seq<Event>)
    requires Sensible(c)
    ensures Coherent(c, KeysFrom(c, events))
    decreases |events|
  {
    if events != [] {
      OverlapIsCoherent(c, events[..|events| - 1]);
    }
  }

  // --- overlapping calls as a history ----------------------------------------------------------

  /** The counted failures since the last success, however late each came. */
  function FailuresSince(events: seq<Event>): nat {
    if events == [] then 0
    else
      var before := FailuresSince(events[..|events| - 1]);
      match events[|events| - 1]
      case Success => 0
      case Failure(_) => before + 1
      case _ => before
  }

  function FailedAt(events: seq<Event>): real {
    if events == [] then 0.0
    else if events[|events| - 1].Failure? then events[|events| - 1].now
    else FailedAt(events[..|events| - 1])
  }

  /** The cooldown: the base, but twice what it was, up to the maximum, after a failure while half open. A late
      failure of another call sets it back to the base. */
  function CooldownSince(c: Config, events: seq<Event>): real
    decreases |events|
  {
    if events == [] then c.base
    else
      var front := events[..|events| - 1];
      match events[|events| - 1]
      case Success => c.base
      case Failure(_) =>
        if !ProbeIsOut(c, front) then c.base
        else if CooldownSince(c, front) * 2.0 <= c.max then CooldownSince(c, front) * 2.0
        else c.max
      case _ => CooldownSince(c, front)
  }

  /** A caller came after the cooldown and no call has ended since. */
  predicate ProbeIsOut(c: Config, events: seq<Event>)
    decreases |events|
  {
    events != [] &&
    var front := events[..|events| - 1];
    match events[|events| - 1]
    case Success => false
    case Failure(_) => false
    case ExpireProbe => ProbeIsOut(c, front)
    case Enter(now) =>
      ProbeIsOut(c, front) ||
      (FailuresSince(front) >= c.threshold && now - FailedAt(front) >= CooldownSince(c, front))
  }

  /** What the failure key says: those failures, but no more than the threshold when a probe fails. */
  function CountSince(c: Config, events: seq<Event>): int {
    if events == [] then 0
    else
      var front := events[..|events| - 1];
      match events[|events| - 1]
      case Success => 0
      case Failure(_) => if ProbeIsOut(c, front) then c.threshold else CountSince(c, front) + 1
      case _ => CountSince(c, front)
  }

  /** When the probe key expires: half a minute after the whole seconds of another cooldown. */
  function ProbeUntil(c: Config, events: seq<Event>): Option<real> {
    if events == [] then None
    else
      var front := events[..|events| - 1];
      match events[|events| - 1]
      case Enter(now) =>
        if ProbeIsOut(c, events) && !ProbeIsOut(c, front) then Some(now + CooldownSince(c, front).Floor as real + 30.0)
        else ProbeUntil(c, front)
      case _ => None
  }

  /** However the calls overlap and however late they end, the keys are their history: closed below the threshold,
      from then on half open while a probe is out and open otherwise, counting the cooldown from the last failure. */
  ghost predicate InStep(c: Config, k: Keys, events: seq<Event>) {
    && Coherent(c, k)
    && State(k) == (if FailuresSince(events) < c.threshold then Closed
                    else if ProbeIsOut(c, events) then HalfOpen
                    else Open)
    && (FailuresSince(events) < c.threshold ==>
          GetOr(k.failures, 0) == FailuresSince(events) && !ProbeIsOut(c, events) && CooldownSince(c, events) == c.base)
    && (FailuresSince(events) >= c.threshold ==> k.openedAt == Some(FailedAt(events)))
    && Cooldown(c, k) == CooldownSince(c, events)
    && GetOr(k.failures, 0) == CountSince(c, events) && k.probe == ProbeUntil(c, events)
  }

  lemma {:induction false} OverlapIsItsHistory(c: Config, events: seq<Event>)
    requires Sensible(c)
    ensures InStep(c, KeysFrom(c, events), events)
    decreases |events|
  {
    OverlapIsCoherent(c, events);
    if events != [] {
      OverlapIsItsHistory(c, events[..|events| - 1]);
      hide Coherent;
      assert Coherent(c, KeysFrom(c, events[..|events| - 1])) by {
        OverlapIsCoherent(c, events[..|events| - 1]);
      }
      CoherentFacts(c, KeysFrom(c, events[..|events| - 1]));
      CoherentFacts(c, KeysFrom(c, events));
    }
  }

  lemma CoherentFacts(c: Config, k: Keys)
    requires Coherent(c, k)
    ensures State(k) == Closed <==> GetOr(k.failures, 0) < c.threshold
    ensures State(k) != HalfOpen ==> k.probe == None
  {
  }

  /** How many callers the events let through. */
  function LetThrough(c: Config, k: Keys, events: seq<Event>): nat
    decreases |events|
  {
    if events == [] then 0
    else
      (if events[0].Enter? && Admits(c, k, events[0].now) then 1 else 0) +
      LetThrough(c, Next(c, k, events[0]), events[1..])
  }

  /** The state after each event is half open. */
  predicate StaysHalfOpen(c: Config, k: Keys, events: seq<Event>)
    decreases |events|
  {
    events == [] ||
    (State(Next(c, k, events[0])) == HalfOpen && StaysHalfOpen(c, Next(c, k, events[0]), events[1..]))
  }

  lemma {:induction false} NobodyWhileHalfOpen(c: Config, k: Keys, events: seq<Event>)
    requires State(k) == HalfOpen && StaysHalfOpen(c, k, events)
    ensures LetThrough(c, k, events) == 0
    decreases |events|
  {
    if events != [] {
      NobodyWhileHalfOpen(c, Next(c, k, events[0]), events[1..]);
    }
  }

  /** Each half-open period lets exactly one caller through: the one that begins it. */
  lemma {:induction false} OneProbePerPeriod(c: Config, before: seq<Event>, period: seq<Event>)
    requires State(KeysFrom(c, before)) != HalfOpen && period != []
    requires StaysHalfOpen(c, KeysFrom(c, before), period)
    ensures LetThrough(c, KeysFrom(c, before), period) == 1
    ensures period[0].Enter? && Admits(c, KeysFrom(c, before), period[0].now)
    ensures State(KeysFrom(c, before)) == Open
  {
    var k := KeysFrom(c, before);
    NobodyWhileHalfOpen(c, Next(c, k, period[0]), period[1..]);
  }
}
