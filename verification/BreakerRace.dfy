/** `_enter` of the shared breaker with its reads and writes apart (`src/narrator/core/breaker.py`): other callers
    run between its look at the keys, its claim of the probe key and its change of the state. */
module BreakerRace {
  import opened Wrappers
  import opened Breaker

  /** Where a caller stands. `Seen`: it found the breaker open and the cooldown over. */
  datatype Caller = Away | Seen(cooldown: real) | Claiming | Inside

  datatype World = World(keys: Keys, callers: seq<Caller>)

  datatype Act =
    | Look(i: nat, now: real)
    | Claim(i: nat, now: real)
    | SetHalfOpen(i: nat)
    | Finish(i: nat, now: real, outcome: Outcome)

  predicate Enabled(s: World, a: Act) {
    a.i < |s.callers| &&
    match a
    case Look(i, _) => s.callers[i].Away?
    case Claim(i, _) => s.callers[i].Seen?
    case SetHalfOpen(i) => s.callers[i].Claiming?
    case Finish(i, _, _) => s.callers[i].Inside?
  }

  function Looked(c: Config, k: Keys, now: real): Caller {
    match State(k)
    case Closed => Inside
    case Open => if now - GetOr(k.openedAt, 0.0) >= Cooldown(c, k) then Seen(Cooldown(c, k)) else Away
    case HalfOpen => Away
  }

  function Ended(c: Config, k: Keys, now: real, outcome: Outcome): Keys {
    match outcome
    case Ok => Succeeded(c, k)
    case Counted => Breaker.Failed(c, k, now)
    case Uncounted => k
  }

  function Step(c: Config, s: World, a: Act): World
    requires Enabled(s, a)
  {
    var k, i := s.keys, a.i;
    match a
    case Look(_, now) => s.(callers := s.callers[i := Looked(c, k, now)])
    case Claim(_, now) =>
      if ProbeIsFree(k, now) then World(Claimed(k, now, s.callers[i].cooldown), s.callers[i := Claiming])
      else s.(callers := s.callers[i := Away])
    case SetHalfOpen(_) => World(k.(state := Some(HalfOpen)), s.callers[i := Inside])
    case Finish(_, now, outcome) => World(Ended(c, k, now, outcome), s.callers[i := Away])
  }

  predicate LegalRun(c: Config, s: World, acts: seq<Act>)
    decreases |acts|
  {
    acts == [] || (Enabled(s, acts[0]) && LegalRun(c, Step(c, s, acts[0]), acts[1..]))
  }

  function After(c: Config, s: World, acts: seq<Act>): World
    requires LegalRun(c, s, acts)
    decreases |acts|
  {
    if acts == [] then s else After(c, Step(c, s, acts[0]), acts[1..])
  }

  /** Whoever comes through undisturbed does what `Entered` says. */
  lemma {:induction false} EnterIsLookClaimSet(c: Config, s: World, i: nat, now: real)
    requires i < |s.callers| && s.callers[i].Away?
    ensures var acts := if State(s.keys) == Open && now - GetOr(s.keys.openedAt, 0.0) >= Cooldown(c, s.keys)
                        then [Look(i, now), Claim(i, now)] + if ProbeIsFree(s.keys, now) then [SetHalfOpen(i)] else []
                        else [Look(i, now)];
            && LegalRun(c, s, acts)
            && After(c, s, acts) == World(Entered(c, s.keys, now),
                                          s.callers[i := if Admits(c, s.keys, now) then Inside else Away])
  {
    var k := s.keys;
    var s1 := Step(c, s, Look(i, now));
    if State(k) == Open && now - GetOr(k.openedAt, 0.0) >= Cooldown(c, k) {
      var s2 := Step(c, s1, Claim(i, now));
      assert s1.callers[i := Claiming] == s.callers[i := Claiming] && s1.callers[i := Away] == s.callers[i := Away];
      if ProbeIsFree(k, now) {
        assert s2.callers[i := Inside] == s.callers[i := Inside];
        Three(c, s, Look(i, now), Claim(i, now), SetHalfOpen(i));
        assert [Look(i, now), Claim(i, now)] + [SetHalfOpen(i)] == [Look(i, now), Claim(i, now), SetHalfOpen(i)];
      } else {
        Two(c, s, Look(i, now), Claim(i, now));
        assert [Look(i, now), Claim(i, now)] + [] == [Look(i, now), Claim(i, now)];
      }
    } else {
      assert [Look(i, now)][1..] == [];
    }
  }

  lemma First(c: Config, s: World, a: Act, rest: seq<Act>)
    requires Enabled(s, a) && LegalRun(c, Step(c, s, a), rest)
    ensures LegalRun(c, s, [a] + rest) && After(c, s, [a] + rest) == After(c, Step(c, s, a), rest)
  {
    hide Step, Enabled;
    assert ([a] + rest)[0] == a && ([a] + rest)[1..] == rest;
  }

  lemma Two(c: Config, s: World, a: Act, b: Act)
    requires Enabled(s, a) && Enabled(Step(c, s, a), b)
    ensures LegalRun(c, s, [a, b]) && After(c, s, [a, b]) == Step(c, Step(c, s, a), b)
  {
    hide Step, Enabled;
    First(c, Step(c, s, a), b, []);
    First(c, s, a, [b]);
    assert [a] + [b] == [a, b] && [b] + [] == [b];
  }

  lemma Three(c: Config, s: World, a: Act, b: Act, d: Act)
    requires Enabled(s, a) && Enabled(Step(c, s, a), b) && Enabled(Step(c, Step(c, s, a), b), d)
    ensures LegalRun(c, s, [a, b, d]) && After(c, s, [a, b, d]) == Step(c, Step(c, Step(c, s, a), b), d)
  {
    hide Step, Enabled;
    Two(c, Step(c, s, a), b, d);
    First(c, s, a, [b, d]);
    assert [a] + [b, d] == [a, b, d];
  }

  // --- one probe -------------------------------------------------------------------------------

  /** The action leaves the probe key: it is no success, and no failure counted while half open. */
  predicate LeavesProbe(s: World, a: Act) {
    a.Finish? ==> a.outcome == Uncounted || (a.outcome == Counted && State(s.keys) != HalfOpen)
  }

  predicate Before(a: Act, expiry: real) {
    a.SetHalfOpen? || a.now < expiry
  }

  predicate KeepsProbe(c: Config, s: World, acts: seq<Act>, expiry: real)
    requires LegalRun(c, s, acts)
    decreases |acts|
  {
    acts == [] ||
    (LeavesProbe(s, acts[0]) && Before(acts[0], expiry) && KeepsProbe(c, Step(c, s, acts[0]), acts[1..], expiry))
  }

  /** However many callers have found the cooldown over, while the probe key stands nobody else gets to be the
      probe. */
  lemma {:induction false} NobodyElseIsProbe(c: Config, s: World, acts: seq<Act>, expiry: real, i: nat)
    requires LegalRun(c, s, acts) && s.keys.probe == Some(expiry) && KeepsProbe(c, s, acts, expiry)
    requires i < |s.callers| && !s.callers[i].Claiming?
    ensures var s' := After(c, s, acts);
            s'.keys.probe == Some(expiry) && |s'.callers| == |s.callers| && !s'.callers[i].Claiming?
    decreases |acts|
  {
    if acts != [] {
      NobodyElseIsProbe(c, Step(c, s, acts[0]), acts[1..], expiry, i);
    }
  }

  /** And that is so for exactly the whole seconds of the cooldown and half a minute: two callers have found it
      over, one has claimed the key, and the other becomes a probe too exactly from then on. */
  lemma {:induction false} SecondClaim(c: Config, s: World, cooldown: real, first: real, second: real)
    requires s.callers == [Seen(cooldown), Seen(cooldown)] && ProbeIsFree(s.keys, first)
    ensures LegalRun(c, s, [Claim(0, first), Claim(1, second)])
    ensures var s' := After(c, s, [Claim(0, first), Claim(1, second)]);
            && |s'.callers| == 2 && s'.callers[0] == Claiming
            && (s'.callers[1] == Claiming <==> second >= first + (cooldown.Floor + 30) as real)
  {
    Two(c, s, Claim(0, first), Claim(1, second));
  }

  // --- a late claim ----------------------------------------------------------------------------

  /** Two callers find the cooldown over; the first goes through, succeeds and closes the breaker; then the second
      claims the key that this has cleared, and its call ends with an error that does not count. */
  function LateClaim(now: real): seq<Act> {
    [Look(0, now), Look(1, now)] + [Claim(0, now), SetHalfOpen(0), Finish(0, now, Ok)] +
    [Claim(1, now), SetHalfOpen(1), Finish(1, now, Uncounted)]
  }

  lemma {:induction false} Compose(c: Config, s: World, acts: seq<Act>, more: seq<Act>)
    requires LegalRun(c, s, acts) && LegalRun(c, After(c, s, acts), more)
    ensures LegalRun(c, s, acts + more) && After(c, s, acts + more) == After(c, After(c, s, acts), more)
    decreases |acts|
  {
    hide Step, Enabled;
    if acts == [] {
      assert acts + more == more;
    } else {
      Compose(c, Step(c, s, acts[0]), acts[1..], more);
      assert (acts + more)[1..] == acts[1..] + more;
    }
  }

  /** The breaker has closed and is half open again, with no probe out, and refuses every caller from then on. */
  lemma {:induction false} LateClaimSticks(c: Config, k: Keys, now: real)
    requires State(k) == Open && now - GetOr(k.openedAt, 0.0) >= Cooldown(c, k) && ProbeIsFree(k, now)
    ensures var s := World(k, [Away, Away]);
            && LegalRun(c, s, LateClaim(now)) && After(c, s, LateClaim(now)).callers == [Away, Away]
            && State(After(c, s, LateClaim(now)).keys) == HalfOpen
            && forall later :: Looked(c, After(c, s, LateClaim(now)).keys, later) == Away
  {
    var s, cd := World(k, [Away, Away]), Cooldown(c, k);
    var s1 := World(k, [Seen(cd), Seen(cd)]);
    Two(c, s, Look(0, now), Look(1, now));
    assert [Away, Away][0 := Seen(cd)][1 := Seen(cd)] == [Seen(cd), Seen(cd)];
    FirstCloses(c, k, now);
    SecondSticks(c, Succeeded(c, Claimed(k, now, cd).(state := Some(HalfOpen))), cd, now);
    hide LegalRun, After, Step, Enabled;
    Compose(c, s, [Look(0, now), Look(1, now)], [Claim(0, now), SetHalfOpen(0), Finish(0, now, Ok)]);
    Compose(c, s, [Look(0, now), Look(1, now)] + [Claim(0, now), SetHalfOpen(0), Finish(0, now, Ok)],
            [Claim(1, now), SetHalfOpen(1), Finish(1, now, Uncounted)]);
  }

  lemma {:induction false} FirstCloses(c: Config, k: Keys, now: real)
    requires ProbeIsFree(k, now)
    ensures var cd := Cooldown(c, k);
            var acts := [Claim(0, now), SetHalfOpen(0), Finish(0, now, Ok)];
            && LegalRun(c, World(k, [Seen(cd), Seen(cd)]), acts)
            && After(c, World(k, [Seen(cd), Seen(cd)]), acts) ==
               World(Succeeded(c, Claimed(k, now, cd).(state := Some(HalfOpen))), [Away, Seen(cd)])
  {
    var cd := Cooldown(c, k);
    var s := World(k, [Seen(cd), Seen(cd)]);
    assert [Seen(cd), Seen(cd)][0 := Claiming][0 := Inside][0 := Away] == [Away, Seen(cd)];
    Three(c, s, Claim(0, now), SetHalfOpen(0), Finish(0, now, Ok));
  }

  lemma {:induction false} SecondSticks(c: Config, k: Keys, cooldown: real, now: real)
    requires ProbeIsFree(k, now)
    ensures var s := World(k, [Away, Seen(cooldown)]);
            var acts := [Claim(1, now), SetHalfOpen(1), Finish(1, now, Uncounted)];
            && LegalRun(c, s, acts)
            && After(c, s, acts) == World(Claimed(k, now, cooldown).(state := Some(HalfOpen)), [Away, Away])
  {
    var s := World(k, [Away, Seen(cooldown)]);
    assert [Away, Seen(cooldown)][1 := Claiming][1 := Inside][1 := Away] == [Away, Away];
    Three(c, s, Claim(1, now), SetHalfOpen(1), Finish(1, now, Uncounted));
  }
}
