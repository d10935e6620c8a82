// The three-state circuit breaker that guards one AI provider.
//
// Time is a parameter. `now` is the clock reading a call compares with the
// cooldown; `stamp` is the later reading that a state change stores.
module CircuitBreaker {

  datatype CircuitState = Closed | Open | HalfOpen

  datatype Config = Config(
    failureThreshold: int, successThreshold: int, resetTimeout: int, halfOpenMaxProbes: int)
  {
    predicate Valid() {
      failureThreshold > 0 && successThreshold > 0 && resetTimeout > 0 && halfOpenMaxProbes > 0
    }
  }

  const SECOND := 1_000_000_000
  const DEFAULT_CONFIG := Config(3, 1, 30 * SECOND, 1)

  // The configuration a registry uses: every field left at zero or below keeps its default.
  function Tuned(t: Config): (c: Config)
    ensures c.Valid()
    ensures c.failureThreshold == t.failureThreshold || (t.failureThreshold <= 0 && c.failureThreshold == 3)
    ensures c.successThreshold == t.successThreshold || (t.successThreshold <= 0 && c.successThreshold == 1)
    ensures c.resetTimeout == t.resetTimeout || (t.resetTimeout <= 0 && c.resetTimeout == 30_000_000_000)
    ensures c.halfOpenMaxProbes == t.halfOpenMaxProbes || (t.halfOpenMaxProbes <= 0 && c.halfOpenMaxProbes == 1)
  {
    Config(
      if t.failureThreshold > 0 then t.failureThreshold else DEFAULT_CONFIG.failureThreshold,
      if t.successThreshold > 0 then t.successThreshold else DEFAULT_CONFIG.successThreshold,
      if t.resetTimeout > 0 then t.resetTimeout else DEFAULT_CONFIG.resetTimeout,
      if t.halfOpenMaxProbes > 0 then t.halfOpenMaxProbes else DEFAULT_CONFIG.halfOpenMaxProbes)
  }

  // The mutable fields of one breaker, as a value.
  datatype Machine = Machine(
    state: CircuitState, consecutiveFails: int, halfOpenSuccess: int, halfOpenInFlight: int, lastTransition: int)

  function Fresh(stamp: int): Machine { Machine(Closed, 0, 0, 0, stamp) }

  function MovedTo(s: CircuitState, stamp: int): Machine { Machine(s, 0, 0, 0, stamp) }

  predicate CooledDown(cfg: Config, m: Machine, now: int) { m.lastTransition + cfg.resetTimeout <= now }

  function Probed(cfg: Config, m: Machine, now: int, stamp: int): Machine {
    if m.state.Open? && CooledDown(cfg, m, now) then MovedTo(HalfOpen, stamp) else m
  }

  // One critical section of the breaker.
  datatype Event =
    | Ask(now: int, stamp: int)    // Allow()
    | Peek(now: int, stamp: int)   // State()
    | Success(stamp: int)          // RecordSuccess()
    | Failure(stamp: int)          // RecordFailure()

  predicate Admits(cfg: Config, m: Machine, e: Event) {
    e.Ask? &&
    var p := Probed(cfg, m, e.now, e.stamp);
    p.state.Closed? || (p.state.HalfOpen? && p.halfOpenInFlight < cfg.halfOpenMaxProbes)
  }

  function Step(cfg: Config, m: Machine, e: Event): Machine {
    match e
    case Peek(now, stamp) => Probed(cfg, m, now, stamp)
    case Ask(now, stamp) =>
      var p := Probed(cfg, m, now, stamp);
      if p.state.HalfOpen? && Admits(cfg, m, e) then p.(halfOpenInFlight := p.halfOpenInFlight + 1) else p
    case Success(stamp) =>
      (match m.state
       case Open => m
       case Closed => m.(consecutiveFails := 0)
       case HalfOpen =>
         if m.halfOpenSuccess + 1 >= cfg.successThreshold then MovedTo(Closed, stamp)
         else Released(m).(halfOpenSuccess := m.halfOpenSuccess + 1))
    case Failure(stamp) =>
      (match m.state
       case Open => m
       case HalfOpen => MovedTo(Open, stamp)
       case Closed =>
         if m.consecutiveFails + 1 >= cfg.failureThreshold then MovedTo(Open, stamp)
         else m.(consecutiveFails := m.consecutiveFails + 1))
  }

  function Released(m: Machine): Machine {
    if m.halfOpenInFlight > 0 then m.(halfOpenInFlight := m.halfOpenInFlight - 1) else m
  }

  function Run(cfg: Config, m: Machine, es: seq<Event>): Machine
    decreases es
  {
    if es == [] then m else Run(cfg, Step(cfg, m, es[0]), es[1..])
  }

  function Admitted(cfg: Config, m: Machine, es: seq<Event>): nat
    decreases es
  {
    if es == [] then 0 else (if Admits(cfg, m, es[0]) then 1 else 0) + Admitted(cfg, Step(cfg, m, es[0]), es[1..])
  }

  lemma {:induction false} RunAppend(cfg: Config, m: Machine, a: seq<Event>, b: seq<Event>)
    ensures Run(cfg, m, a + b) == Run(cfg, Run(cfg, m, a), b)
    ensures Admitted(cfg, m, a + b) == Admitted(cfg, m, a) + Admitted(cfg, Run(cfg, m, a), b)
    decreases a
  {
    if a == [] {
      assert a + b == b;
    } else {
      assert (a + b)[0] == a[0] && (a + b)[1..] == a[1..] + b;
      RunAppend(cfg, Step(cfg, m, a[0]), a[1..], b);
    }
  }

  // ------------------------------------------------------------------ counters

  // What the counters can hold in each state.
  predicate Counters(cfg: Config, m: Machine) {
    && 0 <= m.consecutiveFails < cfg.failureThreshold
    && 0 <= m.halfOpenSuccess < cfg.successThreshold
    && 0 <= m.halfOpenInFlight <= cfg.halfOpenMaxProbes
    && (m.state.Closed? || m.consecutiveFails == 0)
    && (m.state.HalfOpen? || m.halfOpenSuccess == m.halfOpenInFlight == 0)
  }

  lemma {:induction false} RunKeepsCounters(cfg: Config, m: Machine, es: seq<Event>)
    requires cfg.Valid() && Counters(cfg, m)
    ensures Counters(cfg, Run(cfg, m, es))
    decreases es
  {
    if es != [] { RunKeepsCounters(cfg, Step(cfg, m, es[0]), es[1..]); }
  }

  // The number of failures recorded since the last success or change of state.
  function Streak(cfg: Config, m: Machine, es: seq<Event>): nat
    decreases |es|
  {
    if es == [] then 0
    else
      var before, last := es[..|es| - 1], es[|es| - 1];
      var was := Run(cfg, m, before);
      if Step(cfg, was, last).state != was.state || last.Success? then 0
      else Streak(cfg, m, before) + if last.Failure? then 1 else 0
  }

  // While CLOSED the tally is exactly the unbroken run of failures, and is below the threshold;
  // the breaker trips on the failure that completes such a run and on nothing else.
  lemma {:induction false} ClosedCountsTheStreak(cfg: Config, created: int, es: seq<Event>)
    requires cfg.Valid()
    ensures var m := Run(cfg, Fresh(created), es);
            m.state.Closed? ==> m.consecutiveFails == Streak(cfg, Fresh(created), es) < cfg.failureThreshold
    ensures var m := Run(cfg, Fresh(created), es);
            m.state.Closed? ==> forall e ::
              (Step(cfg, m, e).state != Closed <==>
                e.Failure? && Streak(cfg, Fresh(created), es) + 1 == cfg.failureThreshold)
    decreases |es|
  {
    RunKeepsCounters(cfg, Fresh(created), es);
    if es != [] {
      var before, last := es[..|es| - 1], es[|es| - 1];
      RunLast(cfg, Fresh(created), es);
      ClosedCountsTheStreak(cfg, created, before);
    }
  }

  // The number of successes recorded since the last change of state.
  function Wins(cfg: Config, m: Machine, es: seq<Event>): nat
    decreases |es|
  {
    if es == [] then 0
    else
      var before, last := es[..|es| - 1], es[|es| - 1];
      var was := Run(cfg, m, before);
      if Step(cfg, was, last).state != was.state then 0 else Wins(cfg, m, before) + if last.Success? then 1 else 0
  }

  // In HALF_OPEN the tally is exactly the epoch's successes, and below the threshold; the breaker closes on the
  // success that completes them and on nothing else, and opens on any failure and on nothing else.
  lemma {:induction false} HalfOpenCountsSuccesses(cfg: Config, created: int, es: seq<Event>)
    requires cfg.Valid()
    ensures var m, wins := Run(cfg, Fresh(created), es), Wins(cfg, Fresh(created), es);
            m.state.HalfOpen? ==>
              && m.halfOpenSuccess == wins < cfg.successThreshold
              && forall e ::
                   && (Step(cfg, m, e).state == Closed <==> e.Success? && wins + 1 == cfg.successThreshold)
                   && (Step(cfg, m, e).state == Open <==> e.Failure?)
    decreases |es|
  {
    RunKeepsCounters(cfg, Fresh(created), es);
    if es != [] {
      var before, last := es[..|es| - 1], es[|es| - 1];
      RunLast(cfg, Fresh(created), es);
      RunKeepsCounters(cfg, Fresh(created), before);
      HalfOpenCountsSuccesses(cfg, created, before);
    }
  }

  lemma RunLast(cfg: Config, m: Machine, es: seq<Event>)
    requires es != []
    ensures var n := |es| - 1; Run(cfg, m, es) == Step(cfg, Run(cfg, m, es[..n]), es[n])
  {
    var before, last := es[..|es| - 1], es[|es| - 1];
    assert es == before + [last] && [last][1..] == [];
    RunAppend(cfg, m, before, [last]);
    assert Run(cfg, Run(cfg, m, before), [last]) == Step(cfg, Run(cfg, m, before), last);
  }

  // OPEN is left by a reading of the clock past the cooldown and by nothing else, for HALF_OPEN; a result that
  // arrives meanwhile changes nothing.
  lemma LeavesOpenExactly(cfg: Config, created: int, es: seq<Event>, e: Event)
    requires cfg.Valid() && Run(cfg, Fresh(created), es).state.Open?
    ensures var m := Run(cfg, Fresh(created), es);
            var due := (e.Ask? || e.Peek?) && m.lastTransition + cfg.resetTimeout <= e.now;
            && (if due then Step(cfg, m, e).state == HalfOpen else Step(cfg, m, e) == m)
            && (Admits(cfg, m, e) <==> due && e.Ask?)
  {}

  // One call: the readings of the clock when it asks, and the one stored when its success is recorded.
  datatype ProbeCall = ProbeCall(now: int, stamp: int, end: int)

  // Calls made one after the other, all of which succeed.
  function Answered(calls: seq<ProbeCall>): seq<Event> {
    if calls == [] then []
    else [Ask(calls[0].now, calls[0].stamp), Success(calls[0].end)] + Answered(calls[1..])
  }

  lemma {:induction false} AnsweredCloses(cfg: Config, m: Machine, calls: seq<ProbeCall>)
    requires cfg.Valid() && calls != []
    requires var was := Probed(cfg, m, calls[0].now, calls[0].stamp);
             was.state.HalfOpen? && was.halfOpenInFlight == 0 && was.halfOpenSuccess + |calls| == cfg.successThreshold
    ensures Run(cfg, m, Answered(calls)) == Fresh(calls[|calls| - 1].end)
    ensures Admitted(cfg, m, Answered(calls)) == |calls|
    decreases |calls|
  {
    var es, c := Answered(calls), calls[0];
    var m1 := Step(cfg, m, Ask(c.now, c.stamp));
    var m2 := Step(cfg, m1, Success(c.end));
    assert es[0] == Ask(c.now, c.stamp) && es[1..][0] == Success(c.end) && es[1..][1..] == Answered(calls[1..]);
    if |calls| > 1 { AnsweredCloses(cfg, m2, calls[1..]); }
    assert Run(cfg, m1, es[1..]) == Run(cfg, m2, Answered(calls[1..]));
    assert Admitted(cfg, m1, es[1..]) == Admitted(cfg, m2, Answered(calls[1..]));
  }

  // A provider that answers again recovers: after any trip, once the cooldown is over, successThreshold calls that all
  // succeed are all let through and leave the breaker as good as new, and it admits whatever comes next.
  lemma Recovers(cfg: Config, created: int, history: seq<Event>, calls: seq<ProbeCall>, now: int, stamp: int)
    requires cfg.Valid() && Run(cfg, Fresh(created), history).state.Open?
    requires |calls| == cfg.successThreshold
    requires Run(cfg, Fresh(created), history).lastTransition + cfg.resetTimeout <= calls[0].now
    ensures var m, es := Run(cfg, Fresh(created), history), Answered(calls);
            && Admitted(cfg, m, es) == |calls|
            && Run(cfg, m, es) == Fresh(calls[|calls| - 1].end)
            && Run(cfg, m, es).state.Closed? && Admits(cfg, Run(cfg, m, es), Ask(now, stamp))
  {
    AnsweredCloses(cfg, Run(cfg, Fresh(created), history), calls);
  }

  // ---------------------------------------------------------------- flood bound

  // Every event of `es` leaves the breaker HALF_OPEN: `es` lies within one HALF_OPEN epoch.
  predicate WithinHalfOpen(cfg: Config, m: Machine, es: seq<Event>)
    decreases es
  {
    es == [] || (Step(cfg, m, es[0]).state.HalfOpen? && WithinHalfOpen(cfg, Step(cfg, m, es[0]), es[1..]))
  }

  function FloodBound(cfg: Config): int { cfg.halfOpenMaxProbes + cfg.successThreshold - 1 }

  lemma {:induction false} EpochAdmissions(cfg: Config, m: Machine, es: seq<Event>)
    requires cfg.Valid() && Counters(cfg, m) && WithinHalfOpen(cfg, m, es)
    ensures Admitted(cfg, m, es) <= FloodBound(cfg) - m.halfOpenInFlight - m.halfOpenSuccess
    decreases es
  {
    if es != [] {
      RunKeepsCounters(cfg, m, es[..1]);
      assert Run(cfg, m, es[..1]) == Step(cfg, m, es[0]);
      EpochAdmissions(cfg, Step(cfg, m, es[0]), es[1..]);
    }
  }

  // In any run, however late the results arrive, one HALF_OPEN epoch admits at most
  // halfOpenMaxProbes + successThreshold - 1 calls. `es` may begin with the call that opens the epoch.
  lemma HalfOpenFloodBound(cfg: Config, created: int, history: seq<Event>, es: seq<Event>)
    requires cfg.Valid() && WithinHalfOpen(cfg, Run(cfg, Fresh(created), history), es)
    ensures Admitted(cfg, Run(cfg, Fresh(created), history), es) <= FloodBound(cfg)
  {
    RunKeepsCounters(cfg, Fresh(created), history);
    EpochAdmissions(cfg, Run(cfg, Fresh(created), history), es);
  }

  function Asks(n: nat, t: int): seq<Event> { if n == 0 then [] else [Ask(t, t)] + Asks(n - 1, t) }

  function Swaps(n: nat, t: int): seq<Event> { if n == 0 then [] else [Success(t), Ask(t, t)] + Swaps(n - 1, t) }

  lemma {:induction false} AsksFill(cfg: Config, m: Machine, n: nat, t: int)
    requires cfg.Valid() && m.state.HalfOpen? && 0 <= m.halfOpenInFlight
              && m.halfOpenInFlight + n <= cfg.halfOpenMaxProbes
    ensures WithinHalfOpen(cfg, m, Asks(n, t)) && Admitted(cfg, m, Asks(n, t)) == n
    ensures Run(cfg, m, Asks(n, t)) == m.(halfOpenInFlight := m.halfOpenInFlight + n)
    decreases n
  {
    if n > 0 {
      var es := Asks(n, t);
      assert es[0] == Ask(t, t) && es[1..] == Asks(n - 1, t);
      AsksFill(cfg, Step(cfg, m, es[0]), n - 1, t);
    }
  }

  lemma {:induction false} SwapsRefill(cfg: Config, m: Machine, n: nat, t: int)
    requires cfg.Valid() && m.state.HalfOpen? && m.halfOpenInFlight == cfg.halfOpenMaxProbes
    requires m.halfOpenSuccess + n < cfg.successThreshold
    ensures WithinHalfOpen(cfg, m, Swaps(n, t)) && Admitted(cfg, m, Swaps(n, t)) == n
    decreases n
  {
    if n > 0 {
      var es := Swaps(n, t);
      var m1 := Step(cfg, m, es[0]);
      var m2 := Step(cfg, m1, es[1]);
      assert es[0] == Success(t) && es[1..][0] == Ask(t, t) && es[1..][1..] == Swaps(n - 1, t);
      assert m2 == m.(halfOpenSuccess := m.halfOpenSuccess + 1);
      SwapsRefill(cfg, m2, n - 1, t);
      assert WithinHalfOpen(cfg, m1, es[1..]) && Admitted(cfg, m1, es[1..]) == 1 + Admitted(cfg, m2, Swaps(n - 1, t));
    }
  }

  lemma {:induction false} WithinAppend(cfg: Config, m: Machine, a: seq<Event>, b: seq<Event>)
    requires WithinHalfOpen(cfg, m, a) && WithinHalfOpen(cfg, Run(cfg, m, a), b)
    ensures WithinHalfOpen(cfg, m, a + b)
    decreases a
  {
    if a == [] {
      assert a + b == b;
    } else {
      assert (a + b)[0] == a[0] && (a + b)[1..] == a[1..] + b;
      WithinAppend(cfg, Step(cfg, m, a[0]), a[1..], b);
    }
  }

  // The bound is the best one: every configuration has an epoch that reaches it.
  lemma FloodBoundIsReached(cfg: Config, tripped: int) returns (es: seq<Event>)
    requires cfg.Valid()
    ensures WithinHalfOpen(cfg, MovedTo(Open, tripped), es)
    ensures Admitted(cfg, MovedTo(Open, tripped), es) == FloodBound(cfg)
  {
    var m, t := MovedTo(Open, tripped), tripped + cfg.resetTimeout;
    var first := Ask(t, t);
    var m1 := Step(cfg, m, first);
    AsksFill(cfg, m1, cfg.halfOpenMaxProbes - 1, t);
    var a := Asks(cfg.halfOpenMaxProbes - 1, t);
    SwapsRefill(cfg, Run(cfg, m1, a), cfg.successThreshold - 1, t);
    var b := Swaps(cfg.successThreshold - 1, t);
    WithinAppend(cfg, m1, a, b);
    RunAppend(cfg, m1, a, b);
    es := [first] + (a + b);
    assert es[1..] == a + b;
  }

  // ------------------------------------------------------- a provider that stays dead

  // The readings of `es` are in order, start no earlier than `from` and end by `to`.
  predicate Clocked(es: seq<Event>, from: int, to: int) {
    if es == [] then from <= to
    else
      var e := es[0];
      (if e.Ask? || e.Peek? then from <= e.now <= e.stamp else from <= e.stamp) && Clocked(es[1..], e.stamp, to)
  }

  predicate NoSuccess(es: seq<Event>) { forall i :: 0 <= i < |es| ==> !es[i].Success? }

  // With fewer than n + 1 cooldowns left before `to`, a machine that is OPEN or HALF_OPEN admits at most
  // n full rounds of probes, besides the probes its current epoch has left.
  lemma {:induction false} RoundsOfProbes(cfg: Config, m: Machine, es: seq<Event>, from: int, to: int, n: nat)
    requires cfg.Valid() && Counters(cfg, m) && !m.state.Closed?
    requires m.lastTransition <= from && Clocked(es, from, to) && NoSuccess(es)
    requires to - m.lastTransition < n * cfg.resetTimeout + cfg.resetTimeout
    ensures Admitted(cfg, m, es) <=
            n * cfg.halfOpenMaxProbes + if m.state.HalfOpen? then cfg.halfOpenMaxProbes - m.halfOpenInFlight else 0
    decreases es
  {
    assert n * cfg.halfOpenMaxProbes >= 0;
    if es != [] {
      var e := es[0];
      var m' := Step(cfg, m, e);
      assert !e.Success?;
      RunKeepsCounters(cfg, m, [e]);
      assert Run(cfg, m, [e]) == m';
      ClockedEnds(es[1..], e.stamp, to);
      if m.state.Open? && m'.state.HalfOpen? {
        if n == 0 { assert false; }
        assert n * cfg.resetTimeout == (n - 1) * cfg.resetTimeout + cfg.resetTimeout;
        assert n * cfg.halfOpenMaxProbes == (n - 1) * cfg.halfOpenMaxProbes + cfg.halfOpenMaxProbes;
        RoundsOfProbes(cfg, m', es[1..], e.stamp, to, n - 1);
      } else {
        RoundsOfProbes(cfg, m', es[1..], e.stamp, to, n);
      }
    }
  }

  lemma {:induction false} ClockedEnds(es: seq<Event>, from: int, to: int)
    requires Clocked(es, from, to)
    ensures from <= to
  {
    if es != [] { ClockedEnds(es[1..], es[0].stamp, to); }
  }

  lemma CooldownsIn(elapsed: nat, cooldown: int) returns (n: nat)
    requires cooldown > 0
    ensures n == elapsed / cooldown && elapsed < n * cooldown + cooldown
    ensures elapsed < cooldown ==> n == 0
  {
    n := elapsed / cooldown;
    assert elapsed == n * cooldown + elapsed % cooldown;
  }

  // If every recorded result is a failure, then within `elapsed` of any trip at most
  // halfOpenMaxProbes calls get through per completed cooldown, and none before the first.
  lemma DeadProviderLoad(cfg: Config, created: int, history: seq<Event>, es: seq<Event>, elapsed: nat)
    requires cfg.Valid()
    requires var m := Run(cfg, Fresh(created), history);
             m.state.Open? && Clocked(es, m.lastTransition, m.lastTransition + elapsed) && NoSuccess(es)
    ensures var m := Run(cfg, Fresh(created), history);
            && Admitted(cfg, m, es) <= (elapsed / cfg.resetTimeout) * cfg.halfOpenMaxProbes
            && (elapsed < cfg.resetTimeout ==> Admitted(cfg, m, es) == 0)
  {
    var m := Run(cfg, Fresh(created), history);
    RunKeepsCounters(cfg, Fresh(created), history);
    var n := CooldownsIn(elapsed, cfg.resetTimeout);
    RoundsOfProbes(cfg, m, es, m.lastTransition, m.lastTransition + elapsed, n);
  }

  // One cooldown after `m` opened: ask for every probe, and fail.
  function Round(cfg: Config, t: int): seq<Event>
    requires cfg.Valid()
  {
    [Ask(t, t)] + (Asks(cfg.halfOpenMaxProbes - 1, t) + [Failure(t)])
  }

  function Rounds(cfg: Config, n: nat, since: int): seq<Event>
    requires cfg.Valid()
  {
    var t := since + cfg.resetTimeout;
    if n == 0 then [] else Round(cfg, t) + Rounds(cfg, n - 1, t)
  }

  lemma {:induction false} AsksAreClocked(n: nat, t: int, rest: seq<Event>, to: int)
    requires Clocked(rest, t, to) && NoSuccess(rest)
    ensures Clocked(Asks(n, t) + rest, t, to) && NoSuccess(Asks(n, t) + rest)
    decreases n
  {
    if n == 0 {
      assert Asks(0, t) + rest == rest;
    } else {
      assert (Asks(n, t) + rest)[1..] == Asks(n - 1, t) + rest;
      AsksAreClocked(n - 1, t, rest, to);
    }
  }

  // A round fills every slot and reopens the breaker.
  lemma RoundReopens(cfg: Config, m: Machine, t: int)
    requires cfg.Valid() && m.state.Open? && t == m.lastTransition + cfg.resetTimeout
    ensures Run(cfg, m, Round(cfg, t)) == MovedTo(Open, t)
    ensures Admitted(cfg, m, Round(cfg, t)) == cfg.halfOpenMaxProbes
  {
    var n, m1 := cfg.halfOpenMaxProbes - 1, Step(cfg, m, Ask(t, t));
    assert m1 == MovedTo(HalfOpen, t).(halfOpenInFlight := 1);
    AsksFill(cfg, m1, n, t);
    RunAppend(cfg, m1, Asks(n, t), [Failure(t)]);
    assert [Failure(t)][1..] == [] && Round(cfg, t)[1..] == Asks(n, t) + [Failure(t)];
  }

  // What may follow a round may follow it after one cooldown.
  lemma RoundIsClocked(cfg: Config, t: int, rest: seq<Event>, from: int, to: int)
    requires cfg.Valid() && from <= t && Clocked(rest, t, to) && NoSuccess(rest)
    ensures Clocked(Round(cfg, t) + rest, from, to) && NoSuccess(Round(cfg, t) + rest)
  {
    var n, tail, all := cfg.halfOpenMaxProbes - 1, [Failure(t)] + rest, Round(cfg, t) + rest;
    assert tail[0] == Failure(t) && tail[1..] == rest;
    AsksAreClocked(n, t, tail, to);
    assert all == [Ask(t, t)] + (Asks(n, t) + tail);
    assert all[0] == Ask(t, t) && all[1..] == Asks(n, t) + tail;
  }

  lemma {:induction false} RoundsAreClocked(cfg: Config, n: nat, since: int, to: int)
    requires cfg.Valid() && since + n * cfg.resetTimeout <= to
    ensures Clocked(Rounds(cfg, n, since), since, to) && NoSuccess(Rounds(cfg, n, since))
    decreases n
  {
    if n > 0 {
      var t := since + cfg.resetTimeout;
      assert n * cfg.resetTimeout == (n - 1) * cfg.resetTimeout + cfg.resetTimeout;
      RoundsAreClocked(cfg, n - 1, t, to);
      RoundIsClocked(cfg, t, Rounds(cfg, n - 1, t), since, to);
    }
  }

  lemma {:induction false} RoundsAdmit(cfg: Config, m: Machine, n: nat)
    requires cfg.Valid() && m.state.Open?
    ensures Admitted(cfg, m, Rounds(cfg, n, m.lastTransition)) == n * cfg.halfOpenMaxProbes
    decreases n
  {
    if n > 0 {
      var t := m.lastTransition + cfg.resetTimeout;
      assert n * cfg.halfOpenMaxProbes == (n - 1) * cfg.halfOpenMaxProbes + cfg.halfOpenMaxProbes;
      RoundReopens(cfg, m, t);
      RoundsAdmit(cfg, MovedTo(Open, t), n - 1);
      RunAppend(cfg, m, Round(cfg, t), Rounds(cfg, n - 1, t));
    }
  }

  // No run of `elapsed` after a trip in which every recorded result is a failure admits more.
  ghost predicate NoDeadRunAdmitsMore(cfg: Config, m: Machine, elapsed: nat, most: int) {
    forall es :: Clocked(es, m.lastTransition, m.lastTransition + elapsed) && NoSuccess(es) ==>
      Admitted(cfg, m, es) <= most
  }

  // The load on a dead provider, exactly: after any trip, all probes of every completed cooldown and no more.
  lemma DeadProviderLoadIsExact(cfg: Config, created: int, history: seq<Event>, elapsed: nat, most: int)
    requires cfg.Valid() && Run(cfg, Fresh(created), history).state.Open?
    ensures NoDeadRunAdmitsMore(cfg, Run(cfg, Fresh(created), history), elapsed, most)
       <==> most >= (elapsed / cfg.resetTimeout) * cfg.halfOpenMaxProbes
  {
    var m := Run(cfg, Fresh(created), history);
    if most >= (elapsed / cfg.resetTimeout) * cfg.halfOpenMaxProbes {
      forall es | Clocked(es, m.lastTransition, m.lastTransition + elapsed) && NoSuccess(es)
        ensures Admitted(cfg, m, es) <= most
      {
        DeadProviderLoad(cfg, created, history, es, elapsed);
      }
    } else {
      var n := elapsed / cfg.resetTimeout;
      assert n * cfg.resetTimeout <= elapsed;
      RoundsAreClocked(cfg, n, m.lastTransition, m.lastTransition + elapsed);
      RoundsAdmit(cfg, m, n);
    }
  }

  // --------------------------------------------------------------- the object

  class Breaker {
    const cfg: Config
    var state: CircuitState
    var consecutiveFails: int
    var halfOpenSuccess: int
    var halfOpenInFlight: int
    var lastTransition: int

    constructor (cfg: Config, stamp: int)
      ensures this.cfg == cfg && View() == Fresh(stamp)
    {
      this.cfg := cfg;
      state, consecutiveFails, halfOpenSuccess, halfOpenInFlight := Closed, 0, 0, 0;
      lastTransition := stamp;
    }

    ghost function View(): Machine
      reads this
    {
      Machine(state, consecutiveFails, halfOpenSuccess, halfOpenInFlight, lastTransition)
    }

    method State(now: int, stamp: int) returns (s: CircuitState)
      modifies this
      ensures View() == Step(cfg, old(View()), Peek(now, stamp)) && s == View().state
    {
      MaybeHalfOpen(now, stamp);
      s := state;
    }

    method Allow(now: int, stamp: int) returns (allowed: bool)
      modifies this
      ensures allowed == Admits(cfg, old(View()), Ask(now, stamp))
      ensures View() == Step(cfg, old(View()), Ask(now, stamp))
    {
      MaybeHalfOpen(now, stamp);
      match state {
        case Closed => return true;
        case Open => return false;
        case HalfOpen =>
          if halfOpenInFlight < cfg.halfOpenMaxProbes {
            halfOpenInFlight := halfOpenInFlight + 1;
            return true;
          }
          return false;
      }
    }

    method RecordSuccess(stamp: int)
      modifies this
      ensures View() == Step(cfg, old(View()), Success(stamp))
    {
      match state {
        case Closed => consecutiveFails := 0;
        case Open =>
        case HalfOpen =>
          if halfOpenInFlight > 0 { halfOpenInFlight := halfOpenInFlight - 1; }
          halfOpenSuccess := halfOpenSuccess + 1;
          if halfOpenSuccess >= cfg.successThreshold { TransitionTo(Closed, stamp); }
      }
    }

    method RecordFailure(stamp: int)
      modifies this
      ensures View() == Step(cfg, old(View()), Failure(stamp))
    {
      match state {
        case Closed =>
          consecutiveFails := consecutiveFails + 1;
          if consecutiveFails >= cfg.failureThreshold { TransitionTo(Open, stamp); }
        case Open =>
        case HalfOpen =>
          if halfOpenInFlight > 0 { halfOpenInFlight := halfOpenInFlight - 1; }
          TransitionTo(Open, stamp);
      }
    }

    method MaybeHalfOpen(now: int, stamp: int)
      modifies this
      ensures View() == Probed(cfg, old(View()), now, stamp)
    {
      if state == Open && !(now < lastTransition + cfg.resetTimeout) { TransitionTo(HalfOpen, stamp); }
    }

    method TransitionTo(s: CircuitState, stamp: int)
      modifies this
      ensures View() == MovedTo(s, stamp)
    {
      state := s;
      lastTransition := stamp;
      consecutiveFails := 0;
      halfOpenSuccess := 0;
      halfOpenInFlight := 0;
    }
  }
}
