// One breaker shared by concurrent callers, and the half-open slots those callers hold.
//
// A call is tagged with the epoch that admitted it, where an epoch ends at every change of state.
// A result whose tag is an older epoch is late.
module ProbeSlots {
  import opened CircuitBreaker

  datatype System = System(
    m: Machine,
    epoch: nat,           // state changes so far
    out: multiset<nat>,   // tags of the calls admitted and not yet finished
    dropped: nat,         // calls of this epoch whose client left: nothing was recorded for them
    late: nat)            // late results recorded in this epoch

  datatype Action =
    | Call(now: int, stamp: int)
    | Look(now: int, stamp: int)
    | Report(tag: nat, ok: bool, stamp: int)
    | Drop(tag: nat)

  predicate Enabled(s: System, a: Action) { (a.Report? || a.Drop?) ==> a.tag in s.out }

  function Turned(s: System, m: Machine): System {
    if m.state == s.m.state then s.(m := m) else s.(m := m, epoch := s.epoch + 1, dropped := 0, late := 0)
  }

  function Act(cfg: Config, s: System, a: Action): System
    requires Enabled(s, a)
  {
    match a
    case Call(now, stamp) =>
      var s' := Turned(s, Step(cfg, s.m, Ask(now, stamp)));
      if Admits(cfg, s.m, Ask(now, stamp)) then s'.(out := s'.out + multiset{s'.epoch}) else s'
    case Look(now, stamp) => Turned(s, Step(cfg, s.m, Peek(now, stamp)))
    case Report(tag, ok, stamp) =>
      var counted := s.(out := s.out - multiset{tag}, late := s.late + if tag == s.epoch then 0 else 1);
      Turned(counted, Step(cfg, s.m, if ok then Success(stamp) else Failure(stamp)))
    case Drop(tag) =>
      s.(out := s.out - multiset{tag}, dropped := s.dropped + if tag == s.epoch then 1 else 0)
  }

  function Start(created: int): System { System(Fresh(created), 0, multiset{}, 0, 0) }

  // The states that any interleaving of callers can reach.
  ghost predicate Reaches(cfg: Config, s: System, acts: seq<Action>, t: System)
    decreases acts
  {
    if acts == [] then s == t else Enabled(s, acts[0]) && Reaches(cfg, Act(cfg, s, acts[0]), acts[1..], t)
  }

  predicate Accounted(cfg: Config, s: System) {
    && Counters(cfg, s.m)
    && (forall tag <- s.out :: tag <= s.epoch)
    && (s.m.state.HalfOpen? ==>
         && s.late <= s.m.halfOpenSuccess
         && s.m.halfOpenInFlight <= s.out[s.epoch] + s.dropped <= s.m.halfOpenInFlight + s.late)
  }

  lemma ActAccounts(cfg: Config, s: System, a: Action)
    requires cfg.Valid() && Accounted(cfg, s) && Enabled(s, a)
    ensures Accounted(cfg, Act(cfg, s, a))
  {
    match a {
      case Call(now, stamp) => CallAccounts(cfg, s, now, stamp);
      case Look(now, stamp) => TurnAccounts(cfg, s, Peek(now, stamp));
      case Report(tag, ok, stamp) => ReportAccounts(cfg, s, tag, ok, stamp);
      case Drop(tag) =>
    }
  }

  lemma StepKeepsCounters(cfg: Config, m: Machine, e: Event)
    requires cfg.Valid() && Counters(cfg, m)
    ensures Counters(cfg, Step(cfg, m, e))
  {}

  // Asking or looking releases nothing; a turn into HALF_OPEN starts with no call of the new epoch.
  lemma TurnAccounts(cfg: Config, s: System, e: Event)
    requires cfg.Valid() && Accounted(cfg, s) && e.Peek?
    ensures Accounted(cfg, Turned(s, Step(cfg, s.m, e)))
    ensures var t := Turned(s, Step(cfg, s.m, e));
            t.m.state.HalfOpen? && !s.m.state.HalfOpen? ==> t.out[t.epoch] == 0
  {
    assert s.epoch + 1 !in s.out;
  }

  lemma CallAccounts(cfg: Config, s: System, now: int, stamp: int)
    requires cfg.Valid() && Accounted(cfg, s)
    ensures Accounted(cfg, Act(cfg, s, Call(now, stamp)))
  {
    TurnAccounts(cfg, s, Peek(now, stamp));
    StepKeepsCounters(cfg, s.m, Ask(now, stamp));
    var t := Turned(s, Step(cfg, s.m, Peek(now, stamp)));
    var t' := Act(cfg, s, Call(now, stamp));
    assert t'.epoch == t.epoch && t'.late == t.late && t'.dropped == t.dropped;
    forall tag | tag in t'.out ensures tag <= t'.epoch {
      if tag !in t.out { assert tag == t'.epoch; }
    }
  }

  lemma ReportAccounts(cfg: Config, s: System, tag: nat, ok: bool, stamp: int)
    requires cfg.Valid() && Accounted(cfg, s) && tag in s.out
    ensures Accounted(cfg, Act(cfg, s, Report(tag, ok, stamp)))
  {
    var e := if ok then Success(stamp) else Failure(stamp);
    StepKeepsCounters(cfg, s.m, e);
    var t := Act(cfg, s, Report(tag, ok, stamp));
    assert t.out == s.out - multiset{tag};
    assert !t.m.state.HalfOpen? || t.epoch == s.epoch;
  }

  lemma {:induction false} RunAccounts(cfg: Config, s: System, acts: seq<Action>, t: System)
    requires cfg.Valid() && Accounted(cfg, s) && Reaches(cfg, s, acts, t)
    ensures Accounted(cfg, t)
    decreases acts
  {
    if acts != [] {
      ActAccounts(cfg, s, acts[0]);
      RunAccounts(cfg, Act(cfg, s, acts[0]), acts[1..], t);
    }
  }

  // For every interleaving, in HALF_OPEN: the slots reserved are the calls of this epoch still out or dropped,
  // less at most one for each late result. With no late result they are exactly those, so the probes
  // outstanding never pass halfOpenMaxProbes; late results raise that by at most successThreshold - 1.
  lemma SlotAccounting(cfg: Config, created: int, acts: seq<Action>, t: System)
    requires cfg.Valid() && Reaches(cfg, Start(created), acts, t) && t.m.state.HalfOpen?
    ensures t.m.halfOpenInFlight <= t.out[t.epoch] + t.dropped <= t.m.halfOpenInFlight + t.late
    ensures t.out[t.epoch] + t.dropped <= FloodBound(cfg)
    ensures t.late == 0 ==> t.out[t.epoch] + t.dropped == t.m.halfOpenInFlight <= cfg.halfOpenMaxProbes
  {
    RunAccounts(cfg, Start(created), acts, t);
  }

  // No call is ever admitted again, whatever the callers do next.
  ghost predicate LockedOut(cfg: Config, s: System) {
    forall acts, t, now, stamp :: Reaches(cfg, s, acts, t) ==> !Admits(cfg, t.m, Ask(now, stamp))
  }

  // Over every interleaving the breaker is locked out exactly when it is HALF_OPEN with every slot reserved and
  // no call of any epoch is still out: while one is, its result can free a slot or close the breaker.
  lemma LockedOutExactly(cfg: Config, created: int, acts: seq<Action>, s: System)
    requires cfg.Valid() && Reaches(cfg, Start(created), acts, s)
    ensures LockedOut(cfg, s) <==>
            s.m.state.HalfOpen? && s.m.halfOpenInFlight == cfg.halfOpenMaxProbes && s.out == multiset{}
  {
    RunAccounts(cfg, Start(created), acts, s);
    if s.m.state.HalfOpen? && s.m.halfOpenInFlight == cfg.halfOpenMaxProbes && s.out == multiset{} {
      forall acts, t, now, stamp | Reaches(cfg, s, acts, t) ensures !Admits(cfg, t.m, Ask(now, stamp)) {
        NothingMoves(cfg, s, acts, t);
      }
    } else {
      var more, t := WayOut(cfg, s);
      var now := t.m.lastTransition + cfg.resetTimeout;
      assert Admits(cfg, t.m, Ask(now, now));
    }
  }

  lemma {:induction false} NothingMoves(cfg: Config, s: System, acts: seq<Action>, t: System)
    requires cfg.Valid() && s.m.state.HalfOpen? && s.m.halfOpenInFlight == cfg.halfOpenMaxProbes && s.out == multiset{}
    requires Reaches(cfg, s, acts, t)
    ensures t == s
    decreases acts
  {
    if acts != [] {
      assert Act(cfg, s, acts[0]) == s;
      NothingMoves(cfg, s, acts[1..], t);
    }
  }

  // Nothing to wait for, or one success to report.
  lemma WayOut(cfg: Config, s: System) returns (acts: seq<Action>, t: System)
    requires cfg.Valid() && Accounted(cfg, s)
    requires !(s.m.state.HalfOpen? && s.m.halfOpenInFlight == cfg.halfOpenMaxProbes && s.out == multiset{})
    ensures Reaches(cfg, s, acts, t)
    ensures Admits(cfg, t.m, Ask(t.m.lastTransition + cfg.resetTimeout, t.m.lastTransition + cfg.resetTimeout))
  {
    acts, t := [], s;
    if s.m.state.HalfOpen? && s.m.halfOpenInFlight == cfg.halfOpenMaxProbes {
      var tag :| tag in s.out;
      acts := [Report(tag, true, 0)];
      t := Act(cfg, s, acts[0]);
      assert acts[1..] == [];
    }
  }

  // ------------------------------------------------- one request at a time

  datatype Ending = Succeeds | Fails | ClientLeaves

  // One request's use of a provider, and how it ends if the breaker admits it.
  datatype Attempt = Attempt(now: int, stamp: int, ending: Ending, done: int)

  predicate AdmitsAttempt(cfg: Config, m: Machine, a: Attempt) { Admits(cfg, m, Ask(a.now, a.stamp)) }

  // The breaker after one attempt.
  function Tried(cfg: Config, m: Machine, a: Attempt): Machine {
    var asked := Step(cfg, m, Ask(a.now, a.stamp));
    if !AdmitsAttempt(cfg, m, a) then asked
    else match a.ending
      case Succeeds => Step(cfg, asked, Success(a.done))
      case Fails => Step(cfg, asked, Failure(a.done))
      case ClientLeaves => asked
  }

  function TriedAll(cfg: Config, m: Machine, attempts: seq<Attempt>): Machine
    decreases attempts
  {
    if attempts == [] then m else TriedAll(cfg, Tried(cfg, m, attempts[0]), attempts[1..])
  }

  lemma {:induction false} TriedAppend(cfg: Config, m: Machine, a: seq<Attempt>, b: seq<Attempt>)
    ensures TriedAll(cfg, m, a + b) == TriedAll(cfg, TriedAll(cfg, m, a), b)
    decreases a
  {
    if a == [] {
      assert a + b == b;
    } else {
      assert (a + b)[0] == a[0] && (a + b)[1..] == a[1..] + b;
      TriedAppend(cfg, Tried(cfg, m, a[0]), a[1..], b);
    }
  }

  // The actions of one attempt.
  function Actions(cfg: Config, s: System, a: Attempt): seq<Action> {
    [Call(a.now, a.stamp)] +
    if !AdmitsAttempt(cfg, s.m, a) then []
    else
      var tag := Act(cfg, s, Call(a.now, a.stamp)).epoch;
      if a.ending.ClientLeaves? then [Drop(tag)] else [Report(tag, a.ending.Succeeds?, a.done)]
  }

  // The number of attempts, in the epoch the breaker is in at the end, that were admitted and whose client left.
  function DroppedInEpoch(cfg: Config, m: Machine, attempts: seq<Attempt>): nat {
    if attempts == [] then 0
    else
      var before, a := attempts[..|attempts| - 1], attempts[|attempts| - 1];
      var was := TriedAll(cfg, m, before);
      (if Tried(cfg, was, a).state == was.state then DroppedInEpoch(cfg, m, before) else 0)
      + (if AdmitsAttempt(cfg, was, a) && a.ending.ClientLeaves? then 1 else 0)
  }

  predicate AtRest(s: System) { s.out == multiset{} && s.late == 0 }

  // What asking leaves: the call out if it was admitted, and a new epoch exactly if the state changed.
  lemma AfterCall(cfg: Config, s: System, a: Attempt)
    requires cfg.Valid() && Accounted(cfg, s) && AtRest(s)
    ensures var t := Act(cfg, s, Call(a.now, a.stamp));
            && Accounted(cfg, t) && t.m == Step(cfg, s.m, Ask(a.now, a.stamp)) && t.late == 0
            && t.out == (if AdmitsAttempt(cfg, s.m, a) then multiset{t.epoch} else multiset{})
            && s.epoch <= t.epoch && (t.epoch == s.epoch <==> t.m.state == s.m.state)
            && t.dropped == if t.epoch == s.epoch then s.dropped else 0
  {
    ActAccounts(cfg, s, Call(a.now, a.stamp));
  }

  // What the end of the call leaves.
  lemma AfterEnd(cfg: Config, s: System, ending: Ending, done: int) returns (t: System)
    requires cfg.Valid() && Accounted(cfg, s) && s.out == multiset{s.epoch} && s.late == 0
    ensures var act := if ending.ClientLeaves? then Drop(s.epoch) else Report(s.epoch, ending.Succeeds?, done);
            Enabled(s, act) && t == Act(cfg, s, act)
    ensures Accounted(cfg, t) && AtRest(t)
    ensures ending.ClientLeaves? ==> t == s.(out := multiset{}, dropped := s.dropped + 1)
    ensures !ending.ClientLeaves? ==> t.m == Step(cfg, s.m, if ending.Succeeds? then Success(done) else Failure(done))
    ensures !ending.ClientLeaves? ==> t.dropped == if t.m.state == s.m.state then s.dropped else 0
    ensures !ending.ClientLeaves? ==> s.epoch <= t.epoch && (t.epoch == s.epoch <==> t.m.state == s.m.state)
    ensures !ending.ClientLeaves? && t.m.state.HalfOpen? ==> s.m.state.HalfOpen?
  {
    var act := if ending.ClientLeaves? then Drop(s.epoch) else Report(s.epoch, ending.Succeeds?, done);
    assert s.epoch in s.out;
    ActAccounts(cfg, s, act);
    t := Act(cfg, s, act);
    assert t.out == multiset{};
  }

  // The actions of one attempt. Only OPEN -> HALF_OPEN -> OPEN leaves a state and comes back to it, so comparing
  // the states around an attempt tells whether the HALF_OPEN epoch is still the same.
  lemma AttemptActs(cfg: Config, s: System, a: Attempt) returns (t: System)
    requires cfg.Valid() && Accounted(cfg, s) && AtRest(s)
    ensures Reaches(cfg, s, Actions(cfg, s, a), t)
    ensures Accounted(cfg, t) && t.m == Tried(cfg, s.m, a) && AtRest(t)
    ensures t.m.state.HalfOpen? ==>
              t.dropped == (if s.m.state.HalfOpen? then s.dropped else 0)
                           + (if AdmitsAttempt(cfg, s.m, a) && a.ending.ClientLeaves? then 1 else 0)
  {
    var call := Call(a.now, a.stamp);
    var s1 := Act(cfg, s, call);
    AfterCall(cfg, s, a);
    if AdmitsAttempt(cfg, s.m, a) {
      t := AfterEnd(cfg, s1, a.ending, a.done);
      var end := if a.ending.ClientLeaves? then Drop(s1.epoch) else Report(s1.epoch, a.ending.Succeeds?, a.done);
      TwoActions(cfg, s, call, s1, end, t);
    } else {
      t := s1;
      assert [call][1..] == [] && [call] + [] == [call];
    }
  }

  lemma TwoActions(cfg: Config, s: System, a: Action, s1: System, b: Action, t: System)
    requires Enabled(s, a) && s1 == Act(cfg, s, a) && Enabled(s1, b) && t == Act(cfg, s1, b)
    ensures Reaches(cfg, s, [a] + [b], t)
  {
    assert ([a] + [b])[1..] == [b] && [b][1..] == [];
    assert Reaches(cfg, s1, [b], t);
  }

  lemma {:induction false} SequentialSystem(cfg: Config, created: int, attempts: seq<Attempt>) returns (s: System)
    requires cfg.Valid()
    ensures Accounted(cfg, s) && s.m == TriedAll(cfg, Fresh(created), attempts) && AtRest(s)
    ensures s.m.state.HalfOpen? ==> s.dropped == DroppedInEpoch(cfg, Fresh(created), attempts)
    decreases |attempts|
  {
    if attempts == [] {
      s := Start(created);
    } else {
      var before, a := attempts[..|attempts| - 1], attempts[|attempts| - 1];
      var was := SequentialSystem(cfg, created, before);
      assert attempts == before + [a];
      TriedAppend(cfg, Fresh(created), before, [a]);
      assert TriedAll(cfg, was.m, [a]) == Tried(cfg, was.m, a) by { assert [a][1..] == []; }
      s := AttemptActs(cfg, was, a);
    }
  }

  // For requests served one after the other, the slots held in HALF_OPEN are exactly the attempts of this
  // epoch whose client left; so the next request is admitted unless the breaker is cooling down or such
  // attempts hold every slot.
  lemma SequentialSlots(cfg: Config, created: int, attempts: seq<Attempt>, next: Attempt)
    requires cfg.Valid()
    ensures var m := TriedAll(cfg, Fresh(created), attempts);
            var left := DroppedInEpoch(cfg, Fresh(created), attempts);
            && (m.state.HalfOpen? ==> m.halfOpenInFlight == left <= cfg.halfOpenMaxProbes)
            && (AdmitsAttempt(cfg, m, next) <==>
                 match m.state
                 case Closed => true
                 case Open => CooledDown(cfg, m, next.now)
                 case HalfOpen => left < cfg.halfOpenMaxProbes)
  {
    var s := SequentialSystem(cfg, created, attempts);
  }

  // No request is ever admitted again, whatever is tried and whenever.
  ghost predicate Stuck(cfg: Config, m: Machine) {
    forall later: seq<Attempt>, a: Attempt :: !AdmitsAttempt(cfg, TriedAll(cfg, m, later), a)
  }

  // Among attempts made one after the other, none of them out any more: once departures hold every slot the
  // breaker refuses every later attempt, at any time. In every other case some later attempt is admitted.
  lemma StuckExactly(cfg: Config, created: int, attempts: seq<Attempt>)
    requires cfg.Valid()
    ensures Stuck(cfg, TriedAll(cfg, Fresh(created), attempts)) <==>
            TriedAll(cfg, Fresh(created), attempts).state.HalfOpen?
            && DroppedInEpoch(cfg, Fresh(created), attempts) == cfg.halfOpenMaxProbes
  {
    var m := TriedAll(cfg, Fresh(created), attempts);
    var s := SequentialSystem(cfg, created, attempts);
    if m.state.HalfOpen? && s.dropped == cfg.halfOpenMaxProbes {
      forall later: seq<Attempt>, a: Attempt ensures !AdmitsAttempt(cfg, TriedAll(cfg, m, later), a) {
        FullStaysFull(cfg, m, later);
      }
    } else {
      var t := m.lastTransition + cfg.resetTimeout;
      assert AdmitsAttempt(cfg, TriedAll(cfg, m, []), Attempt(t, t, Succeeds, t));
    }
  }

  // Every configuration can get stuck: enough failures, a cooldown, and as many departures as there are slots.
  lemma StuckIsReached(cfg: Config, created: int) returns (attempts: seq<Attempt>)
    requires cfg.Valid()
    ensures Stuck(cfg, TriedAll(cfg, Fresh(created), attempts))
  {
    var t := created + cfg.resetTimeout;
    var failures, departures := Failures(cfg.failureThreshold, created), Departures(cfg.halfOpenMaxProbes, t);
    var m := Fresh(created);
    FailuresTrip(cfg, m, cfg.failureThreshold, created);
    DeparturesFill(cfg, MovedTo(Open, created), cfg.halfOpenMaxProbes, t);
    TriedAppend(cfg, m, failures, departures);
    attempts := failures + departures;
    var full := TriedAll(cfg, m, attempts);
    forall later: seq<Attempt>, a: Attempt ensures !AdmitsAttempt(cfg, TriedAll(cfg, full, later), a) {
      FullStaysFull(cfg, full, later);
    }
  }

  function Failures(n: nat, t: int): seq<Attempt> {
    if n == 0 then [] else [Attempt(t, t, Fails, t)] + Failures(n - 1, t)
  }

  function Departures(n: nat, t: int): seq<Attempt> {
    if n == 0 then [] else [Attempt(t, t, ClientLeaves, t)] + Departures(n - 1, t)
  }

  lemma {:induction false} FailuresTrip(cfg: Config, m: Machine, n: nat, t: int)
    requires cfg.Valid() && m.state.Closed? && 0 < n && m.consecutiveFails + n == cfg.failureThreshold
    ensures TriedAll(cfg, m, Failures(n, t)) == MovedTo(Open, t)
    decreases n
  {
    var todo := Failures(n, t);
    assert todo[0] == Attempt(t, t, Fails, t) && todo[1..] == Failures(n - 1, t);
    var m' := Tried(cfg, m, todo[0]);
    if n == 1 {
      assert todo[1..] == [] && m' == MovedTo(Open, t);
    } else {
      FailuresTrip(cfg, m', n - 1, t);
    }
  }

  // Departures of a breaker past its cooldown, or HALF_OPEN already, each hold one more slot.
  lemma {:induction false} DeparturesFill(cfg: Config, m: Machine, n: nat, t: int)
    requires cfg.Valid() && 0 < n && Probed(cfg, m, t, t).state.HalfOpen?
    requires 0 <= Probed(cfg, m, t, t).halfOpenInFlight
              && Probed(cfg, m, t, t).halfOpenInFlight + n == cfg.halfOpenMaxProbes
    ensures var full := TriedAll(cfg, m, Departures(n, t));
            full.state.HalfOpen? && full.halfOpenInFlight == cfg.halfOpenMaxProbes
    decreases n
  {
    var todo := Departures(n, t);
    assert todo[0] == Attempt(t, t, ClientLeaves, t) && todo[1..] == Departures(n - 1, t);
    if n == 1 {
      assert todo[1..] == [];
    } else {
      DeparturesFill(cfg, Tried(cfg, m, todo[0]), n - 1, t);
    }
  }

  lemma {:induction false} FullStaysFull(cfg: Config, m: Machine, later: seq<Attempt>)
    requires cfg.Valid() && m.state.HalfOpen? && m.halfOpenInFlight == cfg.halfOpenMaxProbes
    ensures TriedAll(cfg, m, later) == m
    decreases later
  {
    if later != [] { FullStaysFull(cfg, m, later[1..]); }
  }
}
