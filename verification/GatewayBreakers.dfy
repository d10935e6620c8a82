// The breakers over whole runs of the gateway, requests served one after the other.
module GatewayBreakers {
  import opened Domain
  import opened CircuitBreaker
  import opened ProbeSlots
  import opened Registries
  import opened Failover
  import opened GatewayService
  import opened GatewayRuns

  // The request gets as far as the providers.
  ghost predicate Routes(s: Setup, st: State, req: Request, w: World)
    requires s.Valid()
  {
    && req.messages != [] && w.permitted && !(req.team != "" && s.wiring.budget && w.budget.Over?)
    && !(LookedUp(s, st, req, w).Best? && LookedUp(s, st, req, w).similarity >= s.threshold)
    && TurnsOf(s, req, w) != []
  }

  // The visits one request makes to the breakers.
  ghost function VisitsOf(s: Setup, st: State, req: Request, w: World): seq<Visit>
    requires s.Valid()
  {
    if !Routes(s, st, req, w) then []
    else Route(s.breaker, w.refuses, Captures(s, w), st.view, NEW_WIRE, TurnsOf(s, req, w)).visits
  }

  ghost function RunVisits(s: Setup, ops: seq<Op>): seq<Visit>
    requires s.Valid()
  {
    if ops == [] then []
    else
      var before, op := ops[..|ops| - 1], ops[|ops| - 1];
      RunVisits(s, before) + if op.Chat? then VisitsOf(s, StateAfter(s, before), op.req, op.w) else []
  }

  // A request's breakers change only by its visits. At most its last visit ends with the client leaving, and then
  // the request aborts, naming that provider; a request that completes or fails otherwise leaves no slot held.
  lemma RequestVisits(s: Setup, st: State, req: Request, w: World)
    requires s.Valid()
    ensures var h, visits := Handle(s, st, req, w, NEW_WIRE), VisitsOf(s, st, req, w);
            && h.state.view == VisitedAll(s.breaker, st.view, visits)
            && (forall i :: 0 <= i < |visits| && ClientLeft(visits[i]) ==>
                 i == |visits| - 1 && h.reply == SinkGone(visits[i].kind))
            && (h.reply.SinkGone? && Routes(s, st, req, w) ==> visits != [] && ClientLeft(visits[|visits| - 1]))
  {
    if Routes(s, st, req, w) {
      var turns := TurnsOf(s, req, w);
      var r := Route(s.breaker, w.refuses, Captures(s, w), st.view, NEW_WIRE, turns);
      RouteVisits(s.breaker, w.refuses, Captures(s, w), st.view, NEW_WIRE, turns);
      RoutedReply(s, st, req, w);
    } else {
      UnroutedReply(s, st, req, w);
    }
  }

  lemma RoutedReply(s: Setup, st: State, req: Request, w: World)
    requires s.Valid() && Routes(s, st, req, w)
    ensures var h := Handle(s, st, req, w, NEW_WIRE);
            var r := Route(s.breaker, w.refuses, Captures(s, w), st.view, NEW_WIRE, TurnsOf(s, req, w));
            h.state.view == r.view && (h.reply.SinkGone? <==> r.outcome.ClientGone?)
            && (h.reply.SinkGone? ==> h.reply.kind == r.outcome.kind)
            && h.wire == r.wire && (h.reply.Completed? <==> r.outcome.Served?) && !h.reply.Replayed?
  {}

  lemma UnroutedReply(s: Setup, st: State, req: Request, w: World)
    requires s.Valid() && !Routes(s, st, req, w)
    ensures Handle(s, st, req, w, NEW_WIRE).state.view == st.view
  {}

  // A request is aborted exactly if its client refuses a token, and then it got all those before; a request that is
  // completed or replayed had all its frames accepted, and of one that failed at most the error frame was refused.
  lemma AbortsWhenRefused(s: Setup, st: State, req: Request, w: World)
    requires s.Valid()
    ensures var h := Handle(s, st, req, w, NEW_WIRE);
            && (h.reply.SinkGone? ==>
                 h.wire.calls == |h.wire.got| + 1 && w.refuses(|h.wire.got|) && forall d <- h.wire.got :: !d.done)
            && (h.reply.Completed? || h.reply.Replayed? ==> h.wire.calls == |h.wire.got|)
            && (h.reply.AllProvidersFailed? ==> h.wire.calls <= |h.wire.got| + 1)
  {
    if Routes(s, st, req, w) {
      var c, arrived := NoSplicedAnswer(s.breaker, w.refuses, Captures(s, w), st.view, NEW_WIRE, TurnsOf(s, req, w));
      RoutedReply(s, st, req, w);
    }
  }

  lemma {:induction false} VisitedAppend(cfg: Config, view: View, a: seq<Visit>, b: seq<Visit>)
    ensures VisitedAll(cfg, view, a + b) == VisitedAll(cfg, VisitedAll(cfg, view, a), b)
    decreases a
  {
    if a == [] {
      assert a + b == b;
    } else {
      assert (a + b)[0] == a[0] && (a + b)[1..] == a[1..] + b;
      VisitedAppend(cfg, Visited(cfg, view, a[0]), a[1..], b);
    }
  }

  lemma {:induction false} ViewIsRunVisits(s: Setup, ops: seq<Op>)
    requires s.Valid()
    ensures StateAfter(s, ops).view == VisitedAll(s.breaker, map[], RunVisits(s, ops))
    decreases |ops|
  {
    if ops != [] {
      var before, op := ops[..|ops| - 1], ops[|ops| - 1];
      ViewIsRunVisits(s, before);
      if op.Chat? {
        var st := StateAfter(s, before);
        RequestVisits(s, st, op.req, op.w);
        VisitedAppend(s.breaker, map[], RunVisits(s, before), VisitsOf(s, st, op.req, op.w));
      } else {
        assert RunVisits(s, before) + [] == RunVisits(s, before);
      }
    }
  }

  // The attempts of a run on one provider whose clients left, in the epoch its breaker is in.
  ghost function LeftInEpoch(s: Setup, ops: seq<Op>, kind: ProviderKind): nat
    requires s.Valid()
  {
    var visits := RunVisits(s, ops);
    DroppedInEpoch(s.breaker, Fresh(FirstSeen(kind, visits)), AttemptsOn(kind, visits))
  }

  // After any run, a provider's reserved half-open slots are exactly the requests of this epoch whose client left
  // while it streamed. So a provider past its cooldown is admitted next unless such requests hold every slot,
  // and it is locked out for ever exactly when they do.
  lemma SlotsLeftByAborts(s: Setup, ops: seq<Op>, kind: ProviderKind, next: Attempt)
    requires s.Valid() && kind in StateAfter(s, ops).view
    ensures var m, left := StateAfter(s, ops).view[kind], LeftInEpoch(s, ops, kind);
            && (m.state.HalfOpen? ==> m.halfOpenInFlight == left <= s.breaker.halfOpenMaxProbes)
            && (AdmitsAttempt(s.breaker, m, next) <==>
                 match m.state
                 case Closed => true
                 case Open => CooledDown(s.breaker, m, next.now)
                 case HalfOpen => left < s.breaker.halfOpenMaxProbes)
            && (Stuck(s.breaker, m) <==> m.state.HalfOpen? && left == s.breaker.halfOpenMaxProbes)
  {
    var visits := RunVisits(s, ops);
    ViewIsRunVisits(s, ops);
    BreakersAreIndependent(s.breaker, map[], visits, kind);
    SequentialSlots(s.breaker, FirstSeen(kind, visits), AttemptsOn(kind, visits), next);
    StuckExactly(s.breaker, FirstSeen(kind, visits), AttemptsOn(kind, visits));
  }

  // ------------------------------------------------------------- a run that locks a provider out

  const TOKEN := Text("t")
  const END := Delta("", true, NO_USAGE, Stop)

  // A request that uses a provider as an attempt says.
  function RequestOf(kind: ProviderKind, created: int, a: Attempt): Op {
    var frames := if a.ending.ClientLeaves? then [TOKEN] else [END];
    var turn := Turn(kind, !a.ending.Fails?, frames, created, a.now, a.stamp, a.done);
    Chat(PinnedTo("", kind), Only(turn, _ => a.ending.ClientLeaves?))
  }

  function RequestsOf(kind: ProviderKind, created: int, attempts: seq<Attempt>): seq<Op> {
    if attempts == [] then []
    else
      var n := |attempts| - 1;
      RequestsOf(kind, created, attempts[..n]) + [RequestOf(kind, created, attempts[n])]
  }

  lemma RequestTries(s: Setup, st: State, kind: ProviderKind, created: int, a: Attempt)
    requires s.Valid() && kind != Unspecified && Registered(s, kind)
    ensures Reacts(s, st, RequestOf(kind, created, a)).view
         == st.view[kind := Tried(s.breaker, MachineOf(st.view, kind, created), a)]
  {
    var op := RequestOf(kind, created, a);
    var turn := op.w.turns(0);
    PinnedView(s, st, "", kind, turn, op.w.refuses);
    CalledEndsAs(op.w.refuses, s.wiring.includeText, turn, a.ending);
    assert VisitOf(s.breaker, op.w.refuses, s.wiring.includeText, st.view, NEW_WIRE, turn).attempt == a;
  }

  lemma CalledEndsAs(refuses: nat -> bool, capture: bool, turn: Turn, ending: Ending)
    requires turn.starts == !ending.Fails? && refuses(0) == ending.ClientLeaves?
    requires turn.frames == if ending.ClientLeaves? then [TOKEN] else [END]
    ensures EndingOf(Called(refuses, capture, NEW_WIRE, turn).1) == ending
  {}

  lemma OneMoreOp(s: Setup, ops: seq<Op>, op: Op)
    requires s.Valid()
    ensures StateAfter(s, ops + [op]) == Reacts(s, StateAfter(s, ops), op)
  {
    assert (ops + [op])[..|ops|] == ops;
  }

  lemma TriedLast(cfg: Config, m: Machine, attempts: seq<Attempt>)
    requires attempts != []
    ensures var n := |attempts| - 1;
            TriedAll(cfg, m, attempts) == Tried(cfg, TriedAll(cfg, m, attempts[..n]), attempts[n])
  {
    var n := |attempts| - 1;
    assert attempts == attempts[..n] + [attempts[n]] && [attempts[n]][1..] == [];
    TriedAppend(cfg, m, attempts[..n], [attempts[n]]);
  }

  // Every sequence of attempts on a provider is what some run of requests makes of it.
  lemma {:induction false} EveryAttemptIsARequest(s: Setup, kind: ProviderKind, created: int, attempts: seq<Attempt>)
    requires s.Valid() && kind != Unspecified && Registered(s, kind)
    ensures var view := StateAfter(s, RequestsOf(kind, created, attempts)).view;
            && MachineOf(view, kind, created) == TriedAll(s.breaker, Fresh(created), attempts)
            && (attempts != [] ==> kind in view)
    decreases |attempts|
  {
    if attempts != [] {
      var before, a := attempts[..|attempts| - 1], attempts[|attempts| - 1];
      var ops := RequestsOf(kind, created, before);
      EveryAttemptIsARequest(s, kind, created, before);
      RequestTries(s, StateAfter(s, ops), kind, created, a);
      OneMoreOp(s, ops, RequestOf(kind, created, a));
      TriedLast(s.breaker, Fresh(created), attempts);
    }
  }

  // Whatever the gateway's setup, some run of requests locks a registered provider out for ever.
  lemma LockoutIsReached(s: Setup, kind: ProviderKind) returns (ops: seq<Op>)
    requires s.Valid() && kind != Unspecified && Registered(s, kind)
    ensures kind in StateAfter(s, ops).view && Stuck(s.breaker, StateAfter(s, ops).view[kind])
  {
    var attempts := StuckIsReached(s.breaker, 0);
    ops := RequestsOf(kind, 0, attempts);
    EveryAttemptIsARequest(s, kind, 0, attempts);
    StuckExactly(s.breaker, 0, attempts);
  }
}
