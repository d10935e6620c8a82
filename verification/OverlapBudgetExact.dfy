// Every run of the budget gate is made by some requests that overlap.
module OverlapBudgetExact {
  import opened Domain
  import opened CircuitBreaker
  import opened Failover
  import opened TokenBudget
  import opened BudgetGate
  import opened GatewayService
  import opened GatewayRuns
  import opened GatewayOverlap
  import opened OverlapBudget

  // The ends of a run, in order.
  function EndsOf(moves: seq<Move>): seq<Move> {
    if moves == [] then [] else (if Ends(moves[0]) then [moves[0]] else []) + EndsOf(moves[1..])
  }

  predicate Starts(mv: Move) { mv.Check? || mv.Unanswered? }

  // How the requests that make a run's checks will end: those let through end in the order in which they came.
  function Plan(l: Limits, g: Gate, moves: seq<Move>): seq<Move>
    requires l.Capped()
    decreases moves
  {
    if moves == [] then []
    else
      var g', ends := Moved(l, g, moves[0]), EndsOf(moves);
      var rest := Plan(l, g', moves[1..]);
      if !Starts(moves[0]) then rest
      else [if g'.inFlight > g.inFlight && g.inFlight < |ends| then ends[g.inFlight] else Quit] + rest
  }

  predicate Fits(b: Move) { b.Finish? || b.Lost? ==> 0 < b.tokens <= MAX_INT32 }

  function TokensOf(end: Move): int32
    requires Ends(end) && Fits(end)
  {
    if end.Quit? then 0 else end.tokens
  }

  predicate Healthy(view: View, kind: ProviderKind) { kind in view ==> view[kind].state.Closed? }

  // The provider answers with its terminal frame, which reports `tokens` of them.
  function Spending(kind: ProviderKind, tokens: int32): Turn {
    Turn(kind, true, [Delta("", true, TokenUsage(tokens, 0, 0, 0), Stop)], 0, 0, 0, 0)
  }

  function Costing(kind: ProviderKind, tokens: int32, lost: bool): World {
    Only(Spending(kind, tokens), (i: nat) => false).(deductFails := lost)
  }

  // A request that will end so.
  function CallOf(team: string, kind: ProviderKind, end: Move): (Request, World)
    requires Ends(end) && Fits(end)
  {
    (PinnedTo(team, kind), Costing(kind, TokensOf(end), end.Lost?))
  }

  // ---------------------------------------------------------------- one request, up to its deduction

  // The request has its answer, and its next step ends it so.
  predicate Ready(f: Flight, team: string, end: Move)
    requires Ends(end) && Fits(end)
  {
    && f.req.team == team && f.phase.Writing? && f.phase.next.Deducting?
    && f.phase.completion.usage.totalTokens == TokensOf(end) && f.w.deductFails == end.Lost?
  }

  lemma ReadySettles(f: Flight, team: string, end: Move, now: real)
    requires Ends(end) && Fits(end) && Ready(f, team, end)
    ensures Settling(f, team, now) == (if end.Finish? then Finish(now, end.tokens) else end)
    ensures Unsettled(f, team) && Serving(f, team) == TokensOf(end)
  {}

  // A request let through finds nothing cached and tries its provider.
  lemma AdmittedTries(s: Setup, st: State, team: string, kind: ProviderKind, w: World, tokens: int32)
    requires s.Valid() && kind != Unspecified && Registered(s, kind)
    requires w.turns(0) == Spending(kind, tokens) && w.embedding.EmbedError?
    ensures Found(s, st, PinnedTo(team, kind), w) == Trying([Spending(kind, tokens)], NEW_WIRE)
  {
    PinnedTurns(s, team, kind, w);
  }

  // A healthy provider admits it.
  lemma HealthyAdmits(s: Setup, st: State, f: Flight, kind: ProviderKind, tokens: int32)
    requires s.Valid() && Healthy(st.view, kind) && f.phase == Trying([Spending(kind, tokens)], NEW_WIRE)
    ensures var (st', f') := Advanced(s, st, f);
            f' == f.(phase := Calling(Spending(kind, tokens), [], NEW_WIRE)) && Healthy(st'.view, kind)
  {
    assert [Spending(kind, tokens)][1..] == [];
  }

  // Its stream leads to its deduction.
  lemma SpendingReturns(s: Setup, st: State, f: Flight, team: string, kind: ProviderKind, end: Move)
    requires s.Valid() && Healthy(st.view, kind) && Ends(end) && Fits(end)
    requires f.phase == Calling(Spending(kind, TokensOf(end)), [], NEW_WIRE)
    requires f.req.team == team && f.w.deductFails == end.Lost?
    ensures var (st', f') := Advanced(s, st, f); Ready(f', team, end) && Healthy(st'.view, kind)
  {
    var turn, r := Spending(kind, TokensOf(end)), Clean(UsageOf(end), Stop);
    SpendingStreams(f.w.refuses, Captures(s, f.w), kind, TokensOf(end));
    CallReturns(s, st, f, turn, NEW_WIRE, r);
    ToldIsHealthy(s.breaker, st.view, turn, r);
    ReturnedIsReady(s, f, turn, UsageOf(end), team, end);
  }

  lemma ReturnedIsReady(s: Setup, f: Flight, turn: Turn, usage: TokenUsage, team: string, end: Move)
    requires Ends(end) && Fits(end) && f.req.team == team && f.w.deductFails == end.Lost?
    requires usage.promptTokens == TokensOf(end) && usage.completionTokens == 0
    ensures Ready(f.(phase := Returned(s, f.w, turn, [], NEW_WIRE, Clean(usage, Stop))), team, end)
  {
    PricedTotal(turn.kind, usage);
  }

  lemma CallReturns(s: Setup, st: State, f: Flight, turn: Turn, wire: Wire, r: StreamResult)
    requires s.Valid() && f.phase == Calling(turn, [], NEW_WIRE)
    requires Called(f.w.refuses, Captures(s, f.w), NEW_WIRE, turn) == (wire, r)
    ensures Advanced(s, st, f)
         == (st.(view := Told(s.breaker, st.view, turn, r)), f.(phase := Returned(s, f.w, turn, [], wire, r)))
  {}

  function UsageOf(end: Move): TokenUsage
    requires Ends(end) && Fits(end)
  {
    TokenUsage(TokensOf(end), 0, 0, 0)
  }

  lemma SpendingStreams(refuses: nat -> bool, capture: bool, kind: ProviderKind, tokens: int32)
    ensures Called(refuses, capture, NEW_WIRE, Spending(kind, tokens))
         == (NEW_WIRE, Clean(TokenUsage(tokens, 0, 0, 0), Stop))
  {}

  lemma ToldIsHealthy(cfg: Config, view: View, turn: Turn, r: StreamResult)
    requires Healthy(view, turn.kind) && r.Clean?
    ensures Healthy(Told(cfg, view, turn, r), turn.kind)
  {}

  lemma PricedTotal(kind: ProviderKind, usage: TokenUsage)
    ensures Priced(kind, usage).totalTokens == Add32(usage.promptTokens, usage.completionTokens)
  {}

  // ---------------------------------------------------------------- beats that make moves

  // The beats come in order, from `from`, the last of them at `to`.
  predicate Lapses(beats: seq<Beat>, from: real, to: real)
    decreases beats
  {
    if beats == [] then from == to else from <= beats[0].now && Lapses(beats[1..], beats[0].now, to)
  }

  ghost predicate Realizes(s: Setup, l: Limits, v: Vault, beats: seq<Beat>, v': Vault, moves: seq<Move>,
                           team: string, k: nat, m: nat)
    requires s.Valid() && l.Capped()
  {
    && VaultAfter(s, l, v, beats) == v' && VaultMoves(s, l, v, beats, team) == moves
    && Calm(s, l, v, beats, team, k, m)
  }

  lemma {:induction false} RealizesOn(
      s: Setup, l: Limits, v: Vault, a: seq<Beat>, v1: Vault, ma: seq<Move>, b: seq<Beat>, v2: Vault, mb: seq<Move>,
      team: string, k: nat, m: nat)
    requires s.Valid() && l.Capped()
    requires Realizes(s, l, v, a, v1, ma, team, k, m) && Realizes(s, l, v1, b, v2, mb, team, k, m)
    ensures Realizes(s, l, v, a + b, v2, ma + mb, team, k, m)
    decreases a
  {
    if a == [] {
      assert a + b == b && ma + mb == mb;
    } else {
      var v', rest := Beaten(s, l, v, a[0]), VaultMoves(s, l, Beaten(s, l, v, a[0]), a[1..], team);
      assert (a + b)[0] == a[0] && (a + b)[1..] == a[1..] + b;
      RealizesOn(s, l, v', a[1..], v1, rest, b, v2, mb, team, k, m);
      assert BeatMoves(s, l, v, a[0], team) + (rest + mb) == ma + mb;
    }
  }

  lemma RealizesOne(s: Setup, l: Limits, v: Vault, b: Beat, v': Vault, team: string, k: nat, m: nat)
    requires s.Valid() && l.Capped() && v' == Beaten(s, l, v, b) && BeatServes(v, b, team) <= m
    requires Crowd(v.hall.flights, team) <= k && Crowd(v'.hall.flights, team) <= k
    ensures Realizes(s, l, v, [b], v', BeatMoves(s, l, v, b, team), team, k, m)
  {
    assert [b][1..] == [];
    assert VaultAfter(s, l, v', []) == v' && Calm(s, l, v', [], team, k, m);
  }

  lemma {:induction false} LapsesJoin(a: seq<Beat>, b: seq<Beat>, from: real, mid: real, to: real)
    requires Lapses(a, from, mid) && Lapses(b, mid, to)
    ensures Lapses(a + b, from, to)
    decreases a
  {
    if a == [] {
      assert a + b == b;
    } else {
      assert (a + b)[0] == a[0] && (a + b)[1..] == a[1..] + b;
      LapsesJoin(a[1..], b, a[0].now, mid, to);
    }
  }

  lemma {:induction false} LapsesIsInTime(beats: seq<Beat>, from: real, to: real, end: real)
    requires Lapses(beats, from, to) && to <= end
    ensures InTime(beats, from, end)
  {
    if beats != [] { LapsesIsInTime(beats[1..], beats[0].now, to, end); }
  }

  // ---------------------------------------------------------------- what each kind of move takes

  // The vault after one move: one request changed, and the provider is healthy still.
  ghost predicate Turned(v: Vault, i: nat, v': Vault, kind: ProviderKind) {
    && i < |v.hall.flights| == |v'.hall.flights| && v'.hall.flights == v.hall.flights[i := v'.hall.flights[i]]
    && Healthy(v'.hall.state.view, kind)
  }

  // What one step of request i makes of the vault: a new request i, and the same for all others.
  lemma StepMakes(s: Setup, l: Limits, v: Vault, i: nat, b: Beat, team: string)
    requires s.Valid() && s.wiring.budget && l.Capped() && team != "" && i < |v.hall.flights|
    requires b.Beat? && b.tick == Moves(i)
    ensures var f, v' := Asking(l, v, v.hall.flights[i], b), Beaten(s, l, v, b);
            var (st, f') := Advanced(s, v.hall.state, f);
            && v'.hall == Hall(st, v.hall.flights[i := f'])
            && BeatMoves(s, l, v, b, team) == StepMoves(s, f, f', team, b)
            && Crowd(v'.hall.flights, team) + (if Unsettled(f, team) then 1 else 0)
               == Crowd(v.hall.flights, team) + (if Unsettled(f', team) then 1 else 0)
            && BeatServes(v, b, team) == Serving(f, team)
  {
    SteppingFlights(s, l, v, i, b, team);
  }

  lemma TriesIsCalled(s: Setup, l: Limits, v: Vault, i: nat, b: Beat, team: string, kind: ProviderKind, tokens: int32)
    requires s.Valid() && s.wiring.budget && l.Capped() && team != "" && i < |v.hall.flights|
    requires b.Beat? && b.tick == Moves(i) && Healthy(v.hall.state.view, kind)
    requires v.hall.flights[i].phase == Trying([Spending(kind, tokens)], NEW_WIRE) && v.hall.flights[i].req.team == team
    ensures var v', f := Beaten(s, l, v, b), v.hall.flights[i];
            && v'.hall.flights == v.hall.flights[i := f.(phase := Calling(Spending(kind, tokens), [], NEW_WIRE))]
            && Healthy(v'.hall.state.view, kind) && Bucket(v'.hashes, team) == Bucket(v.hashes, team)
            && Crowd(v'.hall.flights, team) == Crowd(v.hall.flights, team)
            && BeatMoves(s, l, v, b, team) == [] && BeatServes(v, b, team) == 0
  {
    StepMakes(s, l, v, i, b, team);
    SteppingBooks(s, l, v, i, b, team);
    HealthyAdmits(s, v.hall.state, v.hall.flights[i], kind, tokens);
  }

  lemma CalledIsReady(s: Setup, l: Limits, v: Vault, i: nat, b: Beat, team: string, kind: ProviderKind, end: Move)
    requires s.Valid() && s.wiring.budget && l.Capped() && team != "" && i < |v.hall.flights|
    requires b.Beat? && b.tick == Moves(i) && Healthy(v.hall.state.view, kind) && Ends(end) && Fits(end)
    requires v.hall.flights[i].phase == Calling(Spending(kind, TokensOf(end)), [], NEW_WIRE)
    requires v.hall.flights[i].req.team == team && v.hall.flights[i].w.deductFails == end.Lost?
    ensures var v' := Beaten(s, l, v, b);
            && Turned(v, i, v', kind) && Ready(v'.hall.flights[i], team, end)
            && Bucket(v'.hashes, team) == Bucket(v.hashes, team)
            && Crowd(v'.hall.flights, team) == Crowd(v.hall.flights, team)
            && BeatMoves(s, l, v, b, team) == [] && BeatServes(v, b, team) == 0
  {
    StepMakes(s, l, v, i, b, team);
    SteppingBooks(s, l, v, i, b, team);
    SpendingReturns(s, v.hall.state, v.hall.flights[i], team, kind, end);
  }

  // A request that arrives and is let through.
  lemma ArrivesAndEnters(
      s: Setup, l: Limits, v: Vault, i: nat, b: Beat, team: string, kind: ProviderKind, end: Move, start: Move)
    requires s.Valid() && s.wiring.budget && l.Capped() && team != "" && i < |v.hall.flights|
    requires Ends(end) && Fits(end) && Healthy(v.hall.state.view, kind)
    requires var call := CallOf(team, kind, end); v.hall.flights[i] == Flight(call.0, call.1, Arrived)
    requires start.Unanswered? || (start.Check? && Script(l, Bucket(v.hashes, team), start.now, 0).allowed)
    requires b.Beat? && b.tick == Moves(i) && b.unanswered == start.Unanswered? && (start.Check? ==> b.now == start.now)
    ensures var v' := Beaten(s, l, v, b);
            && Turned(v, i, v', kind) && Enters(v'.hall.flights[i], team, kind, end)
            && Bucket(v'.hashes, team) == Moved(l, Gate(Bucket(v.hashes, team), 0), start).stored
            && Crowd(v'.hall.flights, team) == Crowd(v.hall.flights, team) + 1
            && BeatMoves(s, l, v, b, team) == [start] && BeatServes(v, b, team) == 0
  {
    StepMakes(s, l, v, i, b, team);
    SteppingBooks(s, l, v, i, b, team);
  }

  // The request is through the gates.
  predicate Enters(f: Flight, team: string, kind: ProviderKind, end: Move)
    requires Ends(end) && Fits(end)
  {
    && f.phase.Admitted? && f.req == PinnedTo(team, kind) && f.w.deductFails == end.Lost?
    && f.w.turns(0) == Spending(kind, TokensOf(end)) && f.w.embedding.EmbedError?
  }

  lemma EntersAndTries(s: Setup, l: Limits, v: Vault, i: nat, b: Beat, team: string, kind: ProviderKind, end: Move)
    requires s.Valid() && s.wiring.budget && l.Capped() && team != "" && i < |v.hall.flights|
    requires kind != Unspecified && Registered(s, kind) && Ends(end) && Fits(end) && Healthy(v.hall.state.view, kind)
    requires b.Beat? && b.tick == Moves(i) && Enters(v.hall.flights[i], team, kind, end)
    ensures var v', f := Beaten(s, l, v, b), v.hall.flights[i];
            && Turned(v, i, v', kind)
            && v'.hall.flights[i] == f.(phase := Trying([Spending(kind, TokensOf(end))], NEW_WIRE))
            && Bucket(v'.hashes, team) == Bucket(v.hashes, team)
            && Crowd(v'.hall.flights, team) == Crowd(v.hall.flights, team)
            && BeatMoves(s, l, v, b, team) == [] && BeatServes(v, b, team) == 0
  {
    StepMakes(s, l, v, i, b, team);
    SteppingBooks(s, l, v, i, b, team);
    AdmittedTries(s, v.hall.state, team, kind, v.hall.flights[i].w, TokensOf(end));
  }

  lemma LapseOne(b: Beat, from: real)
    requires from <= b.now
    ensures Lapses([b], from, b.now)
  {
    assert [b][1..] == [];
  }

  lemma AllAtNow(b: Beat, b': Beat, from: real, now: real)
    requires from <= b.now == b'.now == now
    ensures Lapses([b] + ([b'] + ([b'] + [b'])), from, now)
  {
    LapseOne(b, from);
    LapseOne(b', now);
    LapsesJoin([b'], [b'], now, now, now);
    LapsesJoin([b'], [b'] + [b'], now, now, now);
    LapsesJoin([b], [b'] + ([b'] + [b']), from, now, now);
  }

  lemma TurnedTwice(v: Vault, i: nat, v1: Vault, v': Vault, kind: ProviderKind)
    requires Turned(v, i, v1, kind) && Turned(v1, i, v', kind)
    ensures Turned(v, i, v', kind)
  {
    assert v.hall.flights[i := v1.hall.flights[i]][i := v'.hall.flights[i]] == v.hall.flights[i := v'.hall.flights[i]];
  }

  // Two steps bring a request that tries its provider to its deduction.
  lemma TriesToReady(s: Setup, l: Limits, v: Vault, i: nat, b: Beat, team: string, kind: ProviderKind, end: Move,
                     k: nat, m: nat)
    returns (v': Vault)
    requires s.Valid() && s.wiring.budget && l.Capped() && team != "" && i < |v.hall.flights|
    requires b.Beat? && b.tick == Moves(i) && Healthy(v.hall.state.view, kind) && Ends(end) && Fits(end)
    requires v.hall.flights[i].phase == Trying([Spending(kind, TokensOf(end))], NEW_WIRE)
    requires v.hall.flights[i].req.team == team && v.hall.flights[i].w.deductFails == end.Lost?
    requires Crowd(v.hall.flights, team) <= k
    ensures Realizes(s, l, v, [b] + [b], v', [], team, k, m)
    ensures Turned(v, i, v', kind) && Ready(v'.hall.flights[i], team, end)
    ensures Bucket(v'.hashes, team) == Bucket(v.hashes, team)
    ensures Crowd(v'.hall.flights, team) == Crowd(v.hall.flights, team)
  {
    var v1 := Beaten(s, l, v, b);
    TriesIsCalled(s, l, v, i, b, team, kind, TokensOf(end));
    RealizesOne(s, l, v, b, v1, team, k, m);
    v' := Beaten(s, l, v1, b);
    CalledIsReady(s, l, v1, i, b, team, kind, end);
    RealizesOne(s, l, v1, b, v', team, k, m);
    NoMovesAdd(s, l, v, [b], v1, [b], v', team, k, m);
    TurnedTwice(v, i, v1, v', kind);
  }

  lemma NoMovesAdd(s: Setup, l: Limits, v: Vault, a: seq<Beat>, v1: Vault, b: seq<Beat>, v': Vault,
                   team: string, k: nat, m: nat)
    requires s.Valid() && l.Capped()
    requires Realizes(s, l, v, a, v1, [], team, k, m) && Realizes(s, l, v1, b, v', [], team, k, m)
    ensures Realizes(s, l, v, a + b, v', [], team, k, m)
  {
    RealizesOn(s, l, v, a, v1, [], b, v', [], team, k, m);
    var none: seq<Move> := [];
    assert none + none == none;
  }

  // Three steps bring a request that is admitted to its deduction.
  lemma EntersToReady(s: Setup, l: Limits, v: Vault, i: nat, b: Beat, team: string, kind: ProviderKind, end: Move,
                      k: nat, m: nat)
    returns (v': Vault)
    requires s.Valid() && s.wiring.budget && l.Capped() && team != "" && i < |v.hall.flights|
    requires kind != Unspecified && Registered(s, kind) && Ends(end) && Fits(end) && Healthy(v.hall.state.view, kind)
    requires b.Beat? && b.tick == Moves(i) && Enters(v.hall.flights[i], team, kind, end)
    requires Crowd(v.hall.flights, team) <= k
    ensures Realizes(s, l, v, [b] + ([b] + [b]), v', [], team, k, m)
    ensures Turned(v, i, v', kind) && Ready(v'.hall.flights[i], team, end)
    ensures Bucket(v'.hashes, team) == Bucket(v.hashes, team)
    ensures Crowd(v'.hall.flights, team) == Crowd(v.hall.flights, team)
  {
    var v1 := Beaten(s, l, v, b);
    EntersAndTries(s, l, v, i, b, team, kind, end);
    RealizesOne(s, l, v, b, v1, team, k, m);
    v' := TriesToReady(s, l, v1, i, b, team, kind, end, k, m);
    NoMovesAdd(s, l, v, [b], v1, [b] + [b], v', team, k, m);
    TurnedTwice(v, i, v1, v', kind);
  }

  // Four steps bring a request that is let through to its deduction.
  lemma LetIn(s: Setup, l: Limits, v: Vault, i: nat, team: string, kind: ProviderKind, end: Move, start: Move,
              from: real, k: nat, m: nat)
    returns (beats: seq<Beat>, v': Vault)
    requires s.Valid() && s.wiring.budget && l.Capped() && team != "" && i < |v.hall.flights|
    requires kind != Unspecified && Registered(s, kind) && Ends(end) && Fits(end) && Healthy(v.hall.state.view, kind)
    requires var call := CallOf(team, kind, end); v.hall.flights[i] == Flight(call.0, call.1, Arrived)
    requires start.Unanswered? || (start.Check? && Script(l, Bucket(v.hashes, team), start.now, 0).allowed)
    requires Crowd(v.hall.flights, team) + 1 <= k
    ensures Realizes(s, l, v, beats, v', [start], team, k, m)
    ensures from <= Time(start, from) ==> Lapses(beats, from, Time(start, from))
    ensures Turned(v, i, v', kind) && Ready(v'.hall.flights[i], team, end)
    ensures Bucket(v'.hashes, team) == Moved(l, Gate(Bucket(v.hashes, team), 0), start).stored
    ensures Crowd(v'.hall.flights, team) == Crowd(v.hall.flights, team) + 1
  {
    var now := Time(start, from);
    var b, b' := Beat(Moves(i), now, start.Unanswered?), Beat(Moves(i), now, false);
    var v1 := Beaten(s, l, v, b);
    ArrivesAndEnters(s, l, v, i, b, team, kind, end, start);
    RealizesOne(s, l, v, b, v1, team, k, m);
    v' := EntersToReady(s, l, v1, i, b', team, kind, end, k, m);
    beats := [b] + ([b'] + ([b'] + [b']));
    RealizesOn(s, l, v, [b], v1, [start], [b'] + ([b'] + [b']), v', [], team, k, m);
    assert [start] + [] == [start];
    if from <= now { AllAtNow(b, b', from, now); }
    TurnedTwice(v, i, v1, v', kind);
  }

  // A request that is refused.
  lemma Refuse(s: Setup, l: Limits, v: Vault, i: nat, team: string, kind: ProviderKind, end: Move, start: Move,
               from: real, k: nat, m: nat)
    returns (beats: seq<Beat>, v': Vault)
    requires s.Valid() && s.wiring.budget && l.Capped() && team != "" && i < |v.hall.flights|
    requires Ends(end) && Fits(end) && Healthy(v.hall.state.view, kind)
    requires var call := CallOf(team, kind, end); v.hall.flights[i] == Flight(call.0, call.1, Arrived)
    requires start.Check? && !Script(l, Bucket(v.hashes, team), start.now, 0).allowed
    requires Crowd(v.hall.flights, team) <= k
    ensures Realizes(s, l, v, beats, v', [start], team, k, m)
    ensures from <= start.now ==> Lapses(beats, from, start.now)
    ensures Turned(v, i, v', kind) && Bucket(v'.hashes, team) == Moved(l, Gate(Bucket(v.hashes, team), 0), start).stored
    ensures Crowd(v'.hall.flights, team) == Crowd(v.hall.flights, team)
  {
    var b := Beat(Moves(i), start.now, false);
    var f := Asking(l, v, v.hall.flights[i], b);
    v' := Beaten(s, l, v, b);
    StepMakes(s, l, v, i, b, team);
    SteppingBooks(s, l, v, i, b, team);
    assert Advanced(s, v.hall.state, f) == (v.hall.state, f.(phase := Done(BudgetExceeded, NEW_WIRE)));
    RealizesOne(s, l, v, b, v', team, k, m);
    beats := [b];
    if from <= b.now { LapseOne(b, from); }
  }

  lemma ReadyEnds(s: Setup, l: Limits, v: Vault, i: nat, b: Beat, team: string, kind: ProviderKind, end: Move)
    requires s.Valid() && s.wiring.budget && l.Capped() && team != "" && i < |v.hall.flights|
    requires Ends(end) && Fits(end) && Healthy(v.hall.state.view, kind) && Ready(v.hall.flights[i], team, end)
    requires b.Beat? && b.tick == Moves(i) && (end.Finish? ==> b.now == end.now)
    ensures var v' := Beaten(s, l, v, b);
            && Turned(v, i, v', kind) && Crowd(v'.hall.flights, team) + 1 == Crowd(v.hall.flights, team)
            && Bucket(v'.hashes, team) == Moved(l, Gate(Bucket(v.hashes, team), 1), end).stored
            && BeatMoves(s, l, v, b, team) == [end] && BeatServes(v, b, team) == TokensOf(end)
  {
    ReadySettles(v.hall.flights[i], team, end, b.now);
    StepMakes(s, l, v, i, b, team);
    UnsettledBooks(s, l, v, i, b, team);
    EndMoves(l, Gate(Bucket(v.hashes, team), 1), end);
    WritesMove(s, v.hall.state, v.hall.flights[i], team, end);
  }

  lemma WritesMove(s: Setup, st: State, f: Flight, team: string, end: Move)
    requires s.Valid() && Ends(end) && Fits(end) && Ready(f, team, end)
    ensures var (st', f') := Advanced(s, st, f); st'.view == st.view && !Unsettled(f', team)
  {}

  // A request that ends.
  lemma Settle(s: Setup, l: Limits, v: Vault, i: nat, team: string, kind: ProviderKind, end: Move,
               from: real, k: nat, m: nat)
    returns (beats: seq<Beat>, v': Vault)
    requires s.Valid() && s.wiring.budget && l.Capped() && team != "" && i < |v.hall.flights|
    requires Ends(end) && Fits(end) && Healthy(v.hall.state.view, kind) && Ready(v.hall.flights[i], team, end)
    requires Crowd(v.hall.flights, team) <= k && TokensOf(end) <= m
    ensures Realizes(s, l, v, beats, v', [end], team, k, m)
    ensures from <= Time(end, from) ==> Lapses(beats, from, Time(end, from))
    ensures Turned(v, i, v', kind)
    ensures Crowd(v'.hall.flights, team) + 1 == Crowd(v.hall.flights, team)
    ensures Bucket(v'.hashes, team) == Moved(l, Gate(Bucket(v.hashes, team), 1), end).stored
  {
    var b := Beat(Moves(i), Time(end, from), false);
    v' := Beaten(s, l, v, b);
    ReadyEnds(s, l, v, i, b, team, kind, end);
    RealizesOne(s, l, v, b, v', team, k, m);
    beats := [b];
    if from <= b.now { LapseOne(b, from); }
  }

  // A usage query.
  lemma Peek(s: Setup, l: Limits, v: Vault, team: string, start: Move, from: real, k: nat, m: nat)
    returns (beats: seq<Beat>, v': Vault)
    requires s.Valid() && l.Capped() && start.Look? && Crowd(v.hall.flights, team) <= k
    ensures Realizes(s, l, v, beats, v', [start], team, k, m)
    ensures from <= start.now ==> Lapses(beats, from, start.now)
    ensures v'.hall == v.hall && Bucket(v'.hashes, team) == Moved(l, Gate(Bucket(v.hashes, team), 0), start).stored
  {
    var b := Query(team, start.now);
    v' := Beaten(s, l, v, b);
    TouchedBuckets(l, v.hashes, team, team, start.now, 0);
    RealizesOne(s, l, v, b, v', team, k, m);
    beats := [b];
    if from <= b.now { LapseOne(b, from); }
  }

  // ---------------------------------------------------------------- whole runs

  // The requests that are let through and not ended, first come first; and those that have not arrived, from c on,
  // each as the rest of the run needs it.
  ghost predicate Prepared(
      l: Limits, v: Vault, c: nat, ready: seq<nat>, moves: seq<Move>, team: string, kind: ProviderKind)
    requires l.Capped()
  {
    var flights, ends := v.hall.flights, EndsOf(moves);
    && Healthy(v.hall.state.view, kind) && Crowd(flights, team) == |ready|
    && Queued(flights, c, ready, ends, team)
    && Waiting(flights, c, Plan(l, Gate(Bucket(v.hashes, team), |ready|), moves), team, kind)
  }

  // The requests in `ready` are different ones before c, and will end as `ends` says, as far as it goes.
  ghost predicate Queued(flights: seq<Flight>, c: nat, ready: seq<nat>, ends: seq<Move>, team: string) {
    && c <= |flights|
    && (forall j :: 0 <= j < |ready| ==> ready[j] < c)
    && (forall i, j :: 0 <= i < j < |ready| ==> ready[i] != ready[j])
    && (forall j :: 0 <= j < |ends| ==> Ends(ends[j]) && Fits(ends[j]))
    && (forall j :: 0 <= j < |ready| && j < |ends| ==> Ready(flights[ready[j]], team, ends[j]))
  }

  lemma QueuePush(flights: seq<Flight>, c: nat, ready: seq<nat>, ends: seq<Move>, team: string, f: Flight)
    requires Queued(flights, c, ready, ends, team) && c < |flights|
    requires |ready| < |ends| ==> Ready(f, team, ends[|ready|])
    ensures Queued(flights[c := f], c + 1, ready + [c], ends, team)
  {}

  lemma QueueKeeps(flights: seq<Flight>, c: nat, ready: seq<nat>, ends: seq<Move>, team: string, f: Flight)
    requires Queued(flights, c, ready, ends, team) && c < |flights|
    ensures Queued(flights[c := f], c + 1, ready, ends, team)
  {}

  lemma QueuePop(flights: seq<Flight>, c: nat, ready: seq<nat>, ends: seq<Move>, team: string, f: Flight)
    requires Queued(flights, c, ready, ends, team) && ready != [] && ends != []
    ensures Queued(flights[ready[0] := f], c, ready[1..], ends[1..], team)
  {}

  ghost predicate Waiting(flights: seq<Flight>, c: nat, plan: seq<Move>, team: string, kind: ProviderKind) {
    && |flights| == c + |plan|
    && forall j :: 0 <= j < |plan| ==>
         && Ends(plan[j]) && Fits(plan[j])
         && flights[c + j] == Flight(CallOf(team, kind, plan[j]).0, CallOf(team, kind, plan[j]).1, Arrived)
  }

  // The request that answers the next start.
  lemma NextWaits(flights: seq<Flight>, c: nat, plan: seq<Move>, team: string, kind: ProviderKind, f: Flight)
    requires plan != [] && Waiting(flights, c, plan, team, kind)
    ensures c < |flights| && Ends(plan[0]) && Fits(plan[0])
    ensures flights[c] == Flight(CallOf(team, kind, plan[0]).0, CallOf(team, kind, plan[0]).1, Arrived)
    ensures Waiting(flights[c := f], c + 1, plan[1..], team, kind)
  {
    assert flights[c + 0] == flights[c];
    forall j | 0 <= j < |plan[1..]|
      ensures flights[c := f][c + 1 + j] == flights[c + (j + 1)] && plan[1..][j] == plan[j + 1]
    {}
  }

  lemma EarlierDoesNotWait(
      flights: seq<Flight>, c: nat, plan: seq<Move>, team: string, kind: ProviderKind, i: nat, f: Flight)
    requires Waiting(flights, c, plan, team, kind) && i < c
    ensures Waiting(flights[i := f], c, plan, team, kind)
  {}

  function GateOf(v: Vault, n: nat, team: string): Gate { Gate(Bucket(v.hashes, team), n) }

  lemma StartUnfolds(l: Limits, g: Gate, moves: seq<Move>)
    requires l.Capped() && moves != [] && Starts(moves[0])
    ensures var plan, g', ends := Plan(l, g, moves), Moved(l, g, moves[0]), EndsOf(moves);
            && EndsOf(moves[1..]) == ends && plan != [] && plan[1..] == Plan(l, g', moves[1..])
            && (g'.inFlight > g.inFlight && g.inFlight < |ends| ==> plan[0] == ends[g.inFlight])
  {}

  // The vault is prepared for the rest when request c has been let through.
  lemma LetInPrepares(l: Limits, v: Vault, c: nat, ready: seq<nat>, moves: seq<Move>, team: string,
                      kind: ProviderKind, v': Vault, end: Move)
    requires l.Capped() && Prepared(l, v, c, ready, moves, team, kind) && moves != [] && Starts(moves[0])
    requires Turned(v, c, v', kind) && Crowd(v'.hall.flights, team) == |ready| + 1
    requires GateOf(v', |ready| + 1, team) == Moved(l, GateOf(v, |ready|, team), moves[0])
    requires end == Plan(l, GateOf(v, |ready|, team), moves)[0] && Ends(end) && Fits(end)
    requires Ready(v'.hall.flights[c], team, end)
    ensures Prepared(l, v', c + 1, ready + [c], moves[1..], team, kind)
  {
    var g, flights := GateOf(v, |ready|, team), v.hall.flights;
    StartUnfolds(l, g, moves);
    NextWaits(flights, c, Plan(l, g, moves), team, kind, v'.hall.flights[c]);
    QueuePush(flights, c, ready, EndsOf(moves), team, v'.hall.flights[c]);
  }

  lemma RefusedPrepares(l: Limits, v: Vault, c: nat, ready: seq<nat>, moves: seq<Move>, team: string,
                        kind: ProviderKind, v': Vault)
    requires l.Capped() && Prepared(l, v, c, ready, moves, team, kind) && moves != [] && Starts(moves[0])
    requires Turned(v, c, v', kind) && Crowd(v'.hall.flights, team) == |ready|
    requires GateOf(v', |ready|, team) == Moved(l, GateOf(v, |ready|, team), moves[0])
    ensures Prepared(l, v', c + 1, ready, moves[1..], team, kind)
  {
    var g, flights := GateOf(v, |ready|, team), v.hall.flights;
    StartUnfolds(l, g, moves);
    NextWaits(flights, c, Plan(l, g, moves), team, kind, v'.hall.flights[c]);
    QueueKeeps(flights, c, ready, EndsOf(moves), team, v'.hall.flights[c]);
  }

  lemma EndUnfolds(l: Limits, g: Gate, moves: seq<Move>)
    requires l.Capped() && moves != [] && Ends(moves[0])
    ensures EndsOf(moves) == [moves[0]] + EndsOf(moves[1..]) && EndsOf(moves)[1..] == EndsOf(moves[1..])
    ensures Plan(l, g, moves) == Plan(l, Moved(l, g, moves[0]), moves[1..])
  {}

  // And when the request that came first has ended.
  lemma EndPrepares(l: Limits, v: Vault, c: nat, ready: seq<nat>, moves: seq<Move>, team: string,
                    kind: ProviderKind, v': Vault)
    requires l.Capped() && Prepared(l, v, c, ready, moves, team, kind) && moves != [] && Ends(moves[0]) && ready != []
    requires Turned(v, ready[0], v', kind) && Crowd(v'.hall.flights, team) == |ready| - 1
    requires GateOf(v', |ready| - 1, team) == Moved(l, GateOf(v, |ready|, team), moves[0])
    ensures Prepared(l, v', c, ready[1..], moves[1..], team, kind)
  {
    var g, flights := GateOf(v, |ready|, team), v.hall.flights;
    EndUnfolds(l, g, moves);
    EarlierDoesNotWait(flights, c, Plan(l, g, moves), team, kind, ready[0], v'.hall.flights[ready[0]]);
    QueuePop(flights, c, ready, EndsOf(moves), team, v'.hall.flights[ready[0]]);
  }

  // What one move takes: beats that make it, after which the vault is prepared for the others.
  ghost predicate Makes(
      s: Setup, l: Limits, v: Vault, ready: seq<nat>, moves: seq<Move>, team: string, kind: ProviderKind,
      from: real, k: nat, m: nat, beats: seq<Beat>, v': Vault, c': nat, ready': seq<nat>)
    requires s.Valid() && l.Capped() && moves != []
  {
    && Realizes(s, l, v, beats, v', [moves[0]], team, k, m)
    && (from <= Time(moves[0], from) ==> Lapses(beats, from, Time(moves[0], from)))
    && Prepared(l, v', c', ready', moves[1..], team, kind)
    && GateOf(v', |ready'|, team) == Moved(l, GateOf(v, |ready|, team), moves[0])
  }

  lemma MakeStart(
      s: Setup, l: Limits, v: Vault, c: nat, ready: seq<nat>, moves: seq<Move>, team: string, kind: ProviderKind,
      from: real, k: nat, m: nat)
    returns (beats: seq<Beat>, v': Vault, ready': seq<nat>)
    requires s.Valid() && s.wiring.budget && l.Capped() && team != "" && kind != Unspecified && Registered(s, kind)
    requires Prepared(l, v, c, ready, moves, team, kind) && moves != [] && Starts(moves[0])
    requires |ready| <= k && Within(l, GateOf(v, |ready|, team), moves[0], k, m)
    ensures Makes(s, l, v, ready, moves, team, kind, from, k, m, beats, v', c + 1, ready')
  {
    var g, mv := GateOf(v, |ready|, team), moves[0];
    var plan := Plan(l, g, moves);
    StartUnfolds(l, g, moves);
    NextWaits(v.hall.flights, c, plan, team, kind, v.hall.flights[c]);
    if mv.Check? && !Script(l, g.stored, mv.now, 0).allowed {
      beats, v' := Refuse(s, l, v, c, team, kind, plan[0], mv, from, k, m);
      RefusedPrepares(l, v, c, ready, moves, team, kind, v');
      ready' := ready;
    } else {
      beats, v' := LetIn(s, l, v, c, team, kind, plan[0], mv, from, k, m);
      LetInPrepares(l, v, c, ready, moves, team, kind, v', plan[0]);
      ready' := ready + [c];
    }
  }

  lemma MakeEnd(
      s: Setup, l: Limits, v: Vault, c: nat, ready: seq<nat>, moves: seq<Move>, team: string, kind: ProviderKind,
      from: real, k: nat, m: nat)
    returns (beats: seq<Beat>, v': Vault)
    requires s.Valid() && s.wiring.budget && l.Capped() && team != ""
    requires Prepared(l, v, c, ready, moves, team, kind) && moves != [] && Ends(moves[0])
    requires |ready| <= k && Within(l, GateOf(v, |ready|, team), moves[0], k, m)
    ensures ready != [] && Makes(s, l, v, ready, moves, team, kind, from, k, m, beats, v', c, ready[1..])
  {
    EndUnfolds(l, GateOf(v, |ready|, team), moves);
    assert EndsOf(moves)[0] == moves[0];
    beats, v' := Settle(s, l, v, ready[0], team, kind, moves[0], from, k, m);
    EndPrepares(l, v, c, ready, moves, team, kind, v');
  }

  lemma MakeLook(
      s: Setup, l: Limits, v: Vault, c: nat, ready: seq<nat>, moves: seq<Move>, team: string, kind: ProviderKind,
      from: real, k: nat, m: nat)
    returns (beats: seq<Beat>, v': Vault)
    requires s.Valid() && l.Capped() && Prepared(l, v, c, ready, moves, team, kind)
    requires moves != [] && moves[0].Look? && |ready| <= k
    ensures Makes(s, l, v, ready, moves, team, kind, from, k, m, beats, v', c, ready)
  {
    beats, v' := Peek(s, l, v, team, moves[0], from, k, m);
    assert Plan(l, GateOf(v, |ready|, team), moves) == Plan(l, GateOf(v', |ready|, team), moves[1..]);
    assert EndsOf(moves) == EndsOf(moves[1..]);
  }

  lemma MakeMove(
      s: Setup, l: Limits, v: Vault, c: nat, ready: seq<nat>, moves: seq<Move>, team: string, kind: ProviderKind,
      from: real, k: nat, m: nat)
    returns (beats: seq<Beat>, v': Vault, c': nat, ready': seq<nat>)
    requires s.Valid() && s.wiring.budget && l.Capped() && team != "" && kind != Unspecified && Registered(s, kind)
    requires Prepared(l, v, c, ready, moves, team, kind) && moves != []
    requires |ready| <= k && Within(l, GateOf(v, |ready|, team), moves[0], k, m)
    ensures Makes(s, l, v, ready, moves, team, kind, from, k, m, beats, v', c', ready')
  {
    if Starts(moves[0]) {
      beats, v', ready' := MakeStart(s, l, v, c, ready, moves, team, kind, from, k, m);
      c' := c + 1;
    } else if Ends(moves[0]) {
      beats, v' := MakeEnd(s, l, v, c, ready, moves, team, kind, from, k, m);
      c', ready' := c, ready[1..];
    } else {
      beats, v' := MakeLook(s, l, v, c, ready, moves, team, kind, from, k, m);
      c', ready' := c, ready;
    }
  }

  // A prepared vault makes the whole run.
  lemma {:induction false} MakeAll(
      s: Setup, l: Limits, v: Vault, c: nat, ready: seq<nat>, moves: seq<Move>, team: string, kind: ProviderKind,
      from: real, to: real, k: nat, m: nat)
    returns (beats: seq<Beat>, v': Vault, n: nat)
    requires s.Valid() && s.wiring.budget && l.Capped() && team != "" && kind != Unspecified && Registered(s, kind)
    requires Prepared(l, v, c, ready, moves, team, kind) && |ready| <= k
    requires AllWithin(l, GateOf(v, |ready|, team), moves, k, m)
    ensures Realizes(s, l, v, beats, v', moves, team, k, m)
    ensures GateOf(v', n, team) == Played(l, GateOf(v, |ready|, team), moves)
    ensures Timed(moves, from, to) ==> InTime(beats, from, to)
    decreases |moves|
  {
    if moves == [] {
      beats, v', n := [], v, |ready|;
    } else {
      var a, v1, c1, ready1 := MakeMove(s, l, v, c, ready, moves, team, kind, from, k, m);
      var b, next := [], Time(moves[0], from);
      b, v', n := MakeAll(s, l, v1, c1, ready1, moves[1..], team, kind, next, to, k, m);
      RealizesOn(s, l, v, a, v1, [moves[0]], b, v', moves[1..], team, k, m);
      assert [moves[0]] + moves[1..] == moves;
      if Timed(moves, from, to) { LapsesThen(a, b, from, next, to); }
      beats := a + b;
    }
  }

  lemma {:induction false} LapsesThen(a: seq<Beat>, b: seq<Beat>, from: real, mid: real, to: real)
    requires Lapses(a, from, mid) && InTime(b, mid, to)
    ensures InTime(a + b, from, to)
    decreases a
  {
    if a == [] {
      assert a + b == b;
    } else {
      assert (a + b)[0] == a[0] && (a + b)[1..] == a[1..] + b;
      LapsesThen(a[1..], b, a[0].now, mid, to);
    }
  }

  lemma {:induction false} EndsFit(l: Limits, g: Gate, moves: seq<Move>, k: nat, m: nat)
    requires l.Capped() && AllWithin(l, g, moves, k, m) && Charging(moves) && m <= MAX_INT32
    ensures forall e <- EndsOf(moves) :: Ends(e) && Fits(e)
    decreases moves
  {
    if moves != [] {
      assert moves[0] in moves;
      EndsFit(l, Moved(l, g, moves[0]), moves[1..], k, m);
    }
  }

  predicate AllFit(plan: seq<Move>) { forall j :: 0 <= j < |plan| ==> Ends(plan[j]) && Fits(plan[j]) }

  lemma {:induction false} PlanFits(l: Limits, g: Gate, moves: seq<Move>)
    requires l.Capped() && forall e <- EndsOf(moves) :: Ends(e) && Fits(e)
    ensures AllFit(Plan(l, g, moves))
    decreases moves
  {
    if moves != [] {
      var g', ends := Moved(l, g, moves[0]), EndsOf(moves);
      assert forall e <- EndsOf(moves[1..]) :: e in ends;
      PlanFits(l, g', moves[1..]);
    }
  }

  // The requests that make a run.
  function CallsFor(team: string, kind: ProviderKind, plan: seq<Move>): seq<(Request, World)>
    requires AllFit(plan)
  {
    seq(|plan|, j requires 0 <= j < |plan| => CallOf(team, kind, plan[j]))
  }

  lemma StartsPrepared(l: Limits, moves: seq<Move>, team: string, kind: ProviderKind)
    requires l.Capped() && AllFit(Plan(l, CLOSED, moves)) && forall e <- EndsOf(moves) :: Ends(e) && Fits(e)
    ensures Prepared(l, NewVault(CallsFor(team, kind, Plan(l, CLOSED, moves))), 0, [], moves, team, kind)
  {
    StartsClosed(CallsFor(team, kind, Plan(l, CLOSED, moves)), team);
  }

  // Every run of the gate, whatever overlaps in it, is made by some requests to a registered provider, if token counts
  // are positive and fit 32 bits.
  lemma GateRunsAreOverlaps(
      s: Setup, l: Limits, moves: seq<Move>, team: string, kind: ProviderKind, from: real, to: real, k: nat, m: nat)
    returns (calls: seq<(Request, World)>, beats: seq<Beat>)
    requires s.Valid() && s.wiring.budget && l.Capped() && team != "" && kind != Unspecified && Registered(s, kind)
    requires AllWithin(l, CLOSED, moves, k, m) && Charging(moves) && m <= MAX_INT32
    ensures VaultMoves(s, l, NewVault(calls), beats, team) == moves && Calm(s, l, NewVault(calls), beats, team, k, m)
    ensures Bucket(VaultAfter(s, l, NewVault(calls), beats).hashes, team) == Played(l, CLOSED, moves).stored
    ensures Timed(moves, from, to) ==> InTime(beats, from, to)
  {
    var plan := Plan(l, CLOSED, moves);
    EndsFit(l, CLOSED, moves, k, m);
    PlanFits(l, CLOSED, moves);
    calls := CallsFor(team, kind, plan);
    StartsPrepared(l, moves, team, kind);
    var v', n;
    beats, v', n := MakeAll(s, l, NewVault(calls), 0, [], moves, team, kind, from, to, k, m);
  }

  // ---------------------------------------------------------------- the bounds are exact

  function LevelOf(v: Vault, l: Limits, team: string): real { Level(l, GateOf(v, 0, team)) }

  // No interleaving of requests of the team, at most k of which overlap and at most f of whose checks go unanswered,
  // takes its balance below `floor`.
  ghost predicate NoOverlapGoesBelow(s: Setup, l: Limits, team: string, k: nat, f: nat, m: nat, floor: int)
    requires s.Valid() && l.Capped()
  {
    forall calls, beats ::
      Calm(s, l, NewVault(calls), beats, team, k, m)
      && Unchecked(VaultMoves(s, l, NewVault(calls), beats, team)) <= f ==>
        LevelOf(VaultAfter(s, l, NewVault(calls), beats), l, team) >= floor as real
  }

  lemma OverlapStaysAbove(
      s: Setup, l: Limits, calls: seq<(Request, World)>, beats: seq<Beat>, team: string, k: nat, f: nat, m: nat,
      floor: int)
    requires s.Valid() && s.wiring.budget && l.Capped() && team != "" && NeverBelow(l, k, f, m, floor)
    requires Calm(s, l, NewVault(calls), beats, team, k, m)
    requires Unchecked(VaultMoves(s, l, NewVault(calls), beats, team)) <= f
    ensures LevelOf(VaultAfter(s, l, NewVault(calls), beats), l, team) >= floor as real
  {
    StartsClosed(calls, team);
    OverlapsAreGateRuns(s, l, NewVault(calls), beats, team, k, m);
  }

  // The floor under overlapping requests, exactly.
  lemma OverlapFloorIsExact(
      s: Setup, l: Limits, team: string, kind: ProviderKind, k: nat, f: nat, m: nat, floor: int)
    requires s.Valid() && s.wiring.budget && l.Capped() && team != "" && kind != Unspecified && Registered(s, kind)
    requires k > 0 && 0 < m <= MAX_INT32
    ensures NoOverlapGoesBelow(s, l, team, k, f, m, floor) <==> floor <= 1 - (k + f) * m
  {
    FloorIsExact(l, k, f, m, floor);
    if NeverBelow(l, k, f, m, floor) {
      forall calls, beats | Calm(s, l, NewVault(calls), beats, team, k, m)
                            && Unchecked(VaultMoves(s, l, NewVault(calls), beats, team)) <= f
        ensures LevelOf(VaultAfter(s, l, NewVault(calls), beats), l, team) >= floor as real
      {
        OverlapStaysAbove(s, l, calls, beats, team, k, f, m, floor);
      }
    } else {
      var calls, beats := OverlapReachesTheFloor(s, l, team, kind, k, f, m);
    }
  }

  lemma OverlapReachesTheFloor(s: Setup, l: Limits, team: string, kind: ProviderKind, k: nat, f: nat, m: nat)
    returns (calls: seq<(Request, World)>, beats: seq<Beat>)
    requires s.Valid() && s.wiring.budget && l.Capped() && team != "" && kind != Unspecified && Registered(s, kind)
    requires k > 0 && 0 < m <= MAX_INT32
    ensures Calm(s, l, NewVault(calls), beats, team, k, m)
    ensures Unchecked(VaultMoves(s, l, NewVault(calls), beats, team)) == f
    ensures LevelOf(VaultAfter(s, l, NewVault(calls), beats), l, team) == (1 - (k + f) * m) as real
  {
    var moves := FloorIsReached(l, k, f, m);
    calls, beats := GateRunsAreOverlaps(s, l, moves, team, kind, 0.0, 0.0, k, m);
  }

  // Beats within one window, after any others, in which at most f checks go unanswered and g deductions are lost.
  ghost predicate WindowOfBeats(
      s: Setup, l: Limits, calls: seq<(Request, World)>, before: seq<Beat>, beats: seq<Beat>, team: string,
      k: nat, f: nat, g: nat, m: nat, from: real)
    requires s.Valid() && l.Capped()
  {
    var v := VaultAfter(s, l, NewVault(calls), before);
    var moves := VaultMoves(s, l, v, beats, team);
    && Calm(s, l, NewVault(calls), before, team, k, m) && Calm(s, l, v, beats, team, k, m)
    && InTime(beats, from, from + l.window as real * 1000.0)
    && Unchecked(moves) <= f && Losses(moves) <= g
  }

  ghost function ServedIn(
      s: Setup, l: Limits, calls: seq<(Request, World)>, before: seq<Beat>, beats: seq<Beat>, team: string): nat
    requires s.Valid() && l.Capped()
  {
    VaultServes(s, l, VaultAfter(s, l, NewVault(calls), before), beats, team)
  }

  ghost predicate NoOverlapServesMore(s: Setup, l: Limits, team: string, k: nat, f: nat, g: nat, m: nat, most: int)
    requires s.Valid() && l.Capped()
  {
    forall calls, before, beats, from :: WindowOfBeats(s, l, calls, before, beats, team, k, f, g, m, from) ==>
      ServedIn(s, l, calls, before, beats, team) <= most
  }

  // A window of beats is a window of the gate.
  lemma BeatsAreAWindow(
      s: Setup, l: Limits, calls: seq<(Request, World)>, before: seq<Beat>, beats: seq<Beat>, team: string,
      k: nat, f: nat, g: nat, m: nat, from: real)
    returns (earlier: seq<Move>, moves: seq<Move>)
    requires s.Valid() && s.wiring.budget && l.Capped() && team != ""
    requires WindowOfBeats(s, l, calls, before, beats, team, k, f, g, m, from)
    ensures Window(l, k, f, g, m, earlier, moves, from)
    ensures ServedTokens(moves) == ServedIn(s, l, calls, before, beats, team)
  {
    var v := VaultAfter(s, l, NewVault(calls), before);
    earlier, moves := VaultMoves(s, l, NewVault(calls), before, team), VaultMoves(s, l, v, beats, team);
    StartsClosed(calls, team);
    OverlapsAreGateRuns(s, l, NewVault(calls), before, team, k, m);
    OverlapsAreGateRuns(s, l, v, beats, team, k, m);
    InTimeIsTimed(s, l, v, beats, team, from, from + l.window as real * 1000.0);
  }

  // The most that overlapping requests of a team are served in one window, exactly.
  lemma OverlapWindowIsExact(
      s: Setup, l: Limits, team: string, kind: ProviderKind, k: nat, f: nat, g: nat, m: nat, most: int)
    requires s.Valid() && s.wiring.budget && l.Capped() && team != "" && kind != Unspecified && Registered(s, kind)
    requires k > 0 && 0 < m <= MAX_INT32
    ensures NoOverlapServesMore(s, l, team, k, f, g, m, most) <==> most >= 2 * l.budget + (k + f + g) * m - 1
  {
    WindowSpendIsExact(l, k, f, g, m, most);
    var calls, beats := OverlapBurst(s, l, team, kind, k, f, g, m);
    ExactWhereServed(s, l, team, k, f, g, m, most, 2 * l.budget + (k + f + g) * m - 1, calls, beats);
  }

  lemma ExactWhereServed(
      s: Setup, l: Limits, team: string, k: nat, f: nat, g: nat, m: nat, most: int, reached: int,
      calls: seq<(Request, World)>, beats: seq<Beat>)
    requires s.Valid() && s.wiring.budget && l.Capped() && team != ""
    requires NoWindowServesMore(l, k, f, g, m, most) <==> most >= reached
    requires WindowOfBeats(s, l, calls, [], beats, team, k, f, g, m, 0.0)
    requires ServedIn(s, l, calls, [], beats, team) == reached
    ensures NoOverlapServesMore(s, l, team, k, f, g, m, most) <==> most >= reached
  {
    if most >= reached {
      forall calls, before, beats, from | WindowOfBeats(s, l, calls, before, beats, team, k, f, g, m, from)
        ensures ServedIn(s, l, calls, before, beats, team) <= most
      {
        var earlier, moves := BeatsAreAWindow(s, l, calls, before, beats, team, k, f, g, m, from);
      }
    }
  }

  lemma OverlapBurst(s: Setup, l: Limits, team: string, kind: ProviderKind, k: nat, f: nat, g: nat, m: nat)
    returns (calls: seq<(Request, World)>, beats: seq<Beat>)
    requires s.Valid() && s.wiring.budget && l.Capped() && team != "" && kind != Unspecified && Registered(s, kind)
    requires k > 0 && 0 < m <= MAX_INT32
    ensures WindowOfBeats(s, l, calls, [], beats, team, k, f, g, m, 0.0)
    ensures ServedIn(s, l, calls, [], beats, team) == 2 * l.budget + (k + f + g) * m - 1
  {
    var moves := WindowSpendIsReached(l, k, f, g, m);
    calls, beats := BurstFrom(s, l, moves, team, kind, k, f, g, m, 2 * l.budget + (k + f + g) * m - 1);
  }

  lemma BurstFrom(s: Setup, l: Limits, moves: seq<Move>, team: string, kind: ProviderKind,
                  k: nat, f: nat, g: nat, m: nat, most: nat)
    returns (calls: seq<(Request, World)>, beats: seq<Beat>)
    requires s.Valid() && s.wiring.budget && l.Capped() && team != "" && kind != Unspecified && Registered(s, kind)
    requires AllWithin(l, CLOSED, moves, k, m) && Charging(moves) && m <= MAX_INT32 && InWindow(l, moves, 0.0)
    requires TallyOf(moves) == Tally(most, f, g)
    ensures WindowOfBeats(s, l, calls, [], beats, team, k, f, g, m, 0.0)
    ensures ServedIn(s, l, calls, [], beats, team) == most
  {
    calls, beats := FromOpening(s, l, moves, team, kind, k, m, 0.0 + l.window as real * 1000.0, Tally(most, f, g));
    FirstBeats(s, l, calls, beats, team, k, f, g, m);
  }

  lemma FromOpening(s: Setup, l: Limits, moves: seq<Move>, team: string, kind: ProviderKind, k: nat, m: nat,
                    to: real, tally: Tally)
    returns (calls: seq<(Request, World)>, beats: seq<Beat>)
    requires s.Valid() && s.wiring.budget && l.Capped() && team != "" && kind != Unspecified && Registered(s, kind)
    requires AllWithin(l, CLOSED, moves, k, m) && Charging(moves) && m <= MAX_INT32 && Timed(moves, 0.0, to)
    requires TallyOf(moves) == tally
    ensures Calm(s, l, NewVault(calls), beats, team, k, m) && InTime(beats, 0.0, to)
    ensures VaultMoves(s, l, NewVault(calls), beats, team) == moves
    ensures Unchecked(VaultMoves(s, l, NewVault(calls), beats, team)) == tally.unchecked
    ensures Losses(VaultMoves(s, l, NewVault(calls), beats, team)) == tally.losses
    ensures VaultServes(s, l, NewVault(calls), beats, team) == tally.served
  {
    calls, beats := GateRunsAreOverlaps(s, l, moves, team, kind, 0.0, to, k, m);
    StartsClosed(calls, team);
    OverlapsAreGateRuns(s, l, NewVault(calls), beats, team, k, m);
  }

  lemma FirstBeats(s: Setup, l: Limits, calls: seq<(Request, World)>, beats: seq<Beat>, team: string,
                   k: nat, f: nat, g: nat, m: nat)
    requires s.Valid() && l.Capped() && Calm(s, l, NewVault(calls), beats, team, k, m)
    requires InTime(beats, 0.0, 0.0 + l.window as real * 1000.0)
    requires Unchecked(VaultMoves(s, l, NewVault(calls), beats, team)) <= f
    requires Losses(VaultMoves(s, l, NewVault(calls), beats, team)) <= g
    ensures WindowOfBeats(s, l, calls, [], beats, team, k, f, g, m, 0.0)
    ensures ServedIn(s, l, calls, [], beats, team) == VaultServes(s, l, NewVault(calls), beats, team)
  {}
}
