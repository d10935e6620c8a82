// The token budget under overlapping requests: the store answers their checks, and what they deduct reaches it.
module OverlapBudget {
  import opened TokenBudget
  import opened BudgetGate
  import opened GatewayService
  import opened GatewayOverlap
  import Metering

  // A tick, or a usage query. `now` is the store's time; `unanswered` says that it does not answer a check.
  datatype Beat =
    | Beat(tick: Tick, now: real, unanswered: bool)
    | Query(team: string, now: real)

  // What the requests share, the requests, and the buckets.
  datatype Vault = Vault(hall: Hall, hashes: map<string, Stored>)

  // Deductions as they reach the store.
  function Drawn(l: Limits, hashes: map<string, Stored>, ds: seq<Deduction>, now: real): map<string, Stored>
    requires l.Capped()
    decreases |ds|
  {
    if ds == [] then hashes else Drawn(l, Touched(l, hashes, ds[0].team, now, ds[0].tokens), ds[1..], now)
  }

  function NewDeductions(st: State, st': State): seq<Deduction> {
    if |st.deductions| <= |st'.deductions| then st'.deductions[|st.deductions|..] else []
  }

  // A request that arrives, with the answer its check will get.
  function Asking(l: Limits, v: Vault, f: Flight, b: Beat): Flight
    requires l.Capped() && b.Beat?
  {
    if !f.phase.Arrived? then f
    else
      var allowed := Script(l, Bucket(v.hashes, f.req.team), b.now, 0).allowed;
      f.(w := f.w.(budget := if b.unanswered then Unavailable else if allowed then Allowed else Over))
  }

  // The request's next step is one that asks the store.
  predicate Checks(s: Setup, f: Flight) {
    f.phase.Arrived? && f.req.messages != [] && f.w.permitted && f.req.team != "" && s.wiring.budget
  }

  ghost function Stepping(s: Setup, l: Limits, v: Vault, i: nat, b: Beat): Vault
    requires s.Valid() && l.Capped() && b.Beat? && i < |v.hall.flights|
  {
    var f := Asking(l, v, v.hall.flights[i], b);
    var (st, f') := Advanced(s, v.hall.state, f);
    var checked := if Checks(s, f) && !b.unanswered then Touched(l, v.hashes, f.req.team, b.now, 0) else v.hashes;
    Vault(Hall(st, v.hall.flights[i := f']), Drawn(l, checked, NewDeductions(v.hall.state, st), b.now))
  }

  ghost function Beaten(s: Setup, l: Limits, v: Vault, b: Beat): Vault
    requires s.Valid() && l.Capped()
  {
    match b
    case Query(team, now) => v.(hashes := Touched(l, v.hashes, team, now, 0))
    case Beat(tick, _, _) =>
      match tick
      case Expires(_) => v.(hall := Ticked(s, v.hall, tick))
      case Moves(i) => if i < |v.hall.flights| then Stepping(s, l, v, i, b) else v
  }

  ghost function VaultAfter(s: Setup, l: Limits, v: Vault, beats: seq<Beat>): Vault
    requires s.Valid() && l.Capped()
    decreases beats
  {
    if beats == [] then v else VaultAfter(s, l, Beaten(s, l, v, beats[0]), beats[1..])
  }

  // ---------------------------------------------------------------- the same run without the buckets

  // A step leaves no request where it arrived.
  lemma AdvancedHasArrived(s: Setup, st: State, f: Flight)
    requires s.Valid()
    ensures !Advanced(s, st, f).1.phase.Arrived?
  {}

  lemma TickedApart(s: Setup, st: State, flights: seq<Flight>, i: nat, f: Flight, t: Tick)
    requires s.Valid() && i < |flights| && t != Moves(i)
    ensures var h, h' := Ticked(s, Hall(st, flights), t), Ticked(s, Hall(st, flights[i := f]), t);
            |h.flights| == |flights| && h' == Hall(h.state, h.flights[i := f])
  {
    if t.Moves? && t.i < |flights| {
      var f' := Advanced(s, st, flights[t.i]).1;
      assert flights[i := f][t.i := f'] == flights[t.i := f'][i := f];
    }
  }

  // Until it takes its first step, a request does not matter.
  lemma {:induction false} ArrivedDoesNotMatter(
      s: Setup, calls: seq<(Request, World)>, ticks: seq<Tick>, i: nat, call: (Request, World))
    requires s.Valid() && |HallAfter(s, calls, ticks).flights| == |calls| && i < |calls|
    requires HallAfter(s, calls, ticks).flights[i].phase.Arrived?
    ensures var h := HallAfter(s, calls, ticks);
            HallAfter(s, calls[i := call], ticks) == Hall(h.state, h.flights[i := Flight(call.0, call.1, Arrived)])
    decreases |ticks|
  {
    var f := Flight(call.0, call.1, Arrived);
    if ticks == [] {
      assert Opening(calls[i := call]).flights == Opening(calls).flights[i := f];
    } else {
      var before, t := ticks[..|ticks| - 1], ticks[|ticks| - 1];
      var h := HallAfter(s, calls, before);
      TickedFlights(s, h, t);
      TickedFlight(s, h, t, i);
      AdvancedHasArrived(s, h.state, h.flights[i]);
      ArrivedDoesNotMatter(s, calls, before, i, call);
      TickedApart(s, h.state, h.flights, i, f, t);
    }
  }

  lemma StepIsATick(
      s: Setup, l: Limits, v: Vault, calls: seq<(Request, World)>, ticks: seq<Tick>, i: nat, b: Beat)
    returns (calls': seq<(Request, World)>)
    requires s.Valid() && l.Capped() && v.hall == HallAfter(s, calls, ticks) && |v.hall.flights| == |calls|
    requires i < |calls| && b.Beat?
    ensures Stepping(s, l, v, i, b).hall == HallAfter(s, calls', ticks + [Moves(i)]) && |calls'| == |calls|
  {
    var f := Asking(l, v, v.hall.flights[i], b);
    calls' := calls;
    if f.phase.Arrived? {
      calls' := calls[i := (f.req, f.w)];
      ArrivedDoesNotMatter(s, calls, ticks, i, (f.req, f.w));
    } else {
      assert v.hall.flights[i := f] == v.hall.flights;
    }
    var f' := Advanced(s, v.hall.state, f).1;
    assert v.hall.flights[i := f][i := f'] == v.hall.flights[i := f'];
    HallAfterOne(s, calls', ticks, Moves(i));
  }

  // The requests of a run with buckets, with the answers their checks got, are an interleaving of requests: all that
  // holds of those holds of them.
  lemma {:induction false} VaultIsAHall(
      s: Setup, l: Limits, v: Vault, beats: seq<Beat>, calls: seq<(Request, World)>, ticks: seq<Tick>)
    returns (calls': seq<(Request, World)>, ticks': seq<Tick>)
    requires s.Valid() && l.Capped() && v.hall == HallAfter(s, calls, ticks) && |v.hall.flights| == |calls|
    ensures VaultAfter(s, l, v, beats).hall == HallAfter(s, calls', ticks')
    decreases beats
  {
    calls', ticks' := calls, ticks;
    if beats != [] {
      var b := beats[0];
      if b.Beat? && b.tick.Expires? {
        HallAfterOne(s, calls, ticks, b.tick);
        ticks' := ticks + [b.tick];
      } else if b.Beat? && b.tick.i < |calls| {
        calls' := StepIsATick(s, l, v, calls, ticks, b.tick.i, b);
        ticks' := ticks + [b.tick];
        assert |Stepping(s, l, v, b.tick.i, b).hall.flights| == |calls'|;
      }
      calls', ticks' := VaultIsAHall(s, l, Beaten(s, l, v, b), beats[1..], calls', ticks');
    }
  }

  // ---------------------------------------------------------------- what it is for one team's bucket

  // The request was let through and has not settled with the store.
  predicate Unsettled(f: Flight, team: string) {
    f.req.team == team
    && (f.phase.Admitted? || f.phase.Replaying? || f.phase.Trying? || f.phase.Calling?
        || (f.phase.Writing? && f.phase.next.Deducting?))
  }

  function Crowd(flights: seq<Flight>, team: string): nat {
    if flights == [] then 0 else (if Unsettled(flights[0], team) then 1 else 0) + Crowd(flights[1..], team)
  }

  lemma {:induction false} CrowdChanges(flights: seq<Flight>, team: string, i: nat, f: Flight)
    requires i < |flights|
    ensures Crowd(flights[i := f], team) + (if Unsettled(flights[i], team) then 1 else 0)
         == Crowd(flights, team) + (if Unsettled(f, team) then 1 else 0)
    ensures Unsettled(flights[i], team) ==> Crowd(flights, team) > 0
    decreases i
  {
    if i == 0 {
      assert flights[i := f][1..] == flights[1..];
    } else {
      assert flights[i := f][1..] == flights[1..][i - 1 := f];
      CrowdChanges(flights[1..], team, i - 1, f);
    }
  }

  // The tokens that a request's next step reports as served.
  function Serving(f: Flight, team: string): nat {
    if f.req.team == team && f.phase.Writing? && f.phase.next.Deducting? then
      Metering.Positive(f.phase.completion.usage.totalTokens)
    else 0
  }

  // How a request that settles ends for the store.
  function Settling(f: Flight, team: string, now: real): Move {
    if Serving(f, team) == 0 then Quit
    else if f.w.deductFails then Lost(Serving(f, team))
    else Finish(now, Serving(f, team))
  }

  // The moves of one step of a request, `f` before it and `f'` after it.
  function StepMoves(s: Setup, f: Flight, f': Flight, team: string, b: Beat): seq<Move>
    requires b.Beat?
  {
    if f.req.team != team then []
    else if Unsettled(f, team) then (if Unsettled(f', team) then [] else [Settling(f, team, b.now)])
    else if !Checks(s, f) then []
    else [if b.unanswered then Unanswered else Check(b.now)]
  }

  ghost function BeatMoves(s: Setup, l: Limits, v: Vault, b: Beat, team: string): seq<Move>
    requires s.Valid() && l.Capped()
  {
    match b
    case Query(t, now) => if t == team then [Look(now)] else []
    case Beat(tick, _, _) =>
      if tick.Moves? && tick.i < |v.hall.flights| then
        var f := Asking(l, v, v.hall.flights[tick.i], b);
        StepMoves(s, f, Advanced(s, v.hall.state, f).1, team, b)
      else []
  }

  ghost function VaultMoves(s: Setup, l: Limits, v: Vault, beats: seq<Beat>, team: string): seq<Move>
    requires s.Valid() && l.Capped()
    decreases beats
  {
    if beats == [] then []
    else BeatMoves(s, l, v, beats[0], team) + VaultMoves(s, l, Beaten(s, l, v, beats[0]), beats[1..], team)
  }

  function BeatServes(v: Vault, b: Beat, team: string): nat {
    if b.Beat? && b.tick.Moves? && b.tick.i < |v.hall.flights| then Serving(v.hall.flights[b.tick.i], team) else 0
  }

  // Tokens served to a team: the totals of the completions that settle.
  ghost function VaultServes(s: Setup, l: Limits, v: Vault, beats: seq<Beat>, team: string): nat
    requires s.Valid() && l.Capped()
    decreases beats
  {
    if beats == [] then 0
    else BeatServes(v, beats[0], team) + VaultServes(s, l, Beaten(s, l, v, beats[0]), beats[1..], team)
  }

  // At every moment at most k requests of the team are let through and unsettled, and none serves more than m tokens.
  ghost predicate Calm(s: Setup, l: Limits, v: Vault, beats: seq<Beat>, team: string, k: nat, m: nat)
    requires s.Valid() && l.Capped()
    decreases beats
  {
    && Crowd(v.hall.flights, team) <= k
    && (beats == [] ||
        (BeatServes(v, beats[0], team) <= m && Calm(s, l, Beaten(s, l, v, beats[0]), beats[1..], team, k, m)))
  }

  // ---------------------------------------------------------------- one step of a request

  lemma OneDrawn(l: Limits, hashes: map<string, Stored>, team: string, tokens: int, now: real)
    requires l.Capped()
    ensures Drawn(l, hashes, [Deduction(team, tokens)], now) == Touched(l, hashes, team, now, tokens)
  {
    assert [Deduction(team, tokens)][1..] == [];
  }

  lemma AddedTo(ds: seq<Deduction>, dd: Deduction, team: string)
    ensures Metering.Deducted(ds + [dd], team) == Metering.Deducted(ds, team) + if dd.team == team then dd.tokens else 0
  {
    assert (ds + [dd])[..|ds|] == ds;
  }

  // Only the deducting write deducts, what the completion says.
  lemma AdvancedDeducts(s: Setup, st: State, f: Flight)
    requires s.Valid()
    ensures var charged := f.phase.Writing? && f.phase.next.Deducting? && f.req.team != "" && s.wiring.budget
                           && !f.w.deductFails && f.phase.completion.usage.totalTokens > 0;
            Advanced(s, st, f).0.deductions == st.deductions +
              (if charged then [Deduction(f.req.team, f.phase.completion.usage.totalTokens)] else [])
  {}

  // A request settles when it is over or has deducted; one that arrives is let through by its check, or is over.
  lemma AdvancedSettles(s: Setup, st: State, f: Flight, team: string)
    requires s.Valid() && team != "" && s.wiring.budget && f.req.team == team
    ensures var f' := Advanced(s, st, f).1;
            && f'.req == f.req && f'.w == f.w
            && (Unsettled(f, team) && Unsettled(f', team) ==> Serving(f, team) == 0)
            && (Unsettled(f', team) && !Unsettled(f, team) ==> Checks(s, f) && !f.w.budget.Over?)
            && (Checks(s, f) ==> (f.w.budget.Over? <==> !Unsettled(f', team)))
  {}

  // A run of moves takes a team's bucket and its requests from one vault to the other.
  ghost predicate Plays(l: Limits, v: Vault, v': Vault, moves: seq<Move>, served: nat, team: string, k: nat, m: nat)
    requires l.Capped()
  {
    var g := Gate(Bucket(v.hashes, team), Crowd(v.hall.flights, team));
    && AllWithin(l, g, moves, k, m)
    && Played(l, g, moves) == Gate(Bucket(v'.hashes, team), Crowd(v'.hall.flights, team))
    && Metering.Deducted(v'.hall.state.deductions, team)
       == Metering.Deducted(v.hall.state.deductions, team) + Spent(moves)
    && ServedTokens(moves) == served
  }

  lemma NoMovesPlay(l: Limits, v: Vault, v': Vault, team: string, k: nat, m: nat)
    requires l.Capped() && Bucket(v'.hashes, team) == Bucket(v.hashes, team)
    requires Crowd(v'.hall.flights, team) == Crowd(v.hall.flights, team)
    requires Metering.Deducted(v'.hall.state.deductions, team) == Metering.Deducted(v.hall.state.deductions, team)
    ensures Plays(l, v, v', [], 0, team, k, m)
  {}

  lemma OneMovePlays(l: Limits, v: Vault, v': Vault, mv: Move, served: nat, team: string, k: nat, m: nat)
    requires l.Capped()
    requires var g := Gate(Bucket(v.hashes, team), Crowd(v.hall.flights, team));
             && Within(l, g, mv, k, m)
             && Moved(l, g, mv) == Gate(Bucket(v'.hashes, team), Crowd(v'.hall.flights, team))
    requires Metering.Deducted(v'.hall.state.deductions, team)
          == Metering.Deducted(v.hall.state.deductions, team) + if mv.Finish? then mv.tokens else 0
    requires served == if mv.Finish? || mv.Lost? then mv.tokens else 0
    ensures Plays(l, v, v', [mv], served, team, k, m)
  {
    OneMove(l, Gate(Bucket(v.hashes, team), Crowd(v.hall.flights, team)), mv, k, m);
    TallyOne(mv);
    assert [mv][1..] == [];
  }

  // What a step does to the bucket of a team and to what was deducted for it.
  lemma SteppingBooks(s: Setup, l: Limits, v: Vault, i: nat, b: Beat, team: string)
    requires s.Valid() && l.Capped() && b.Beat? && i < |v.hall.flights| && team != "" && s.wiring.budget
    ensures var f, v' := Asking(l, v, v.hall.flights[i], b), Stepping(s, l, v, i, b);
            var own := f.req.team == team;
            var checked := if own && Checks(s, f) && !b.unanswered then
                             Script(l, Bucket(v.hashes, team), b.now, 0).stored
                           else Bucket(v.hashes, team);
            var spent := if own && !f.w.deductFails then Serving(f, team) else 0;
            && Bucket(v'.hashes, team) == (if spent > 0 then Script(l, checked, b.now, spent).stored else checked)
            && Metering.Deducted(v'.hall.state.deductions, team)
               == Metering.Deducted(v.hall.state.deductions, team) + spent
  {
    var f := Asking(l, v, v.hall.flights[i], b);
    var st := Advanced(s, v.hall.state, f).0;
    AdvancedDeducts(s, v.hall.state, f);
    var ds := NewDeductions(v.hall.state, st);
    var other := if Checks(s, f) && !b.unanswered then Touched(l, v.hashes, f.req.team, b.now, 0) else v.hashes;
    TouchedBuckets(l, v.hashes, f.req.team, team, b.now, 0);
    if ds == [] {
      assert st.deductions == v.hall.state.deductions;
    } else {
      assert ds == [ds[0]] && st.deductions == v.hall.state.deductions + [ds[0]];
      AddedTo(v.hall.state.deductions, ds[0], team);
      OneDrawn(l, other, ds[0].team, ds[0].tokens, b.now);
      TouchedBuckets(l, other, ds[0].team, team, b.now, ds[0].tokens);
    }
  }

  lemma SteppingFlights(s: Setup, l: Limits, v: Vault, i: nat, b: Beat, team: string)
    requires s.Valid() && l.Capped() && b.Beat? && i < |v.hall.flights|
    ensures var f := Asking(l, v, v.hall.flights[i], b);
            var f' := Advanced(s, v.hall.state, f).1;
            var flights' := Stepping(s, l, v, i, b).hall.flights;
            && |flights'| == |v.hall.flights|
            && Crowd(flights', team) + (if Unsettled(f, team) then 1 else 0)
               == Crowd(v.hall.flights, team) + (if Unsettled(f', team) then 1 else 0)
            && (Unsettled(f, team) ==> Crowd(v.hall.flights, team) > 0)
            && Serving(f, team) == Serving(v.hall.flights[i], team)
  {
    var f := Asking(l, v, v.hall.flights[i], b);
    CrowdChanges(v.hall.flights, team, i, Advanced(s, v.hall.state, f).1);
  }

  // What the step of a request is for the team: its moves, and what it serves.
  ghost predicate StepIsPlayed(s: Setup, l: Limits, v: Vault, i: nat, b: Beat, team: string, k: nat, m: nat)
    requires s.Valid() && l.Capped() && b.Beat? && i < |v.hall.flights|
  {
    var f := Asking(l, v, v.hall.flights[i], b);
    Plays(l, v, Stepping(s, l, v, i, b),
          StepMoves(s, f, Advanced(s, v.hall.state, f).1, team, b), Serving(f, team), team, k, m)
  }

  lemma OtherStepPlays(s: Setup, l: Limits, v: Vault, i: nat, b: Beat, team: string, k: nat, m: nat)
    requires s.Valid() && s.wiring.budget && l.Capped() && b.Beat? && i < |v.hall.flights| && team != ""
    requires v.hall.flights[i].req.team != team
    ensures StepIsPlayed(s, l, v, i, b, team, k, m)
  {
    var f := Asking(l, v, v.hall.flights[i], b);
    SteppingBooks(s, l, v, i, b, team);
    SteppingFlights(s, l, v, i, b, team);
    assert Advanced(s, v.hall.state, f).1.req == f.req;
    NoMovesPlay(l, v, Stepping(s, l, v, i, b), team, k, m);
  }

  // The books of a request that is let through, in terms of how it would settle.
  lemma UnsettledBooks(s: Setup, l: Limits, v: Vault, i: nat, b: Beat, team: string)
    requires s.Valid() && l.Capped() && b.Beat? && i < |v.hall.flights| && team != "" && s.wiring.budget
    requires Unsettled(v.hall.flights[i], team)
    ensures var mv, v' := Settling(v.hall.flights[i], team, b.now), Stepping(s, l, v, i, b);
            && Bucket(v'.hashes, team) == Settled(l, Bucket(v.hashes, team), mv)
            && Metering.Deducted(v'.hall.state.deductions, team)
               == Metering.Deducted(v.hall.state.deductions, team) + if mv.Finish? then mv.tokens else 0
  {
    SteppingBooks(s, l, v, i, b, team);
  }

  // The bucket once a request has ended.
  function Settled(l: Limits, st: Stored, mv: Move): Stored
    requires l.Capped()
  {
    if mv.Finish? && mv.tokens > 0 then Script(l, st, mv.now, mv.tokens).stored else st
  }

  lemma EndMoves(l: Limits, g: Gate, mv: Move)
    requires l.Capped() && Ends(mv) && g.inFlight > 0
    ensures Moved(l, g, mv) == Gate(Settled(l, g.stored, mv), g.inFlight - 1)
  {}

  lemma SettlingEnds(f: Flight, team: string, now: real)
    ensures var mv := Settling(f, team, now);
            && Ends(mv) && (if mv.Quit? then Serving(f, team) == 0 else mv.tokens == Serving(f, team) > 0)
  {}

  lemma EndPlays(l: Limits, v: Vault, v': Vault, mv: Move, served: nat, team: string, k: nat, m: nat)
    requires l.Capped() && Ends(mv) && (if mv.Quit? then served == 0 else mv.tokens == served > 0) && served <= m
    requires Crowd(v'.hall.flights, team) + 1 == Crowd(v.hall.flights, team) <= k
    requires Bucket(v'.hashes, team) == Settled(l, Bucket(v.hashes, team), mv)
    requires Metering.Deducted(v'.hall.state.deductions, team)
          == Metering.Deducted(v.hall.state.deductions, team) + if mv.Finish? then mv.tokens else 0
    ensures Plays(l, v, v', [mv], served, team, k, m)
  {
    EndMoves(l, Gate(Bucket(v.hashes, team), Crowd(v.hall.flights, team)), mv);
    OneMovePlays(l, v, v', mv, served, team, k, m);
  }

  // A request that settles with the store.
  lemma SettlingPlays(s: Setup, l: Limits, v: Vault, i: nat, b: Beat, team: string, k: nat, m: nat)
    requires s.Valid() && s.wiring.budget && l.Capped() && b.Beat? && i < |v.hall.flights| && team != ""
    requires Unsettled(v.hall.flights[i], team) && Serving(v.hall.flights[i], team) <= m
    requires !Unsettled(Advanced(s, v.hall.state, v.hall.flights[i]).1, team) && Crowd(v.hall.flights, team) <= k
    ensures Plays(l, v, Stepping(s, l, v, i, b), [Settling(v.hall.flights[i], team, b.now)],
                  Serving(v.hall.flights[i], team), team, k, m)
  {
    var f := v.hall.flights[i];
    UnsettledBooks(s, l, v, i, b, team);
    SteppingFlights(s, l, v, i, b, team);
    SettlingEnds(f, team, b.now);
    EndPlays(l, v, Stepping(s, l, v, i, b), Settling(f, team, b.now), Serving(f, team), team, k, m);
  }

  // One that goes on.
  lemma GoingOnPlays(s: Setup, l: Limits, v: Vault, i: nat, b: Beat, team: string, k: nat, m: nat)
    requires s.Valid() && s.wiring.budget && l.Capped() && b.Beat? && i < |v.hall.flights| && team != ""
    requires Unsettled(v.hall.flights[i], team) && Serving(v.hall.flights[i], team) == 0
    requires Unsettled(Advanced(s, v.hall.state, v.hall.flights[i]).1, team)
    ensures Plays(l, v, Stepping(s, l, v, i, b), [], 0, team, k, m)
  {
    UnsettledBooks(s, l, v, i, b, team);
    SteppingFlights(s, l, v, i, b, team);
    NoMovesPlay(l, v, Stepping(s, l, v, i, b), team, k, m);
  }

  lemma UnsettledStepPlays(s: Setup, l: Limits, v: Vault, i: nat, b: Beat, team: string, k: nat, m: nat)
    requires s.Valid() && s.wiring.budget && l.Capped() && b.Beat? && i < |v.hall.flights| && team != ""
    requires Unsettled(v.hall.flights[i], team) && Serving(v.hall.flights[i], team) <= m
    requires Crowd(v.hall.flights, team) <= k
    ensures StepIsPlayed(s, l, v, i, b, team, k, m)
  {
    AdvancedSettles(s, v.hall.state, v.hall.flights[i], team);
    if Unsettled(Advanced(s, v.hall.state, v.hall.flights[i]).1, team) {
      GoingOnPlays(s, l, v, i, b, team, k, m);
    } else {
      SettlingPlays(s, l, v, i, b, team, k, m);
    }
  }

  lemma SettledStepPlays(s: Setup, l: Limits, v: Vault, i: nat, b: Beat, team: string, k: nat, m: nat)
    requires s.Valid() && s.wiring.budget && l.Capped() && b.Beat? && i < |v.hall.flights| && team != ""
    requires v.hall.flights[i].req.team == team && !Unsettled(v.hall.flights[i], team)
    requires Crowd(v.hall.flights, team) <= k && Crowd(Stepping(s, l, v, i, b).hall.flights, team) <= k
    ensures StepIsPlayed(s, l, v, i, b, team, k, m)
  {
    var f, v' := Asking(l, v, v.hall.flights[i], b), Stepping(s, l, v, i, b);
    var moves := StepMoves(s, f, Advanced(s, v.hall.state, f).1, team, b);
    SteppingBooks(s, l, v, i, b, team);
    SteppingFlights(s, l, v, i, b, team);
    AdvancedSettles(s, v.hall.state, f, team);
    if moves == [] {
      NoMovesPlay(l, v, v', team, k, m);
    } else {
      OneMovePlays(l, v, v', moves[0], 0, team, k, m);
    }
  }

  lemma StepPlays(s: Setup, l: Limits, v: Vault, i: nat, b: Beat, team: string, k: nat, m: nat)
    requires s.Valid() && s.wiring.budget && l.Capped() && b.Beat? && i < |v.hall.flights| && team != ""
    requires Crowd(v.hall.flights, team) <= k && Crowd(Stepping(s, l, v, i, b).hall.flights, team) <= k
    requires Serving(v.hall.flights[i], team) <= m
    ensures StepIsPlayed(s, l, v, i, b, team, k, m)
  {
    if v.hall.flights[i].req.team != team {
      OtherStepPlays(s, l, v, i, b, team, k, m);
    } else if Unsettled(v.hall.flights[i], team) {
      UnsettledStepPlays(s, l, v, i, b, team, k, m);
    } else {
      SettledStepPlays(s, l, v, i, b, team, k, m);
    }
  }

  lemma BeatPlays(s: Setup, l: Limits, v: Vault, b: Beat, team: string, k: nat, m: nat)
    requires s.Valid() && s.wiring.budget && l.Capped() && team != "" && BeatServes(v, b, team) <= m
    requires Crowd(v.hall.flights, team) <= k && Crowd(Beaten(s, l, v, b).hall.flights, team) <= k
    ensures Plays(l, v, Beaten(s, l, v, b), BeatMoves(s, l, v, b, team), BeatServes(v, b, team), team, k, m)
  {
    match b
    case Query(t, now) =>
      TouchedBuckets(l, v.hashes, t, team, now, 0);
      if t == team {
        OneMovePlays(l, v, Beaten(s, l, v, b), Look(now), 0, team, k, m);
      } else {
        NoMovesPlay(l, v, Beaten(s, l, v, b), team, k, m);
      }
    case Beat(tick, _, _) =>
      if tick.Moves? && tick.i < |v.hall.flights| {
        StepPlays(s, l, v, tick.i, b, team, k, m);
        SteppingFlights(s, l, v, tick.i, b, team);
      } else {
        NoMovesPlay(l, v, Beaten(s, l, v, b), team, k, m);
      }
  }

  // ---------------------------------------------------------------- runs

  lemma PlaysOn(l: Limits, v: Vault, a: seq<Move>, v1: Vault, sa: nat, b: seq<Move>, v2: Vault, sb: nat,
                team: string, k: nat, m: nat)
    requires l.Capped() && Plays(l, v, v1, a, sa, team, k, m) && Plays(l, v1, v2, b, sb, team, k, m)
    ensures Plays(l, v, v2, a + b, sa + sb, team, k, m)
  {
    PlayedAppend(l, Gate(Bucket(v.hashes, team), Crowd(v.hall.flights, team)), a, b, k, m);
    SumsAppend(a, b);
    SpentAppend(a, b);
  }

  // Under every interleaving, requests are for any team a run of the gate with as many requests in flight as overlap:
  // they leave the team's bucket as that run does, and what was deducted and served is what it spent and served.
  lemma {:induction false} OverlapsAreGateRuns(
      s: Setup, l: Limits, v: Vault, beats: seq<Beat>, team: string, k: nat, m: nat)
    requires s.Valid() && s.wiring.budget && l.Capped() && team != "" && Calm(s, l, v, beats, team, k, m)
    ensures Plays(l, v, VaultAfter(s, l, v, beats), VaultMoves(s, l, v, beats, team),
                  VaultServes(s, l, v, beats, team), team, k, m)
    decreases beats
  {
    if beats == [] {
      NoMovesPlay(l, v, v, team, k, m);
    } else {
      var b, rest := beats[0], beats[1..];
      var v' := Beaten(s, l, v, b);
      BeatPlays(s, l, v, b, team, k, m);
      OverlapsAreGateRuns(s, l, v', rest, team, k, m);
      PlaysOn(l, v, BeatMoves(s, l, v, b, team), v', BeatServes(v, b, team),
              VaultMoves(s, l, v', rest, team), VaultAfter(s, l, v', rest), VaultServes(s, l, v', rest, team),
              team, k, m);
    }
  }

  function NewVault(calls: seq<(Request, World)>): Vault { Vault(Opening(calls), map[]) }

  lemma {:induction false} NobodyIsUnsettled(flights: seq<Flight>, team: string)
    requires forall f <- flights :: f.phase.Arrived?
    ensures Crowd(flights, team) == 0
  {
    if flights != [] { NobodyIsUnsettled(flights[1..], team); }
  }

  lemma StartsClosed(calls: seq<(Request, World)>, team: string)
    ensures var v := NewVault(calls); Gate(Bucket(v.hashes, team), Crowd(v.hall.flights, team)) == CLOSED
  {
    NobodyIsUnsettled(Opening(calls).flights, team);
  }

  // With at most k requests of a team overlapping, m tokens each and f of their checks unanswered, its balance stays
  // between 1 - (k + f) m and the budget under every interleaving, and what the gateway deducted is what the bucket
  // was charged.
  lemma OverlapsKeepTheFloor(
      s: Setup, l: Limits, calls: seq<(Request, World)>, beats: seq<Beat>, team: string, k: nat, m: nat)
    requires s.Valid() && s.wiring.budget && l.Capped() && team != ""
    requires Calm(s, l, NewVault(calls), beats, team, k, m)
    ensures var v, moves := VaultAfter(s, l, NewVault(calls), beats), VaultMoves(s, l, NewVault(calls), beats, team);
            var level := Level(l, Gate(Bucket(v.hashes, team), 0));
            && (1 - (k + Unchecked(moves)) * m) as real <= level <= l.budget as real
            && Metering.Deducted(v.hall.state.deductions, team) == Spent(moves)
            && VaultServes(s, l, NewVault(calls), beats, team) <= Spent(moves) + Losses(moves) * m
  {
    var moves := VaultMoves(s, l, NewVault(calls), beats, team);
    StartsClosed(calls, team);
    OverlapsAreGateRuns(s, l, NewVault(calls), beats, team, k, m);
    BalanceFloor(l, moves, k, m);
    ServedIsSpentOrLost(l, CLOSED, moves, k, m);
    TokensIs(Losses(moves), m);
  }

  // The store is reached at times in order, from `from` up to `to`.
  predicate InTime(beats: seq<Beat>, from: real, to: real)
    decreases beats
  {
    if beats == [] then from <= to else from <= beats[0].now && InTime(beats[1..], beats[0].now, to)
  }

  lemma BeatIsTimed(s: Setup, l: Limits, v: Vault, b: Beat, team: string, from: real)
    requires s.Valid() && l.Capped() && from <= b.now
    ensures Timed(BeatMoves(s, l, v, b, team), from, b.now)
  {
    var a := BeatMoves(s, l, v, b, team);
    assert |a| <= 1 && forall mv <- a :: Stores(mv) ==> mv.now == b.now;
    if a != [] { assert a == [a[0]] && a[1..] == []; }
  }

  lemma {:induction false} InTimeIsTimed(
      s: Setup, l: Limits, v: Vault, beats: seq<Beat>, team: string, from: real, to: real)
    requires s.Valid() && l.Capped() && InTime(beats, from, to)
    ensures Timed(VaultMoves(s, l, v, beats, team), from, to)
    decreases beats
  {
    if beats != [] {
      var a, now := BeatMoves(s, l, v, beats[0], team), beats[0].now;
      InTimeIsTimed(s, l, Beaten(s, l, v, beats[0]), beats[1..], team, now, to);
      BeatIsTimed(s, l, v, beats[0], team, from);
      TimedJoins(a, VaultMoves(s, l, Beaten(s, l, v, beats[0]), beats[1..], team), from, now, to);
    }
  }
}
