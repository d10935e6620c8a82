// Concurrent requests through the budget gate: each is checked before it is served and deducted after.
module BudgetGate {
  import opened TokenBudget

  // One team's key, and its requests that were let through and have not finished.
  datatype Gate = Gate(stored: Stored, inFlight: nat)

  datatype Move =
    | Check(now: real)                  // let through if the balance is at least one token
    | Unanswered                        // the store does not answer a check: the request is let through all the same
    | Finish(now: real, tokens: nat)    // a served request deducts what it used
    | Lost(tokens: nat)                 // a served request's deduction does not reach the store
    | Quit                              // a request that was let through fails and deducts nothing
    | Look(now: real)                   // a usage query

  const CLOSED := Gate(Missing, 0)

  function Moved(l: Limits, g: Gate, mv: Move): Gate
    requires l.Capped()
  {
    match mv
    case Check(now) =>
      var a := Script(l, g.stored, now, 0);
      Gate(a.stored, if a.allowed then g.inFlight + 1 else g.inFlight)
    case Finish(now, tokens) =>
      Gate(if tokens > 0 then Script(l, g.stored, now, tokens).stored else g.stored,
           if g.inFlight > 0 then g.inFlight - 1 else 0)
    case Unanswered => g.(inFlight := g.inFlight + 1)
    case Lost(_) => g.(inFlight := if g.inFlight > 0 then g.inFlight - 1 else 0)
    case Quit => g.(inFlight := if g.inFlight > 0 then g.inFlight - 1 else 0)
    case Look(now) => g.(stored := Script(l, g.stored, now, 0).stored)
  }

  predicate Ends(mv: Move) { mv.Finish? || mv.Lost? || mv.Quit? }

  // The move reaches the store.
  predicate Stores(mv: Move) { mv.Check? || mv.Look? || (mv.Finish? && mv.tokens > 0) }

  // At most k requests are let through and unfinished at a time, and none uses more than m tokens.
  predicate Within(l: Limits, g: Gate, mv: Move, k: nat, m: nat)
    requires l.Capped()
  {
    && (Ends(mv) ==> g.inFlight > 0)
    && (mv.Finish? || mv.Lost? ==> mv.tokens <= m)
    && Moved(l, g, mv).inFlight <= k
  }

  predicate AllWithin(l: Limits, g: Gate, moves: seq<Move>, k: nat, m: nat)
    requires l.Capped()
    decreases moves
  {
    moves == [] || (Within(l, g, moves[0], k, m) && AllWithin(l, Moved(l, g, moves[0]), moves[1..], k, m))
  }

  function Played(l: Limits, g: Gate, moves: seq<Move>): Gate
    requires l.Capped()
    decreases moves
  {
    if moves == [] then g else Played(l, Moved(l, g, moves[0]), moves[1..])
  }

  function Level(l: Limits, g: Gate): real { if g.stored.Held? then g.stored.tokens else l.budget as real }

  // How many checks went unanswered.
  function Unchecked(moves: seq<Move>): nat
    decreases moves
  {
    if moves == [] then 0 else (if moves[0].Unanswered? then 1 else 0) + Unchecked(moves[1..])
  }

  // What n requests of m tokens use.
  function Tokens(n: nat, m: nat): nat { if n == 0 then 0 else m + Tokens(n - 1, m) }

  lemma {:induction false} TokensIs(n: nat, m: nat)
    ensures Tokens(n, m) == n * m
  {
    if n > 0 {
      TokensIs(n - 1, m);
      assert n * m == m + (n - 1) * m;
    }
  }

  lemma {:induction false} TokensAdd(a: nat, b: nat, m: nat)
    ensures Tokens(a + b, m) == Tokens(a, m) + Tokens(b, m)
  {
    if a > 0 { TokensAdd(a - 1, b, m); }
  }

  predicate Afloat(l: Limits, g: Gate, k: nat, f: nat, m: nat) {
    g.inFlight <= k && (1 - Tokens(k + f - g.inFlight, m)) as real <= Level(l, g) <= l.budget as real
  }

  lemma BalanceIsHigher(l: Limits, st: Stored, now: real)
    requires l.Capped()
    ensures Balance(l, st, now) <= l.budget as real
    ensures st.Held? && st.tokens <= l.budget as real ==> st.tokens <= Balance(l, st, now)
  {
    if st.Held? { RefillAdds(l, if now < st.ts then 0.0 else now - st.ts, 0.0); }
  }

  // Each move keeps the balance above the lowest level that the requests in flight can leave, when k are allowed
  // at a time and f of those let through so far were not checked.
  lemma MoveStaysAfloat(l: Limits, g: Gate, mv: Move, k: nat, f: nat, m: nat)
    requires l.Capped() && Afloat(l, g, k, f, m) && Within(l, g, mv, k, m)
    ensures Afloat(l, Moved(l, g, mv), k, f + Unchecked([mv]), m)
  {
    assert Unchecked([mv]) == if mv.Unanswered? then 1 else 0;
    if Ends(mv) { TokensAdd(1, k + f - g.inFlight, m); }
    if Stores(mv) { BalanceIsHigher(l, g.stored, mv.now); }
  }

  lemma {:induction false} StaysAfloat(l: Limits, g: Gate, moves: seq<Move>, k: nat, f: nat, m: nat)
    requires l.Capped() && Afloat(l, g, k, f, m) && AllWithin(l, g, moves, k, m)
    ensures Afloat(l, Played(l, g, moves), k, f + Unchecked(moves), m)
    decreases moves
  {
    if moves != [] {
      var f1 := f + Unchecked([moves[0]]);
      assert Unchecked([moves[0]]) == if moves[0].Unanswered? then 1 else 0;
      MoveStaysAfloat(l, g, moves[0], k, f, m);
      StaysAfloat(l, Moved(l, g, moves[0]), moves[1..], k, f1, m);
    }
  }

  // With at most k requests in flight, m tokens each and f checks unanswered, the balance never falls below
  // 1 - (k + f) m nor rises above the budget, whatever the clock does, whenever the key expires and
  // whichever deductions are lost.
  lemma BalanceFloor(l: Limits, moves: seq<Move>, k: nat, m: nat)
    requires l.Capped() && AllWithin(l, CLOSED, moves, k, m)
    ensures var g := Played(l, CLOSED, moves);
            (1 - (k + Unchecked(moves)) * m) as real <= Level(l, g) <= l.budget as real && g.inFlight <= k
  {
    StaysAfloat(l, CLOSED, moves, k, 0, m);
    var f, n := Unchecked(moves), Played(l, CLOSED, moves).inFlight;
    TokensAdd(k + f - n, n, m);
    TokensIs(k + f, m);
  }

  // ------------------------------------------------------------------------ what a run serves

  // Tokens deducted.
  function Spent(moves: seq<Move>): nat
    decreases moves
  {
    if moves == [] then 0 else (if moves[0].Finish? then moves[0].tokens else 0) + Spent(moves[1..])
  }

  // Tokens served: those deducted, and those whose deduction was lost.
  function ServedTokens(moves: seq<Move>): nat
    decreases moves
  {
    if moves == [] then 0
    else (if moves[0].Finish? || moves[0].Lost? then moves[0].tokens else 0) + ServedTokens(moves[1..])
  }

  function Losses(moves: seq<Move>): nat
    decreases moves
  {
    if moves == [] then 0 else (if moves[0].Lost? then 1 else 0) + Losses(moves[1..])
  }

  lemma {:induction false} ServedIsSpentOrLost(l: Limits, g: Gate, moves: seq<Move>, k: nat, m: nat)
    requires l.Capped() && AllWithin(l, g, moves, k, m)
    ensures ServedTokens(moves) <= Spent(moves) + Tokens(Losses(moves), m)
    decreases moves
  {
    if moves != [] {
      var mv, rest := moves[0], moves[1..];
      ServedIsSpentOrLost(l, Moved(l, g, mv), rest, k, m);
      assert mv.Lost? ==> mv.tokens <= m;
    }
  }

  // When a move happens, the one before it having been at `from`.
  function Time(mv: Move, from: real): real { if Stores(mv) then mv.now else from }

  // The times of the moves are in order, from `from` up to `to`.
  predicate Timed(moves: seq<Move>, from: real, to: real)
    decreases moves
  {
    if moves == [] then from <= to
    else from <= Time(moves[0], from) && Timed(moves[1..], Time(moves[0], from), to)
  }

  // Every deduction is of at least one token.
  predicate Charging(moves: seq<Move>) { forall mv <- moves :: mv.Finish? || mv.Lost? ==> mv.tokens > 0 }

  // ---------------------------------------------------------------- runs that overdraw

  function At(l: Limits, t: real, tokens: int, n: nat): Gate { Gate(Held(tokens as real, t, t + l.Ttl()), n) }

  predicate AllAt(moves: seq<Move>, t: real) { forall mv <- moves :: Stores(mv) ==> mv.now == t }

  // What moves served, how many of them were unanswered checks, and how many lost deductions.
  datatype Tally = Tally(served: nat, unchecked: nat, losses: nat)
  {
    function Plus(t: Tally): Tally { Tally(served + t.served, unchecked + t.unchecked, losses + t.losses) }
  }

  function TallyOf(moves: seq<Move>): Tally { Tally(ServedTokens(moves), Unchecked(moves), Losses(moves)) }

  // Moves at one time that take the gate from g to g'.
  ghost predicate Goes(l: Limits, t: real, k: nat, m: nat, g: Gate, moves: seq<Move>, g': Gate, tally: Tally)
    requires l.Capped()
  {
    && AllWithin(l, g, moves, k, m) && Played(l, g, moves) == g'
    && AllAt(moves, t) && TallyOf(moves) == tally && Charging(moves)
  }

  // What holds of each move of two runs holds of each move of both.
  lemma EachOfBoth(a: seq<Move>, b: seq<Move>, t: real)
    requires AllAt(a, t) && AllAt(b, t) && Charging(a) && Charging(b)
    ensures AllAt(a + b, t) && Charging(a + b)
  {}

  lemma GoesOn(l: Limits, t: real, k: nat, m: nat, g: Gate, a: seq<Move>, g1: Gate, ta: Tally,
               b: seq<Move>, g2: Gate, tb: Tally)
    requires l.Capped() && Goes(l, t, k, m, g, a, g1, ta) && Goes(l, t, k, m, g1, b, g2, tb)
    ensures Goes(l, t, k, m, g, a + b, g2, ta.Plus(tb))
  {
    PlayedAppend(l, g, a, b, k, m);
    TallyAppend(a, b);
    EachOfBoth(a, b, t);
  }

  // Moves at one time that take the balance from x to y, with nothing in flight before and after.
  ghost predicate Brings(l: Limits, t: real, k: nat, m: nat, x: int, moves: seq<Move>, y: int, tally: Tally)
    requires l.Capped()
  {
    Goes(l, t, k, m, At(l, t, x, 0), moves, At(l, t, y, 0), tally)
  }

  lemma AtOnce(l: Limits, t: real, tokens: int, n: nat, used: nat)
    requires l.Capped() && tokens <= l.budget
    ensures Moved(l, At(l, t, tokens, n), Check(t)) == At(l, t, tokens, if tokens >= 1 then n + 1 else n)
    ensures n > 0 ==> Moved(l, At(l, t, tokens, n), Finish(t, used)) == At(l, t, tokens - used, n - 1)
  {
    RefillAdds(l, 0.0, 0.0);
  }

  lemma {:induction false} PlayedAppend(l: Limits, g: Gate, a: seq<Move>, b: seq<Move>, k: nat, m: nat)
    requires l.Capped() && AllWithin(l, g, a, k, m) && AllWithin(l, Played(l, g, a), b, k, m)
    ensures AllWithin(l, g, a + b, k, m) && Played(l, g, a + b) == Played(l, Played(l, g, a), b)
    decreases a
  {
    if a == [] {
      assert a + b == b;
    } else {
      assert (a + b)[0] == a[0] && (a + b)[1..] == a[1..] + b;
      PlayedAppend(l, Moved(l, g, a[0]), a[1..], b, k, m);
    }
  }

  lemma {:induction false} ServedTokensAppend(a: seq<Move>, b: seq<Move>)
    ensures ServedTokens(a + b) == ServedTokens(a) + ServedTokens(b)
    decreases |a|
  {
    if a == [] {
      assert a + b == b;
    } else {
      assert (a + b)[0] == a[0] && (a + b)[1..] == a[1..] + b;
      ServedTokensAppend(a[1..], b);
    }
  }

  lemma {:induction false} UncheckedAppend(a: seq<Move>, b: seq<Move>)
    ensures Unchecked(a + b) == Unchecked(a) + Unchecked(b)
    decreases |a|
  {
    if a == [] {
      assert a + b == b;
    } else {
      assert (a + b)[0] == a[0] && (a + b)[1..] == a[1..] + b;
      UncheckedAppend(a[1..], b);
    }
  }

  lemma {:induction false} LossesAppend(a: seq<Move>, b: seq<Move>)
    ensures Losses(a + b) == Losses(a) + Losses(b)
    decreases |a|
  {
    if a == [] {
      assert a + b == b;
    } else {
      assert (a + b)[0] == a[0] && (a + b)[1..] == a[1..] + b;
      LossesAppend(a[1..], b);
    }
  }

  lemma {:induction false} SpentAppend(a: seq<Move>, b: seq<Move>)
    ensures Spent(a + b) == Spent(a) + Spent(b)
    decreases a
  {
    if a == [] {
      assert a + b == b;
    } else {
      assert (a + b)[0] == a[0] && (a + b)[1..] == a[1..] + b;
      SpentAppend(a[1..], b);
    }
  }

  lemma {:induction false} SumsAppend(a: seq<Move>, b: seq<Move>)
    ensures ServedTokens(a + b) == ServedTokens(a) + ServedTokens(b)
    ensures Unchecked(a + b) == Unchecked(a) + Unchecked(b)
    ensures Losses(a + b) == Losses(a) + Losses(b)
  {
    ServedTokensAppend(a, b);
    UncheckedAppend(a, b);
    LossesAppend(a, b);
  }

  lemma PlusByParts(t: Tally, a: Tally, b: Tally)
    requires t.served == a.served + b.served
    requires t.unchecked == a.unchecked + b.unchecked && t.losses == a.losses + b.losses
    ensures t == a.Plus(b)
  {}

  lemma {:induction false} TallyAppend(a: seq<Move>, b: seq<Move>)
    ensures TallyOf(a + b) == TallyOf(a).Plus(TallyOf(b))
  {
    SumsAppend(a, b);
    PlusByParts(TallyOf(a + b), TallyOf(a), TallyOf(b));
  }

  lemma Then(
      l: Limits, t: real, k: nat, m: nat, x: int, a: seq<Move>, y: int, ta: Tally, b: seq<Move>, z: int, tb: Tally)
    requires l.Capped() && Brings(l, t, k, m, x, a, y, ta) && Brings(l, t, k, m, y, b, z, tb)
    ensures Brings(l, t, k, m, x, a + b, z, ta.Plus(tb))
  {
    GoesOn(l, t, k, m, At(l, t, x, 0), a, At(l, t, y, 0), ta, b, At(l, t, z, 0), tb);
  }

  // One checked request.
  lemma ServesOne(l: Limits, t: real, k: nat, m: nat, x: int, used: nat)
    requires l.Capped() && 1 <= x <= l.budget && k > 0 && 0 < used <= m
    ensures Brings(l, t, k, m, x, [Check(t), Finish(t, used)], x - used, Tally(used, 0, 0))
  {
    AtOnce(l, t, x, 0, 0);
    AtOnce(l, t, x, 1, used);
    TallyOne(Check(t));
    TallyOne(Finish(t, used));
    TwoMoves(l, t, k, m, x, Check(t), Finish(t, used), x - used);
  }

  // One checked request whose deduction is lost.
  lemma LosesOne(l: Limits, t: real, k: nat, m: nat, x: int)
    requires l.Capped() && 1 <= x <= l.budget && k > 0 && m > 0
    ensures Brings(l, t, k, m, x, [Check(t), Lost(m)], x, Tally(m, 0, 1))
  {
    AtOnce(l, t, x, 0, 0);
    TallyOne(Check(t));
    TallyOne(Lost(m));
    TwoMoves(l, t, k, m, x, Check(t), Lost(m), x);
  }

  // One request let through unchecked.
  lemma UnpaidOne(l: Limits, t: real, k: nat, m: nat, x: int)
    requires l.Capped() && x <= l.budget && k > 0 && m > 0
    ensures Brings(l, t, k, m, x, [Unanswered, Finish(t, m)], x - m, Tally(m, 1, 0))
  {
    AtOnce(l, t, x, 1, m);
    TallyOne(Unanswered);
    TallyOne(Finish(t, m));
    TwoMoves(l, t, k, m, x, Unanswered, Finish(t, m), x - m);
  }

  lemma OneMove(l: Limits, g: Gate, mv: Move, k: nat, m: nat)
    requires l.Capped()
    ensures AllWithin(l, g, [mv], k, m) <==> Within(l, g, mv, k, m)
    ensures Played(l, g, [mv]) == Moved(l, g, mv)
  {
    assert [mv][1..] == [];
    assert Played(l, Moved(l, g, mv), []) == Moved(l, g, mv);
  }

  lemma TallyOne(mv: Move)
    ensures TallyOf([mv]) ==
            Tally(if mv.Finish? || mv.Lost? then mv.tokens else 0, if mv.Unanswered? then 1 else 0,
                  if mv.Lost? then 1 else 0)
  {
    assert [mv][1..] == [];
    assert TallyOf([]) == Tally(0, 0, 0);
  }

  lemma TwoMoves(l: Limits, t: real, k: nat, m: nat, x: int, a: Move, b: Move, y: int)
    requires l.Capped() && k > 0 && !Ends(a) && Ends(b) && (b.Finish? || b.Lost? ==> 0 < b.tokens <= m)
    requires Moved(l, At(l, t, x, 0), a) == At(l, t, x, 1) && Moved(l, At(l, t, x, 1), b) == At(l, t, y, 0)
    requires (Stores(a) ==> a.now == t) && (Stores(b) ==> b.now == t)
    ensures Brings(l, t, k, m, x, [a, b], y, TallyOf([a]).Plus(TallyOf([b])))
  {
    assert [a, b] == [a] + [b];
    OneMove(l, At(l, t, x, 0), a, k, m);
    OneMove(l, At(l, t, x, 1), b, k, m);
    PlayedAppend(l, At(l, t, x, 0), [a], [b], k, m);
    EachOfBoth([a], [b], t);
    TallyAppend([a], [b]);
  }

  lemma NoMoves(l: Limits, t: real, k: nat, m: nat, x: int)
    requires l.Capped()
    ensures Brings(l, t, k, m, x, [], x, Tally(0, 0, 0))
  {}

  // Requests one at a time spend a balance down to any other.
  lemma {:induction false} SpendDown(l: Limits, t: real, k: nat, m: nat, x: int, y: int) returns (moves: seq<Move>)
    requires l.Capped() && 0 <= y <= x <= l.budget && k > 0 && m > 0
    ensures Brings(l, t, k, m, x, moves, y, Tally(x - y, 0, 0))
    decreases x - y
  {
    if x == y {
      NoMoves(l, t, k, m, x);
      moves := [];
    } else {
      var used := if m < x - y then m else x - y;
      ServesOne(l, t, k, m, x, used);
      var rest := SpendDown(l, t, k, m, x - used, y);
      moves := [Check(t), Finish(t, used)] + rest;
      Then(l, t, k, m, x, [Check(t), Finish(t, used)], x - used, Tally(used, 0, 0), rest, y, Tally(x - used - y, 0, 0));
    }
  }

  lemma {:induction false} LoseMany(l: Limits, t: real, k: nat, m: nat, x: int, g: nat) returns (moves: seq<Move>)
    requires l.Capped() && 1 <= x <= l.budget && k > 0 && m > 0
    ensures Brings(l, t, k, m, x, moves, x, Tally(Tokens(g, m), 0, g))
    decreases g
  {
    if g == 0 {
      NoMoves(l, t, k, m, x);
      moves := [];
    } else {
      LosesOne(l, t, k, m, x);
      var rest := LoseMany(l, t, k, m, x, g - 1);
      moves := [Check(t), Lost(m)] + rest;
      Then(l, t, k, m, x, [Check(t), Lost(m)], x, Tally(m, 0, 1), rest, x, Tally(Tokens(g - 1, m), 0, g - 1));
    }
  }

  lemma {:induction false} UnpaidMany(l: Limits, t: real, k: nat, m: nat, x: int, f: nat) returns (moves: seq<Move>)
    requires l.Capped() && x <= l.budget && k > 0 && m > 0
    ensures Brings(l, t, k, m, x, moves, x - Tokens(f, m), Tally(Tokens(f, m), f, 0))
    decreases f
  {
    if f == 0 {
      NoMoves(l, t, k, m, x);
      moves := [];
    } else {
      UnpaidOne(l, t, k, m, x);
      var rest := UnpaidMany(l, t, k, m, x - m, f - 1);
      moves := [Unanswered, Finish(t, m)] + rest;
      Then(l, t, k, m, x, [Unanswered, Finish(t, m)], x - m, Tally(m, 1, 0),
           rest, x - Tokens(f, m), Tally(Tokens(f - 1, m), f - 1, 0));
    }
  }

  function Checks(n: nat, t: real): seq<Move> { if n == 0 then [] else [Check(t)] + Checks(n - 1, t) }

  function Finishes(n: nat, t: real, m: nat): seq<Move> {
    if n == 0 then [] else [Finish(t, m)] + Finishes(n - 1, t, m)
  }

  lemma {:induction false} ChecksLetIn(l: Limits, t: real, k: nat, m: nat, x: int, i: nat, n: nat)
    requires l.Capped() && 1 <= x <= l.budget && i + n <= k
    ensures var moves := Checks(n, t);
            Goes(l, t, k, m, At(l, t, x, i), moves, At(l, t, x, i + n), Tally(0, 0, 0))
    decreases n
  {
    if n > 0 {
      AtOnce(l, t, x, i, 0);
      ChecksLetIn(l, t, k, m, x, i + 1, n - 1);
      assert Checks(n, t)[1..] == Checks(n - 1, t);
    }
  }

  lemma {:induction false} FinishesDrain(l: Limits, t: real, k: nat, m: nat, x: int, n: nat)
    requires l.Capped() && x <= l.budget && n <= k && m > 0
    ensures var moves := Finishes(n, t, m);
            Goes(l, t, k, m, At(l, t, x, n), moves, At(l, t, x - Tokens(n, m), 0), Tally(Tokens(n, m), 0, 0))
    decreases n
  {
    if n > 0 {
      AtOnce(l, t, x, n, m);
      FinishesDrain(l, t, k, m, x - m, n - 1);
      assert Finishes(n, t, m)[1..] == Finishes(n - 1, t, m);
    }
  }

  // As many requests at once as may be in flight.
  lemma Burst(l: Limits, t: real, k: nat, m: nat, x: int) returns (moves: seq<Move>)
    requires l.Capped() && 1 <= x <= l.budget && m > 0
    ensures Brings(l, t, k, m, x, moves, x - Tokens(k, m), Tally(Tokens(k, m), 0, 0))
  {
    ChecksLetIn(l, t, k, m, x, 0, k);
    FinishesDrain(l, t, k, m, x, k);
    moves := Checks(k, t) + Finishes(k, t, m);
    GoesOn(l, t, k, m, At(l, t, x, 0), Checks(k, t), At(l, t, x, k), Tally(0, 0, 0),
           Finishes(k, t, m), At(l, t, x - Tokens(k, m), 0), Tally(Tokens(k, m), 0, 0));
  }

  // From one token: let k requests overdraw at once and f more unchecked.
  lemma OverdrawOne(l: Limits, t: real, k: nat, f: nat, m: nat) returns (moves: seq<Move>)
    requires l.Capped() && k > 0 && m > 0
    ensures Brings(l, t, k, m, 1, moves, 1 - Tokens(k + f, m), Tally(Tokens(k + f, m), f, 0))
  {
    var a := Burst(l, t, k, m, 1);
    var b := UnpaidMany(l, t, k, m, 1 - Tokens(k, m), f);
    TokensAdd(k, f, m);
    Then(l, t, k, m, 1, a, 1 - Tokens(k, m), TallyOf(a), b, 1 - Tokens(k + f, m), TallyOf(b));
    moves := a + b;
  }

  // Spend down to one token, lose g deductions, and overdraw.
  lemma Overdraw(l: Limits, t: real, k: nat, f: nat, g: nat, m: nat, x: int) returns (moves: seq<Move>)
    requires l.Capped() && k > 0 && m > 0 && 1 <= x <= l.budget
    ensures Brings(l, t, k, m, x, moves, 1 - Tokens(k + f, m), Tally(x - 1 + Tokens(k + f + g, m), f, g))
  {
    var a := SpendDown(l, t, k, m, x, 1);
    var b := LoseMany(l, t, k, m, 1, g);
    var c := OverdrawOne(l, t, k, f, m);
    TokensAdd(k + f, g, m);
    Then(l, t, k, m, x, a, 1, TallyOf(a), b, 1, TallyOf(b));
    Then(l, t, k, m, x, a + b, 1, TallyOf(a).Plus(TallyOf(b)), c, 1 - Tokens(k + f, m), TallyOf(c));
    moves := a + b + c;
  }

  lemma Opens(l: Limits, t: real, k: nat, m: nat)
    requires l.Capped()
    ensures AllWithin(l, CLOSED, [Look(t)], k, m) && Played(l, CLOSED, [Look(t)]) == At(l, t, l.budget, 0)
    ensures TallyOf([Look(t)]) == Tally(0, 0, 0)
  {
    RefillAdds(l, 0.0, 0.0);
    OneMove(l, CLOSED, Look(t), k, m);
    TallyOne(Look(t));
  }

  // ---------------------------------------------------------------- the floor is exact

  // The floor is the best one: k concurrent requests of m tokens and f unchecked ones can leave exactly
  // 1 - (k + f) m.
  lemma FloorIsReached(l: Limits, k: nat, f: nat, m: nat) returns (moves: seq<Move>)
    requires l.Capped() && k > 0 && m > 0
    ensures AllWithin(l, CLOSED, moves, k, m) && Unchecked(moves) == f
    ensures Charging(moves)
    ensures Level(l, Played(l, CLOSED, moves)) == (1 - (k + f) * m) as real
  {
    var rest := Overdraw(l, 0.0, k, f, 0, m, l.budget);
    Opens(l, 0.0, k, m);
    PlayedAppend(l, CLOSED, [Look(0.0)], rest, k, m);
    TallyAppend([Look(0.0)], rest);
    TokensIs(k + f, m);
    moves := [Look(0.0)] + rest;
  }

  // No run with at most f checks unanswered takes the balance below `floor`.
  ghost predicate NeverBelow(l: Limits, k: nat, f: nat, m: nat, floor: int)
    requires l.Capped()
  {
    forall moves :: AllWithin(l, CLOSED, moves, k, m) && Unchecked(moves) <= f ==>
      Level(l, Played(l, CLOSED, moves)) >= floor as real
  }

  lemma FloorIsExact(l: Limits, k: nat, f: nat, m: nat, floor: int)
    requires l.Capped() && k > 0 && m > 0
    ensures NeverBelow(l, k, f, m, floor) <==> floor <= 1 - (k + f) * m
  {
    if floor <= 1 - (k + f) * m {
      forall moves | AllWithin(l, CLOSED, moves, k, m) && Unchecked(moves) <= f
        ensures Level(l, Played(l, CLOSED, moves)) >= floor as real
      {
        BalanceFloor(l, moves, k, m);
        TokensAdd(k + Unchecked(moves), f - Unchecked(moves), m);
        TokensIs(k + Unchecked(moves), m);
        TokensIs(k + f, m);
      }
    } else {
      var moves := FloorIsReached(l, k, f, m);
      assert Level(l, Played(l, CLOSED, moves)) < floor as real;
    }
  }

  // The overshoot is at most one request's tokens, so that the balance stays at or above -m, exactly when
  // requests do not overlap and every check is answered; or when requests use one token and there are two.
  lemma OvershootIsOneRequestExactly(l: Limits, k: nat, f: nat, m: nat)
    requires l.Capped() && k > 0 && m > 0
    ensures NeverBelow(l, k, f, m, 0 - m) <==> (k == 1 && f == 0) || (m == 1 && k + f == 2)
  {
    FloorIsExact(l, k, f, m, 0 - m);
    TokensIs(k + f, m);
    TokensAdd(1, k + f - 1, m);
    if k + f >= 2 { TokensAdd(2, k + f - 2, m); }
    if k + f >= 3 { TokensAdd(3, k + f - 3, m); }
    assert Tokens(1, m) == m + Tokens(0, m) && Tokens(2, m) == m + Tokens(1, m) && Tokens(3, m) == m + Tokens(2, m);
  }

  // ------------------------------------------------------------------------ spend

  // Until `to` the key does not expire, or it is already gone at `from`.
  predicate Kept(l: Limits, st: Stored, from: real, to: real) {
    !Live(st, from) || (st.ts <= from && to <= st.expires)
  }

  lemma BalanceGrows(l: Limits, st: Stored, from: real, now: real)
    requires l.Capped() && from <= now && Kept(l, st, from, now)
    ensures Balance(l, st, from) <= Balance(l, st, now) <= Balance(l, st, from) + l.Refill(now - from)
  {
    RefillAdds(l, now - from, 0.0);
    if Live(st, from) {
      RefillAdds(l, from - st.ts, now - from);
      assert (from - st.ts) + (now - from) == now - st.ts;
    } else {
      BalanceIsHigher(l, st, now);
    }
  }

  // No move finds the key expired since the move before it.
  predicate Unbroken(l: Limits, g: Gate, moves: seq<Move>, from: real)
    requires l.Capped()
    decreases moves
  {
    moves == [] ||
    var now := Time(moves[0], from);
    Kept(l, g.stored, from, now) && Unbroken(l, Moved(l, g, moves[0]), moves[1..], now)
  }

  lemma {:induction false} TimedEnds(moves: seq<Move>, from: real, to: real)
    requires Timed(moves, from, to)
    ensures from <= to
    decreases moves
  {
    if moves != [] { TimedEnds(moves[1..], Time(moves[0], from), to); }
  }

  // A move at `now` is paid out of the balance then, and keeps it above `lo`, less m for each of the k requests
  // allowed that is not in flight; letting one through unchecked lowers `lo` itself.
  lemma MovePays(l: Limits, g: Gate, mv: Move, now: real, k: nat, m: nat, lo: real)
    requires l.Capped() && Within(l, g, mv, k, m) && now == Time(mv, now) && lo <= 1.0 && g.inFlight <= k
    requires Balance(l, g.stored, now) >= lo - Tokens(k - g.inFlight, m) as real
    ensures var g' := Moved(l, g, mv);
            && Spent([mv]) as real + Balance(l, g'.stored, now) == Balance(l, g.stored, now)
            && Balance(l, g'.stored, now) >=
               lo - (if mv.Unanswered? then m as real else 0.0) - Tokens(k - g'.inFlight, m) as real
  {
    BalanceIsHigher(l, g.stored, now);
    RefillAdds(l, 0.0, 0.0);
    var g' := Moved(l, g, mv);
    assert Spent([mv]) == if mv.Finish? then mv.tokens else 0;
    if Ends(mv) { TokensAdd(1, k - g.inFlight, m); }
  }

  // Spending is paid out of the balance at the start, the refill since and what the requests in flight and
  // the unchecked ones overdraw.
  lemma {:induction false} SpendIsPaidFor(
      l: Limits, g: Gate, moves: seq<Move>, from: real, to: real, k: nat, m: nat, lo: real)
    requires l.Capped() && AllWithin(l, g, moves, k, m) && g.inFlight <= k && lo <= 1.0
    requires Timed(moves, from, to) && Unbroken(l, g, moves, from)
    requires Balance(l, g.stored, from) >= lo - Tokens(k - g.inFlight, m) as real
    ensures Spent(moves) as real <=
            Balance(l, g.stored, from) + l.Refill(to - from) - lo + Tokens(k + Unchecked(moves), m) as real
    decreases moves
  {
    TimedEnds(moves, from, to);
    if moves == [] {
      RefillAdds(l, to - from, 0.0);
      TokensAdd(k - g.inFlight, g.inFlight, m);
    } else {
      var mv, rest := moves[0], moves[1..];
      var now := Time(mv, from);
      var g' := Moved(l, g, mv);
      var lo' := lo - if mv.Unanswered? then m as real else 0.0;
      BalanceGrows(l, g.stored, from, now);
      TimedEnds(rest, now, to);
      MovePays(l, g, mv, now, k, m, lo);
      SpendIsPaidFor(l, g', rest, now, to, k, m, lo');
      RefillAdds(l, now - from, to - now);
      assert (now - from) + (to - now) == to - from;
      assert Spent([mv]) == if mv.Finish? then mv.tokens else 0;
      TokensAdd(if mv.Unanswered? then 1 else 0, k + Unchecked(rest), m);
    }
  }

  lemma StretchIsPaidFor(l: Limits, g: Gate, moves: seq<Move>, from: real, to: real, k: nat, m: nat)
    requires l.Capped() && AllWithin(l, g, moves, k, m) && g.inFlight <= k
    requires Timed(moves, from, to) && Unbroken(l, g, moves, from)
    ensures Spent(moves) as real <=
            l.budget as real + l.Refill(to - from) + (Tokens(k + Unchecked(moves), m) - 1) as real
  {
    var b := Balance(l, g.stored, from);
    var lo := Min(1.0, b);
    BalanceIsHigher(l, g.stored, from);
    SpendIsPaidFor(l, g, moves, from, to, k, m, lo);
    assert b - lo <= l.budget as real - 1.0;
  }

  // Between evictions, what a team is served in a stretch of time is at most its budget and the refill of that
  // time, and m tokens more for each request that may be in flight, each check that went unanswered and each
  // deduction that was lost, less one.
  lemma SpendBound(l: Limits, before: seq<Move>, moves: seq<Move>, k: nat, m: nat, from: real, to: real)
    requires l.Capped() && AllWithin(l, CLOSED, before, k, m) && AllWithin(l, Played(l, CLOSED, before), moves, k, m)
    requires Timed(moves, from, to) && Unbroken(l, Played(l, CLOSED, before), moves, from)
    ensures ServedTokens(moves) as real <=
            l.budget as real + l.Refill(to - from) + ((k + Unchecked(moves) + Losses(moves)) * m - 1) as real
  {
    var g := Played(l, CLOSED, before);
    BalanceFloor(l, before, k, m);
    StretchIsPaidFor(l, g, moves, from, to, k, m);
    ServedIsSpentOrLost(l, g, moves, k, m);
    TokensAdd(k + Unchecked(moves), Losses(moves), m);
    TokensIs(k + Unchecked(moves) + Losses(moves), m);
  }

  // A key touched within the last `Ttl` stays until `to`.
  predicate Lasting(g: Gate, from: real, to: real) { g.stored.Held? && g.stored.ts <= from && to <= g.stored.expires }

  lemma {:induction false} LastingIsUnbroken(l: Limits, g: Gate, moves: seq<Move>, from: real, to: real)
    requires l.Capped() && Timed(moves, from, to) && Lasting(g, from, to) && to <= from + l.Ttl()
    ensures Unbroken(l, g, moves, from)
    decreases moves
  {
    if moves != [] {
      var now := Time(moves[0], from);
      TimedEnds(moves[1..], now, to);
      LastingIsUnbroken(l, Moved(l, g, moves[0]), moves[1..], now, to);
    }
  }

  // Within a stretch no longer than the key's life, eviction can only come before the store is first reached.
  lemma {:induction false} ShortSpend(l: Limits, g: Gate, moves: seq<Move>, from: real, to: real, k: nat, m: nat)
    requires l.Capped() && AllWithin(l, g, moves, k, m) && g.inFlight <= k
    requires Timed(moves, from, to) && to <= from + l.Ttl()
    ensures Spent(moves) as real <=
            l.budget as real + l.Refill(to - from) + (Tokens(k + Unchecked(moves), m) - 1) as real
    decreases moves
  {
    if moves == [] {
      RefillAdds(l, to - from, 0.0);
    } else {
      var mv, rest := moves[0], moves[1..];
      if Stores(mv) {
        FirstTouch(l, g, moves, from, to, k, m);
      } else {
        ShortSpend(l, Moved(l, g, mv), rest, from, to, k, m);
        TokensAdd(if mv.Unanswered? then 1 else 0, k + Unchecked(rest), m);
      }
    }
  }

  lemma FirstTouch(l: Limits, g: Gate, moves: seq<Move>, from: real, to: real, k: nat, m: nat)
    requires l.Capped() && AllWithin(l, g, moves, k, m) && g.inFlight <= k
    requires Timed(moves, from, to) && to <= from + l.Ttl() && moves != [] && Stores(moves[0])
    ensures Spent(moves) as real <=
            l.budget as real + l.Refill(to - from) + (Tokens(k + Unchecked(moves), m) - 1) as real
  {
    var mv, rest := moves[0], moves[1..];
    var now := mv.now;
    var g', b := Moved(l, g, mv), Balance(l, g.stored, now);
    var lo := Min(1.0, b);
    TimedEnds(rest, now, to);
    BalanceIsHigher(l, g.stored, now);
    MovePays(l, g, mv, now, k, m, lo);
    RefillAdds(l, now - from, to - now);
    assert (now - from) + (to - now) == to - from;
    RefillAdds(l, now - from, 0.0);
    assert Spent([mv]) == if mv.Finish? then mv.tokens else 0;
    LastingIsUnbroken(l, g', rest, now, to);
    SpendIsPaidFor(l, g', rest, now, to, k, m, lo);
  }

  // The moves lie within one window that starts at `from`.
  predicate InWindow(l: Limits, moves: seq<Move>, from: real) { Timed(moves, from, from + l.window as real * 1000.0) }

  // In one window a team is served at most twice its budget and those overdrafts, whatever the key's expiry does.
  lemma WindowSpendBound(l: Limits, before: seq<Move>, moves: seq<Move>, k: nat, m: nat, from: real)
    requires l.Capped() && AllWithin(l, CLOSED, before, k, m) && AllWithin(l, Played(l, CLOSED, before), moves, k, m)
    requires InWindow(l, moves, from)
    ensures ServedTokens(moves) <= 2 * l.budget + (k + Unchecked(moves) + Losses(moves)) * m - 1
  {
    var g, to := Played(l, CLOSED, before), from + l.window as real * 1000.0;
    BalanceFloor(l, before, k, m);
    WindowRefillsBudget(l);
    assert to - from == l.window as real * 1000.0;
    ShortSpend(l, g, moves, from, to, k, m);
    ServedIsSpentOrLost(l, g, moves, k, m);
    TokensAdd(k + Unchecked(moves), Losses(moves), m);
    TokensIs(k + Unchecked(moves) + Losses(moves), m);
  }

  lemma {:induction false} TimedJoins(a: seq<Move>, b: seq<Move>, from: real, mid: real, to: real)
    requires Timed(a, from, mid) && Timed(b, mid, to)
    ensures Timed(a + b, from, to)
    decreases a
  {
    if a == [] {
      assert a + b == b;
      TimedSooner(b, from, mid, to);
    } else {
      assert (a + b)[0] == a[0] && (a + b)[1..] == a[1..] + b;
      TimedJoins(a[1..], b, Time(a[0], from), mid, to);
    }
  }

  lemma {:induction false} TimedSooner(moves: seq<Move>, from: real, mid: real, to: real)
    requires from <= mid && Timed(moves, mid, to)
    ensures Timed(moves, from, to)
    decreases moves
  {
    if moves != [] {
      if !Stores(moves[0]) { TimedSooner(moves[1..], from, mid, to); }
    }
  }

  // ------------------------------------------------------------------------ spend, exactly

  // Each move comes at most a window after the one before it, the last of them at `to`.
  predicate Paced(l: Limits, moves: seq<Move>, from: real, to: real)
    decreases moves
  {
    if moves == [] then from == to
    else
      var now := Time(moves[0], from);
      from <= now <= from + l.window as real * 1000.0 && Paced(l, moves[1..], now, to)
  }

  lemma {:induction false} PacedAtOnce(l: Limits, moves: seq<Move>, t: real)
    requires l.Capped() && AllAt(moves, t)
    ensures Paced(l, moves, t, t)
    decreases moves
  {
    if moves != [] {
      assert moves[0] in moves;
      PacedAtOnce(l, moves[1..], t);
    }
  }

  lemma {:induction false} PacedJoins(l: Limits, a: seq<Move>, b: seq<Move>, from: real, mid: real, to: real)
    requires Paced(l, a, from, mid) && Paced(l, b, mid, to)
    ensures Paced(l, a + b, from, to)
    decreases a
  {
    if a == [] {
      assert a + b == b;
    } else {
      assert (a + b)[0] == a[0] && (a + b)[1..] == a[1..] + b;
      PacedJoins(l, a[1..], b, Time(a[0], from), mid, to);
    }
  }

  lemma {:induction false} PacedIsTimed(l: Limits, moves: seq<Move>, from: real, to: real, end: real)
    requires Paced(l, moves, from, to) && to <= end
    ensures Timed(moves, from, end)
    decreases moves
  {
    if moves != [] { PacedIsTimed(l, moves[1..], Time(moves[0], from), to, end); }
  }

  // No key expires between two moves that are at most a window apart.
  lemma {:induction false} PacedIsUnbroken(l: Limits, g: Gate, moves: seq<Move>, from: real, to: real)
    requires l.Capped() && Paced(l, moves, from, to)
    requires g.stored.Held? ==> g.stored.ts == from && g.stored.expires == from + l.Ttl()
    ensures Unbroken(l, g, moves, from)
    decreases moves
  {
    if moves != [] { PacedIsUnbroken(l, Moved(l, g, moves[0]), moves[1..], Time(moves[0], from), to); }
  }

  // The time one token takes to be refilled.
  function TokenTime(l: Limits): real
    requires l.Capped()
  {
    l.window as real * 1000.0 / l.budget as real
  }

  lemma TokenTimeRefillsOne(l: Limits)
    requires l.Capped()
    ensures l.Refill(TokenTime(l)) == 1.0 && 0.0 < TokenTime(l) <= l.window as real * 1000.0
  {
    var b, w := l.budget as real, l.window as real;
    assert TokenTime(l) / 1000.0 == w / b;
    assert b / w * (w / b) == 1.0;
    assert w * 1000.0 / b <= w * 1000.0;
  }

  lemma RefillReflects(l: Limits, a: real, b: real)
    requires l.Capped() && l.Refill(a) <= l.Refill(b)
    ensures a <= b
  {
    var rate := l.budget as real / l.window as real;
    assert rate > 0.0;
  }

  // A run of moves: what `Brings` says, over time.
  ghost predicate Leads(
      l: Limits, k: nat, m: nat, g: Gate, from: real, moves: seq<Move>, g': Gate, to: real, tally: Tally)
    requires l.Capped()
  {
    && AllWithin(l, g, moves, k, m) && Played(l, g, moves) == g' && Paced(l, moves, from, to)
    && TallyOf(moves) == tally && Charging(moves)
  }

  lemma BringsLeads(l: Limits, t: real, k: nat, m: nat, x: int, moves: seq<Move>, y: int, tally: Tally)
    requires l.Capped() && Brings(l, t, k, m, x, moves, y, tally)
    ensures Leads(l, k, m, At(l, t, x, 0), t, moves, At(l, t, y, 0), t, tally)
  {
    PacedAtOnce(l, moves, t);
  }

  lemma LeadsOn(l: Limits, k: nat, m: nat, g: Gate, from: real, a: seq<Move>, g1: Gate, mid: real, ta: Tally,
                b: seq<Move>, g2: Gate, to: real, tb: Tally)
    requires l.Capped() && Leads(l, k, m, g, from, a, g1, mid, ta) && Leads(l, k, m, g1, mid, b, g2, to, tb)
    ensures Leads(l, k, m, g, from, a + b, g2, to, ta.Plus(tb))
  {
    PlayedAppend(l, g, a, b, k, m);
    PacedJoins(l, a, b, from, mid, to);
    TallyAppend(a, b);
  }

  // An empty bucket holds one token after the time for one.
  lemma OneToken(l: Limits, t: real, k: nat, m: nat)
    requires l.Capped()
    ensures var t' := t + TokenTime(l);
            Leads(l, k, m, At(l, t, 0, 0), t, [Look(t')], At(l, t', 1, 0), t', Tally(0, 0, 0))
  {
    var t' := t + TokenTime(l);
    TokenTimeRefillsOne(l);
    assert t' - t == TokenTime(l);
    assert Balance(l, Held(0.0, t, t + l.Ttl()), t') == 1.0;
    OneMove(l, At(l, t, 0, 0), Look(t'), k, m);
    TallyOne(Look(t'));
    assert [Look(t')][1..] == [];
  }

  // Wait for one token and serve it.
  lemma ServeNext(l: Limits, t: real, k: nat, m: nat) returns (moves: seq<Move>, to: real)
    requires l.Capped() && k > 0 && m > 0
    ensures Leads(l, k, m, At(l, t, 0, 0), t, moves, At(l, to, 0, 0), to, Tally(1, 0, 0))
    ensures l.Refill(to - t) == 1.0
  {
    to := t + TokenTime(l);
    OneToken(l, t, k, m);
    ServesOne(l, to, k, m, 1, 1);
    var serve := [Check(to), Finish(to, 1)];
    BringsLeads(l, to, k, m, 1, serve, 0, Tally(1, 0, 0));
    LeadsOn(l, k, m, At(l, t, 0, 0), t, [Look(to)], At(l, to, 1, 0), to, Tally(0, 0, 0),
            serve, At(l, to, 0, 0), to, Tally(1, 0, 0));
    moves := [Look(to)] + serve;
    TokenTimeRefillsOne(l);
    assert to - t == TokenTime(l);
  }

  lemma RefillJoins(l: Limits, from: real, mid: real, to: real)
    requires l.Capped()
    ensures l.Refill(to - from) == l.Refill(mid - from) + l.Refill(to - mid)
  {
    RefillAdds(l, mid - from, to - mid);
    assert (mid - from) + (to - mid) == to - from;
  }

  // Serve every token as it is refilled.
  lemma {:induction false} SpendRefill(l: Limits, t: real, k: nat, m: nat, n: nat) returns (moves: seq<Move>, to: real)
    requires l.Capped() && k > 0 && m > 0
    ensures Leads(l, k, m, At(l, t, 0, 0), t, moves, At(l, to, 0, 0), to, Tally(n, 0, 0))
    ensures l.Refill(to - t) == n as real
    decreases n
  {
    if n == 0 {
      moves, to := [], t;
      NoMoves(l, t, k, m, 0);
      BringsLeads(l, t, k, m, 0, [], 0, Tally(0, 0, 0));
      RefillAdds(l, 0.0, 0.0);
      assert t - t == 0.0;
    } else {
      var serve, mid := ServeNext(l, t, k, m);
      var rest;
      rest, to := SpendRefill(l, mid, k, m, n - 1);
      LeadsOn(l, k, m, At(l, t, 0, 0), t, serve, At(l, mid, 0, 0), mid, Tally(1, 0, 0),
              rest, At(l, to, 0, 0), to, Tally(n - 1, 0, 0));
      moves := serve + rest;
      RefillJoins(l, t, mid, to);
    }
  }

  // The most that can be served while n tokens are refilled: the whole budget at once, each token as it comes, and
  // the overdrafts from the last one.
  lemma SpendIsReached(l: Limits, k: nat, f: nat, g: nat, m: nat, n: nat) returns (moves: seq<Move>, to: real)
    requires l.Capped() && k > 0 && m > 0
    ensures Leads(l, k, m, CLOSED, 0.0, moves, Played(l, CLOSED, moves), to,
                  Tally(l.budget + n + (k + f + g) * m - 1, f, g))
    ensures l.Refill(to) == n as real
  {
    Opens(l, 0.0, k, m);
    PacedAtOnce(l, [Look(0.0)], 0.0);
    TokensIs(k + f + g, m);
    var rest, y;
    rest, y, to := SpendFromFull(l, k, f, g, m, n);
    LeadsOn(l, k, m, CLOSED, 0.0, [Look(0.0)], At(l, 0.0, l.budget, 0), 0.0, Tally(0, 0, 0),
            rest, At(l, to, y, 0), to, Tally(l.budget + n + Tokens(k + f + g, m) - 1, f, g));
    moves := [Look(0.0)] + rest;
  }

  lemma SpendFromFull(l: Limits, k: nat, f: nat, g: nat, m: nat, n: nat) returns (moves: seq<Move>, y: int, to: real)
    requires l.Capped() && k > 0 && m > 0
    ensures Leads(l, k, m, At(l, 0.0, l.budget, 0), 0.0, moves, At(l, to, y, 0), to,
                  Tally(l.budget + n + Tokens(k + f + g, m) - 1, f, g))
    ensures l.Refill(to) == n as real
  {
    y := 1 - Tokens(k + f, m);
    if n == 0 {
      to := 0.0;
      moves := Overdraw(l, 0.0, k, f, g, m, l.budget);
      BringsLeads(l, 0.0, k, m, l.budget, moves, y, TallyOf(moves));
      RefillAdds(l, 0.0, 0.0);
    } else {
      var mid;
      var a := SpendDown(l, 0.0, k, m, l.budget, 0);
      BringsLeads(l, 0.0, k, m, l.budget, a, 0, TallyOf(a));
      var b, c;
      b, mid := SpendRefill(l, 0.0, k, m, n - 1);
      c, to := OverdrawNext(l, mid, k, f, g, m);
      assert mid - 0.0 == mid;
      RefillJoins(l, 0.0, mid, to);
      assert to - 0.0 == to;
      LeadsOn(l, k, m, At(l, 0.0, 0, 0), 0.0, b, At(l, mid, 0, 0), mid, Tally(n - 1, 0, 0),
              c, At(l, to, y, 0), to, Tally(Tokens(k + f + g, m), f, g));
      LeadsOn(l, k, m, At(l, 0.0, l.budget, 0), 0.0, a, At(l, 0.0, 0, 0), 0.0, Tally(l.budget, 0, 0),
              b + c, At(l, to, y, 0), to, Tally(n - 1 + Tokens(k + f + g, m), f, g));
      moves := a + (b + c);
    }
  }

  // Wait for one token and overdraw from it.
  lemma OverdrawNext(l: Limits, t: real, k: nat, f: nat, g: nat, m: nat) returns (moves: seq<Move>, to: real)
    requires l.Capped() && k > 0 && m > 0
    ensures Leads(l, k, m, At(l, t, 0, 0), t, moves, At(l, to, 1 - Tokens(k + f, m), 0), to,
                  Tally(Tokens(k + f + g, m), f, g))
    ensures l.Refill(to - t) == 1.0
  {
    to := t + TokenTime(l);
    OneToken(l, t, k, m);
    TokenTimeRefillsOne(l);
    assert to - t == TokenTime(l);
    var rest := Overdraw(l, to, k, f, g, m, 1);
    BringsLeads(l, to, k, m, 1, rest, 1 - Tokens(k + f, m), TallyOf(rest));
    LeadsOn(l, k, m, At(l, t, 0, 0), t, [Look(to)], At(l, to, 1, 0), to, Tally(0, 0, 0),
            rest, At(l, to, 1 - Tokens(k + f, m), 0), to, TallyOf(rest));
    moves := [Look(to)] + rest;
  }

  // A stretch of a run during which the key is not evicted, in which at most f checks go unanswered and g deductions
  // are lost.
  ghost predicate Stretch(l: Limits, k: nat, f: nat, g: nat, m: nat,
                          before: seq<Move>, moves: seq<Move>, from: real, lasting: real)
    requires l.Capped()
  {
    && AllWithin(l, CLOSED, before, k, m) && AllWithin(l, Played(l, CLOSED, before), moves, k, m)
    && Timed(moves, from, from + lasting) && Unbroken(l, Played(l, CLOSED, before), moves, from)
    && Unchecked(moves) <= f && Losses(moves) <= g
  }

  ghost predicate NoStretchServesMore(l: Limits, k: nat, f: nat, g: nat, m: nat, lasting: real, most: int)
    requires l.Capped()
  {
    forall before, moves, from :: Stretch(l, k, f, g, m, before, moves, from, lasting) ==> ServedTokens(moves) <= most
  }

  lemma MoreOverdraw(a: nat, b: nat, m: nat)
    requires a <= b
    ensures a * m <= b * m
  {
    TokensAdd(a, b - a, m);
    TokensIs(a, m);
    TokensIs(b, m);
  }

  lemma StretchStaysWithin(l: Limits, k: nat, f: nat, g: nat, m: nat,
                           before: seq<Move>, moves: seq<Move>, from: real, lasting: real)
    requires l.Capped() && Stretch(l, k, f, g, m, before, moves, from, lasting)
    ensures ServedTokens(moves) <= l.budget + l.Refill(lasting).Floor + (k + f + g) * m - 1
  {
    SpendBound(l, before, moves, k, m, from, from + lasting);
    assert from + lasting - from == lasting;
    MoreOverdraw(k + Unchecked(moves) + Losses(moves), k + f + g, m);
  }

  // What a stretch of time without eviction can serve, exactly: one budget, the tokens refilled meanwhile, and the
  // overdrafts less one token.
  lemma StretchSpendIsExact(l: Limits, k: nat, f: nat, g: nat, m: nat, lasting: real, most: int)
    requires l.Capped() && k > 0 && m > 0 && lasting >= 0.0
    ensures NoStretchServesMore(l, k, f, g, m, lasting, most)
       <==> most >= l.budget + l.Refill(lasting).Floor + (k + f + g) * m - 1
  {
    if most >= l.budget + l.Refill(lasting).Floor + (k + f + g) * m - 1 {
      forall before, moves, from | Stretch(l, k, f, g, m, before, moves, from, lasting)
        ensures ServedTokens(moves) <= most
      {
        StretchStaysWithin(l, k, f, g, m, before, moves, from, lasting);
      }
    } else {
      var moves := StretchIsReached(l, k, f, g, m, lasting);
    }
  }

  lemma StretchIsReached(l: Limits, k: nat, f: nat, g: nat, m: nat, lasting: real) returns (moves: seq<Move>)
    requires l.Capped() && k > 0 && m > 0 && lasting >= 0.0
    ensures Stretch(l, k, f, g, m, [], moves, 0.0, lasting)
    ensures ServedTokens(moves) == l.budget + l.Refill(lasting).Floor + (k + f + g) * m - 1
  {
    RefillAdds(l, lasting, 0.0);
    var to;
    moves, to := SpendIsReached(l, k, f, g, m, l.Refill(lasting).Floor);
    RefillReflects(l, to, lasting);
    PacedIsTimed(l, moves, 0.0, to, 0.0 + lasting);
    PacedIsUnbroken(l, CLOSED, moves, 0.0, to);
  }

  // The bound on a window is reached too, with one budget refilled meanwhile.
  lemma WindowSpendIsReached(l: Limits, k: nat, f: nat, g: nat, m: nat) returns (moves: seq<Move>)
    requires l.Capped() && k > 0 && m > 0
    ensures AllWithin(l, CLOSED, moves, k, m) && InWindow(l, moves, 0.0)
    ensures TallyOf(moves) == Tally(2 * l.budget + (k + f + g) * m - 1, f, g)
    ensures Charging(moves)
  {
    var to;
    moves, to := SpendIsReached(l, k, f, g, m, l.budget);
    WindowRefillsBudget(l);
    RefillReflects(l, to, l.window as real * 1000.0);
    PacedIsTimed(l, moves, 0.0, to, 0.0 + l.window as real * 1000.0);
  }

  // A window of a run, in which at most f checks go unanswered and g deductions are lost.
  ghost predicate Window(l: Limits, k: nat, f: nat, g: nat, m: nat, before: seq<Move>, moves: seq<Move>, from: real)
    requires l.Capped()
  {
    && AllWithin(l, CLOSED, before, k, m) && AllWithin(l, Played(l, CLOSED, before), moves, k, m)
    && InWindow(l, moves, from) && Unchecked(moves) <= f && Losses(moves) <= g
  }

  ghost predicate NoWindowServesMore(l: Limits, k: nat, f: nat, g: nat, m: nat, most: int)
    requires l.Capped()
  {
    forall before, moves, from :: Window(l, k, f, g, m, before, moves, from) ==> ServedTokens(moves) <= most
  }

  // What one window can serve, exactly: two budgets, and the overdrafts less one token.
  lemma WindowSpendIsExact(l: Limits, k: nat, f: nat, g: nat, m: nat, most: int)
    requires l.Capped() && k > 0 && m > 0
    ensures NoWindowServesMore(l, k, f, g, m, most) <==> most >= 2 * l.budget + (k + f + g) * m - 1
  {
    if most >= 2 * l.budget + (k + f + g) * m - 1 {
      forall before, moves, from | Window(l, k, f, g, m, before, moves, from)
        ensures ServedTokens(moves) <= most
      {
        WindowSpendBound(l, before, moves, k, m, from);
        var n := k + Unchecked(moves) + Losses(moves);
        TokensAdd(n, k + f + g - n, m);
        TokensIs(n, m);
        TokensIs(k + f + g, m);
      }
    } else {
      var moves := WindowSpendIsReached(l, k, f, g, m);
      assert Window(l, k, f, g, m, [], moves, 0.0);
    }
  }
}
