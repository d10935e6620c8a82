// The per-team token budget: a lazily refilled bucket, checked before serving and deducted after.
//
// Times are real milliseconds, as the store's clock gives them; tokens are real numbers.
module TokenBudget {

  datatype Limits = Limits(budget: int, window: int)
  {
    predicate Capped() { budget > 0 && window > 0 }

    // Tokens refilled in `ms` milliseconds.
    function Refill(ms: real): real
      requires Capped()
    {
      budget as real / window as real * (ms / 1000.0)
    }

    function Ttl(): real { (window as real + 60.0) * 1000.0 }
  }

  const DEFAULT_WINDOW := 3600

  function Configured(budget: int, windowSeconds: int): (l: Limits)
    ensures l.window > 0 && (budget > 0 <==> l.Capped())
    ensures l.budget == budget && (l.window == windowSeconds || (windowSeconds <= 0 && l.window == 3600))
  {
    Limits(budget, if windowSeconds <= 0 then DEFAULT_WINDOW else windowSeconds)
  }

  // What is stored under a team's key.
  datatype Stored = Missing | Held(tokens: real, ts: real, expires: real)

  predicate Live(st: Stored, now: real) { st.Held? && now <= st.expires }

  function Min(x: real, y: real): real { if x <= y then x else y }

  // The balance an operation at `now` works with.
  function Balance(l: Limits, st: Stored, now: real): real
    requires l.Capped()
  {
    if !Live(st, now) then l.budget as real
    else Min(l.budget as real, st.tokens + l.Refill(if now < st.ts then 0.0 else now - st.ts))
  }

  datatype Answer = Answer(allowed: bool, remaining: int, stored: Stored)

  // The atomic refill-and-spend step.
  function Script(l: Limits, st: Stored, now: real, spend: int): Answer
    requires l.Capped()
  {
    var balance := Balance(l, st, now);
    var tokens := if spend <= 0 then balance else balance - spend as real;
    Answer(if spend <= 0 then tokens >= 1.0 else tokens >= 0.0, tokens.Floor, Held(tokens, now, now + l.Ttl()))
  }

  // ---------------------------------------------------------------- the adapter

  const PREFIX := "fp:ai:budget:"

  // What is stored for a team.
  function Bucket(hashes: map<string, Stored>, team: string): Stored {
    if PREFIX + team in hashes then hashes[PREFIX + team] else Missing
  }

  // What an operation on a team's key makes of the store.
  function Touched(l: Limits, hashes: map<string, Stored>, team: string, now: real, spend: int): map<string, Stored>
    requires l.Capped()
  {
    hashes[PREFIX + team := Script(l, Bucket(hashes, team), now, spend).stored]
  }

  // An operation is seen by its own team and by no other.
  lemma TouchedBuckets(l: Limits, hashes: map<string, Stored>, team: string, other: string, now: real, spend: int)
    requires l.Capped()
    ensures Bucket(Touched(l, hashes, team, now, spend), other)
         == if other == team then Script(l, Bucket(hashes, team), now, spend).stored else Bucket(hashes, other)
  {
    if PREFIX + other == PREFIX + team {
      assert other == (PREFIX + other)[|PREFIX|..] == (PREFIX + team)[|PREFIX|..] == team;
    }
  }

  class RedisBudget {
    const limits: Limits
    var hashes: map<string, Stored>

    constructor (budget: int, windowSeconds: int)
      ensures limits == Configured(budget, windowSeconds) && hashes == map[]
      ensures forall team :: Of(team) == Missing
    {
      limits := Configured(budget, windowSeconds);
      hashes := map[];
    }

    function Of(team: string): Stored
      reads this
    {
      Bucket(hashes, team)
    }

    method Run(team: string, now: real, spend: int) returns (allowed: bool, remaining: int)
      requires limits.Capped()
      modifies this
      ensures allowed <==> Balance(limits, old(Of(team)), now) >= if spend <= 0 then 1.0 else spend as real
      ensures remaining == (Balance(limits, old(Of(team)), now) - if spend <= 0 then 0.0 else spend as real).Floor
      ensures Of(team) == Script(limits, old(Of(team)), now, spend).stored
      ensures hashes == Touched(limits, old(hashes), team, now, spend)
      ensures forall other :: other != team ==> Of(other) == old(Of(other))
    {
      ghost var was := hashes;
      var st := Of(team);
      var tokens, ts := limits.budget as real, now;
      if Live(st, now) { tokens, ts := st.tokens, st.ts; }
      var elapsed := now - ts;
      if elapsed < 0.0 { elapsed := 0.0; }
      tokens := Min(limits.budget as real, tokens + limits.Refill(elapsed));
      allowed := false;
      if spend <= 0 {
        if tokens >= 1.0 { allowed := true; }
      } else {
        tokens := tokens - spend as real;
        if tokens >= 0.0 { allowed := true; }
      }
      hashes := hashes[PREFIX + team := Held(tokens, now, now + limits.Ttl())];
      remaining := tokens.Floor;
      forall other { TouchedBuckets(limits, was, team, other, now, spend); }
    }

    // With no cap every team is allowed and nothing is stored. `down` says the store did not answer.
    method Check(team: string, now: real, down: bool) returns (ok: bool, allowed: bool)
      requires limits.window > 0
      modifies this
      ensures ok == (limits.budget <= 0 || !down)
      ensures limits.budget <= 0 ==> allowed && hashes == old(hashes)
      ensures limits.budget > 0 && down ==> !allowed && hashes == old(hashes)
      ensures limits.budget > 0 && !down ==>
                allowed == (Balance(limits, old(Of(team)), now) >= 1.0)
                && Of(team) == Script(limits, old(Of(team)), now, 0).stored
                && (forall other :: other != team ==> Of(other) == old(Of(other)))
                && hashes == Touched(limits, old(hashes), team, now, 0)
    {
      if limits.budget <= 0 { return true, true; }
      if down { return false, false; }
      var remaining;
      allowed, remaining := Run(team, now, 0);
      ok := true;
    }

    method Deduct(team: string, tokens: int, now: real, down: bool) returns (remaining: int)
      requires limits.window > 0
      modifies this
      ensures limits.budget <= 0 || tokens <= 0 || down ==> remaining == 0 && hashes == old(hashes)
      ensures limits.budget > 0 && tokens > 0 && !down ==>
                remaining == (Balance(limits, old(Of(team)), now) - tokens as real).Floor
                && Of(team) == Script(limits, old(Of(team)), now, tokens).stored
                && (forall other :: other != team ==> Of(other) == old(Of(other)))
                && hashes == Touched(limits, old(hashes), team, now, tokens)
    {
      if limits.budget <= 0 || tokens <= 0 || down { return 0; }
      var allowed;
      allowed, remaining := Run(team, now, tokens);
    }

    // What a team has consumed, never negative and rounded up to whole tokens.
    method Usage(team: string, now: real, down: bool) returns (ok: bool, consumed: int, budget: int)
      requires limits.window > 0
      modifies this
      ensures ok == (limits.budget <= 0 || !down)
      ensures limits.budget <= 0 || down ==> consumed == budget == 0 && hashes == old(hashes)
      ensures limits.budget > 0 && !down ==>
                budget == limits.budget && consumed >= 0
                && consumed as real - 1.0
                   < limits.budget as real - Balance(limits, old(Of(team)), now)
                   <= consumed as real
                && Of(team) == Script(limits, old(Of(team)), now, 0).stored
                && (forall other :: other != team ==> Of(other) == old(Of(other)))
                && hashes == Touched(limits, old(hashes), team, now, 0)
    {
      if limits.budget <= 0 { return true, 0, 0; }
      if down { return false, 0, 0; }
      var allowed, remaining := Run(team, now, 0);
      consumed := limits.budget - remaining;
      if consumed < 0 { consumed := 0; }
      ok, budget := true, limits.budget;
    }
  }

  // --------------------------------------------------------- refill as a real clock would

  lemma RefillAdds(l: Limits, a: real, b: real)
    requires l.Capped()
    ensures l.Refill(a + b) == l.Refill(a) + l.Refill(b)
    ensures a >= 0.0 ==> l.Refill(a) >= 0.0
    ensures l.Refill(0.0) == 0.0
  {
    var rate := l.budget as real / l.window as real;
    assert rate >= 0.0;
    assert rate * (a / 1000.0 + b / 1000.0) == rate * (a / 1000.0) + rate * (b / 1000.0);
  }

  // One window refills one budget.
  lemma WindowRefillsBudget(l: Limits)
    requires l.Capped()
    ensures l.Refill(l.window as real * 1000.0) == l.budget as real
  {
    var rate, w := l.budget as real / l.window as real, l.window as real;
    assert rate * w == l.budget as real;
    assert w * 1000.0 / 1000.0 == w;
  }

  datatype Charge = Charge(at: real, amount: int)

  // The balance of a bucket that refills continuously, given only what was deducted and when.
  function Continuous(l: Limits, charges: seq<Charge>, now: real): real
    requires l.Capped()
  {
    if charges == [] then l.budget as real
    else
      var c := charges[|charges| - 1];
      Min(l.budget as real,
          Continuous(l, charges[..|charges| - 1], c.at) - c.amount as real + l.Refill(now - c.at))
  }

  function SpentFrom(charges: seq<Charge>, i: nat): int
    requires i <= |charges|
    decreases |charges| - i
  {
    if i == |charges| then 0 else charges[i].amount + SpentFrom(charges, i + 1)
  }

  predicate InOrder(charges: seq<Charge>, now: real) {
    charges == [] ||
    var c := charges[|charges| - 1];
    c.amount > 0 && c.at <= now && InOrder(charges[..|charges| - 1], c.at)
  }

  // What would be left now if the bucket had been full just before charge i.
  function FullAt(l: Limits, charges: seq<Charge>, now: real, i: nat): real
    requires l.Capped() && i < |charges|
  {
    l.budget as real + l.Refill(now - charges[i].at) - SpentFrom(charges, i) as real
  }

  lemma {:induction false} SpentDropsLast(charges: seq<Charge>, i: nat)
    requires i < |charges|
    ensures SpentFrom(charges, i) == SpentFrom(charges[..|charges| - 1], i) + charges[|charges| - 1].amount
    decreases |charges| - i
  {
    if i + 1 < |charges| { SpentDropsLast(charges, i + 1); }
  }

  // The continuous balance in closed form: the least, over every past charge, of what a full bucket would have
  // left since then, and never above the budget.
  lemma {:induction false} ContinuousInClosedForm(l: Limits, charges: seq<Charge>, now: real)
    requires l.Capped() && InOrder(charges, now)
    ensures var b := Continuous(l, charges, now);
            && b <= l.budget as real
            && (forall i :: 0 <= i < |charges| ==> b <= FullAt(l, charges, now, i))
            && (b == l.budget as real || exists i :: 0 <= i < |charges| && b == FullAt(l, charges, now, i))
    decreases |charges|
  {
    if charges != [] {
      var n := |charges| - 1;
      var c, before := charges[n], charges[..n];
      ContinuousInClosedForm(l, before, c.at);
      var b, b0 := Continuous(l, charges, now), Continuous(l, before, c.at);
      forall i | 0 <= i < n
        ensures FullAt(l, charges, now, i) == FullAt(l, before, c.at, i) - c.amount as real + l.Refill(now - c.at)
      {
        SpentDropsLast(charges, i);
        RefillAdds(l, c.at - charges[i].at, now - c.at);
        assert before[i] == charges[i];
      }
      assert SpentFrom(charges, n) == c.amount;
      assert FullAt(l, charges, now, n) == l.budget as real - c.amount as real + l.Refill(now - c.at);
      forall i | 0 <= i < |charges| ensures b <= FullAt(l, charges, now, i) {
        if i < n { assert b0 <= FullAt(l, before, c.at, i); }
      }
      if b != l.budget as real {
        if b0 == l.budget as real {
          assert b == FullAt(l, charges, now, n);
        } else {
          var i :| 0 <= i < n && b0 == FullAt(l, before, c.at, i);
          assert b == FullAt(l, charges, now, i);
        }
      }
    }
  }

  // One operation on a team's key: a Check or Usage peeks, a Deduct spends.
  datatype Operation = Operation(now: real, spend: nat)

  function After(l: Limits, ops: seq<Operation>): Stored
    requires l.Capped()
  {
    if ops == [] then Missing
    else Script(l, After(l, ops[..|ops| - 1]), ops[|ops| - 1].now, ops[|ops| - 1].spend).stored
  }

  function ChargesOf(ops: seq<Operation>): seq<Charge> {
    if ops == [] then []
    else
      var op := ops[|ops| - 1];
      ChargesOf(ops[..|ops| - 1]) + if op.spend > 0 then [Charge(op.now, op.spend)] else []
  }

  // An operation at `now` comes no earlier than the last one, and before the key expires.
  predicate Follows(l: Limits, ops: seq<Operation>, now: real) {
    ops == [] || ops[|ops| - 1].now <= now <= ops[|ops| - 1].now + l.Ttl()
  }

  // The clock does not run backwards and the key never expires between operations.
  predicate Steady(l: Limits, ops: seq<Operation>) {
    ops == [] || (Steady(l, ops[..|ops| - 1]) && Follows(l, ops[..|ops| - 1], ops[|ops| - 1].now))
  }

  lemma {:induction false} ChargesInOrder(l: Limits, ops: seq<Operation>, now: real)
    requires Steady(l, ops) && Follows(l, ops, now)
    ensures InOrder(ChargesOf(ops), now)
    decreases |ops|
  {
    if ops != [] {
      var before, op := ops[..|ops| - 1], ops[|ops| - 1];
      ChargesInOrder(l, before, op.now);
      ChargeInOrder(ChargesOf(before), op);
      StillInOrder(ChargesOf(ops), op.now, now);
    }
  }

  lemma ChargeInOrder(charges: seq<Charge>, op: Operation)
    requires InOrder(charges, op.now)
    ensures InOrder(charges + if op.spend > 0 then [Charge(op.now, op.spend)] else [], op.now)
  {
    assert charges + [] == charges;
    assert (charges + [Charge(op.now, op.spend)])[..|charges|] == charges;
  }

  lemma StillInOrder(charges: seq<Charge>, t: real, now: real)
    requires InOrder(charges, t) && t <= now
    ensures InOrder(charges, now)
  {
  }

  // Waiting composes: a continuous balance seen later is the balance seen now, refilled.
  lemma ContinuousWaits(l: Limits, charges: seq<Charge>, t: real, now: real)
    requires l.Capped() && InOrder(charges, t) && t <= now
    ensures Continuous(l, charges, now) == Min(l.budget as real, Continuous(l, charges, t) + l.Refill(now - t))
  {
    RefillAdds(l, now - t, 0.0);
    if charges != [] {
      var c := charges[|charges| - 1];
      RefillAdds(l, t - c.at, now - t);
    }
  }

  // Lazy refill is continuous refill: with a steady clock the balance any later operation sees depends only on
  // the times and amounts deducted, so interleaved peeks are invisible.
  lemma {:induction false} LazyRefillIsContinuous(l: Limits, ops: seq<Operation>, now: real)
    requires l.Capped() && Steady(l, ops) && Follows(l, ops, now)
    ensures Balance(l, After(l, ops), now) == Continuous(l, ChargesOf(ops), now)
    decreases |ops|
  {
    if ops != [] {
      var before, op := ops[..|ops| - 1], ops[|ops| - 1];
      LazyRefillIsContinuous(l, before, op.now);
      ChargesInOrder(l, before, op.now);
      OneMoreOperation(l, After(l, before), ChargesOf(before), op, now);
    }
  }

  lemma OneMoreOperation(l: Limits, st: Stored, charges: seq<Charge>, op: Operation, now: real)
    requires l.Capped() && InOrder(charges, op.now) && op.now <= now <= op.now + l.Ttl()
    requires Balance(l, st, op.now) == Continuous(l, charges, op.now)
    ensures Balance(l, Script(l, st, op.now, op.spend).stored, now) ==
            Continuous(l, charges + if op.spend > 0 then [Charge(op.now, op.spend)] else [], now)
  {
    if op.spend > 0 {
      assert (charges + [Charge(op.now, op.spend)])[..|charges|] == charges;
    } else {
      assert charges + [] == charges;
      ContinuousWaits(l, charges, op.now, now);
    }
  }

  // Any two histories with the same charges are told apart by no later operation.
  lemma PeeksAreInvisible(l: Limits, ops: seq<Operation>, ops': seq<Operation>, now: real, spend: nat)
    requires l.Capped() && ChargesOf(ops) == ChargesOf(ops')
    requires Steady(l, ops) && Follows(l, ops, now) && Steady(l, ops') && Follows(l, ops', now)
    ensures Script(l, After(l, ops), now, spend) == Script(l, After(l, ops'), now, spend)
  {
    LazyRefillIsContinuous(l, ops, now);
    LazyRefillIsContinuous(l, ops', now);
  }

  // One call on the store.
  datatype StoreCall = StoreCall(team: string, op: Operation)

  function HashesAfter(l: Limits, calls: seq<StoreCall>): map<string, Stored>
    requires l.Capped()
  {
    if calls == [] then map[]
    else
      var c := calls[|calls| - 1];
      Touched(l, HashesAfter(l, calls[..|calls| - 1]), c.team, c.op.now, c.op.spend)
  }

  function OpsOf(calls: seq<StoreCall>, team: string): seq<Operation> {
    if calls == [] then []
    else
      var c := calls[|calls| - 1];
      OpsOf(calls[..|calls| - 1], team) + if c.team == team then [c.op] else []
  }

  // After any calls for any teams, each team's bucket is what its own calls made of it.
  lemma {:induction false} BucketsArePerTeam(l: Limits, calls: seq<StoreCall>, team: string)
    requires l.Capped()
    ensures Bucket(HashesAfter(l, calls), team) == After(l, OpsOf(calls, team))
    decreases |calls|
  {
    if calls != [] {
      var before, c := calls[..|calls| - 1], calls[|calls| - 1];
      BucketsArePerTeam(l, before, team);
      TouchedBuckets(l, HashesAfter(l, before), c.team, team, c.op.now, c.op.spend);
      var ops := OpsOf(calls, team);
      assert c.team == team ==> ops[..|ops| - 1] == OpsOf(before, team);
      assert OpsOf(before, team) + [] == OpsOf(before, team);
    }
  }

  // So a team is allowed exactly while its continuous balance, by its own deductions alone, is a token or more.
  lemma AllowedExactly(l: Limits, calls: seq<StoreCall>, team: string, now: real)
    requires l.Capped() && Steady(l, OpsOf(calls, team)) && Follows(l, OpsOf(calls, team), now)
    ensures Script(l, Bucket(HashesAfter(l, calls), team), now, 0).allowed
       <==> Continuous(l, ChargesOf(OpsOf(calls, team)), now) >= 1.0
  {
    BucketsArePerTeam(l, calls, team);
    LazyRefillIsContinuous(l, OpsOf(calls, team), now);
  }

  // What the balance would be had the key been kept.
  function IfKept(l: Limits, st: Stored, now: real): real
    requires l.Capped() && st.Held? && st.ts <= now
  {
    Min(l.budget as real, st.tokens + l.Refill(now - st.ts))
  }

  // Eviction hands back a full budget, which is what refill would give exactly when the debt stored was at
  // most sixty seconds of refill; a larger debt is forgiven.
  lemma EvictionIsRefillExactly(l: Limits, st: Stored)
    requires l.Capped() && st.Held? && st.expires == st.ts + l.Ttl()
    ensures (forall now :: st.expires < now ==> Balance(l, st, now) == IfKept(l, st, now))
            <==> st.tokens >= -l.Refill(60.0 * 1000.0)
  {
    var grace := l.Refill(60.0 * 1000.0);
    if st.tokens >= -grace {
      forall now | st.expires < now ensures Balance(l, st, now) == IfKept(l, st, now) {
        RefillPastExpiry(l, st, now);
      }
    } else {
      var now := SlightlyLater(l, st.expires, -grace - st.tokens);
      RefillPastExpiry(l, st, now);
      assert Balance(l, st, now) != IfKept(l, st, now);
    }
  }

  // By the time a key expires, refill has covered the budget and sixty seconds more.
  lemma RefillPastExpiry(l: Limits, st: Stored, now: real)
    requires l.Capped() && st.Held? && st.expires == st.ts + l.Ttl() && st.expires < now
    ensures l.Refill(now - st.ts) == l.budget as real + l.Refill(60.0 * 1000.0) + l.Refill(now - st.expires)
    ensures l.Refill(now - st.expires) >= 0.0
  {
    WindowRefillsBudget(l);
    RefillAdds(l, l.window as real * 1000.0, 60.0 * 1000.0);
    assert l.window as real * 1000.0 + 60.0 * 1000.0 == l.Ttl();
    RefillAdds(l, l.Ttl(), now - st.expires);
    RefillAdds(l, now - st.expires, 0.0);
    assert l.Ttl() + (now - st.expires) == now - st.ts;
  }

  lemma SlightlyLater(l: Limits, t: real, gap: real) returns (now: real)
    requires l.Capped() && gap > 0.0
    ensures t < now && l.Refill(now - t) < gap
  {
    var rate := l.budget as real / l.window as real;
    assert rate > 0.0;
    var ms := gap / rate / 2.0 * 1000.0;
    assert rate * (gap / rate) == gap;
    now := t + ms;
    assert rate * (ms / 1000.0) == gap / 2.0;
  }
}
