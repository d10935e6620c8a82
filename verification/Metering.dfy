// What a run of the gateway charges: the budget deductions, the usage totals and the served events agree.
module Metering {
  import opened Domain
  import opened CircuitBreaker
  import opened Failover
  import opened Cost
  import opened GatewayService
  import opened GatewayRuns

  function Deducted(ds: seq<Deduction>, team: string): int {
    if ds == [] then 0
    else Deducted(ds[..|ds| - 1], team) + if ds[|ds| - 1].team == team then ds[|ds| - 1].tokens else 0
  }

  function Positive(n: int): nat { if n > 0 then n else 0 }

  // The usage store's total for a team: each addition counts its positive parts.
  function Used(adds: seq<Addition>, team: string): int {
    if adds == [] then 0
    else
      var a := adds[|adds| - 1];
      Used(adds[..|adds| - 1], team) +
      if a.team == team then Positive(a.promptTokens) + Positive(a.completionTokens) else 0
  }

  // The tokens of a team's events that say a provider was called.
  function Announced(events: seq<CompletionServed>, team: string): int {
    if events == [] then 0
    else
      var e := events[|events| - 1];
      Announced(events[..|events| - 1], team) + if e.team == team && !e.cacheHit then e.usage.totalTokens else 0
  }

  predicate AllStoresWired(s: Setup) { s.wiring.budget && s.wiring.usage && s.wiring.publisher }

  predicate NoStoreFails(w: World) { !w.deductFails && !w.addFails && !w.publishFails }

  // Token counts that meter alike everywhere: neither is negative and their sum fits 32 bits, or the sum wraps to zero.
  predicate MetersAlike(u: TokenUsage) {
    (u.promptTokens >= 0 && u.completionTokens >= 0 && u.promptTokens + u.completionTokens <= MAX_INT32)
    || Add32(u.promptTokens, u.completionTokens) == 0
  }

  // A completion adds one event and, if it has tokens and a team, one deduction and one addition of those
  // tokens; a hit adds one event and nothing else; any other outcome adds nothing.
  lemma RequestAppends(s: Setup, st: State, req: Request, w: World)
    requires s.Valid() && AllStoresWired(s) && NoStoreFails(w)
    ensures var h := Handle(s, st, req, w, NEW_WIRE);
            match h.reply
            case Completed(c) =>
              var charged := req.team != "" && c.usage.totalTokens > 0;
              && h.state.deductions == st.deductions +
                   (if charged then [Deduction(req.team, c.usage.totalTokens)] else [])
              && h.state.additions == st.additions +
                   (if charged then [Addition(req.team, c.usage.promptTokens, c.usage.completionTokens)] else [])
              && |h.state.events| == |st.events| + 1 && st.events == h.state.events[..|st.events|]
              && var e := h.state.events[|st.events|];
                 e.team == req.team && !e.cacheHit && e.usage == c.usage && e.provider == c.servedBy
            case Replayed(c) =>
              && h.state.deductions == st.deductions && h.state.additions == st.additions
              && |h.state.events| == |st.events| + 1 && st.events == h.state.events[..|st.events|]
              && h.state.events[|st.events|].team == req.team && h.state.events[|st.events|].cacheHit
            case _ =>
              h.state.deductions == st.deductions && h.state.additions == st.additions && h.state.events == st.events
  {}

  lemma RequestCharges(s: Setup, st: State, req: Request, w: World, team: string)
    requires s.Valid() && AllStoresWired(s) && NoStoreFails(w) && team != ""
    ensures var h := Handle(s, st, req, w, NEW_WIRE);
            if h.reply.Completed? && req.team == team then
              var u := h.reply.completion.usage;
              && Deducted(h.state.deductions, team) == Deducted(st.deductions, team) + Positive(u.totalTokens)
              && Announced(h.state.events, team) == Announced(st.events, team) + u.totalTokens
              && Used(h.state.additions, team) == Used(st.additions, team) +
                   (if u.totalTokens > 0 then Positive(u.promptTokens) + Positive(u.completionTokens) else 0)
            else
              && Deducted(h.state.deductions, team) == Deducted(st.deductions, team)
              && Announced(h.state.events, team) == Announced(st.events, team)
              && Used(h.state.additions, team) == Used(st.additions, team)
  {
    RequestAppends(s, st, req, w);
    var h := Handle(s, st, req, w, NEW_WIRE);
    LedgersGrow(st, h.state, team);
  }

  // The sums of ledgers that grow by at most one entry each.
  lemma LedgersGrow(st: State, st': State, team: string)
    requires |st.deductions| <= |st'.deductions| <= |st.deductions| + 1 && st.deductions <= st'.deductions
    requires |st.additions| <= |st'.additions| <= |st.additions| + 1 && st.additions <= st'.additions
    requires |st.events| <= |st'.events| <= |st.events| + 1 && st.events <= st'.events
    ensures st'.deductions != st.deductions ==>
              var d := st'.deductions[|st.deductions|];
              Deducted(st'.deductions, team) == Deducted(st.deductions, team) + if d.team == team then d.tokens else 0
    ensures st'.additions != st.additions ==>
              var a := st'.additions[|st.additions|];
              Used(st'.additions, team) == Used(st.additions, team) +
                if a.team == team then Positive(a.promptTokens) + Positive(a.completionTokens) else 0
    ensures st'.events != st.events ==>
              var e := st'.events[|st.events|];
              Announced(st'.events, team) == Announced(st.events, team) +
                if e.team == team && !e.cacheHit then e.usage.totalTokens else 0
  {
    assert st'.deductions[..|st.deductions|] == st.deductions;
    assert st'.additions[..|st.additions|] == st.additions;
    assert st'.events[..|st.events|] == st.events;
  }

  // The three ledgers move alike on a completion exactly when its token counts meter alike.
  lemma LedgersAgreeExactly(s: Setup, st: State, req: Request, w: World)
    requires s.Valid() && AllStoresWired(s) && NoStoreFails(w) && req.team != ""
    requires Handle(s, st, req, w, NEW_WIRE).reply.Completed?
    ensures var h := Handle(s, st, req, w, NEW_WIRE);
            var deducted := Deducted(h.state.deductions, req.team) - Deducted(st.deductions, req.team);
            var used := Used(h.state.additions, req.team) - Used(st.additions, req.team);
            var served := Announced(h.state.events, req.team) - Announced(st.events, req.team);
            deducted == used == served <==> MetersAlike(h.reply.completion.usage)
  {
    RequestCharges(s, st, req, w, req.team);
    var c := CompletedIsServedInFull(s, st, req, w);
  }

  // A completion whose token counts overflow 32 bits is served and announced with a negative total, and
  // nothing is deducted or added for it.
  lemma OverflowIsNotDeducted(s: Setup, st: State, req: Request, w: World)
    requires s.Valid() && AllStoresWired(s) && NoStoreFails(w)
    requires Handle(s, st, req, w, NEW_WIRE).reply.Completed?
    requires var u := Handle(s, st, req, w, NEW_WIRE).reply.completion.usage;
             u.promptTokens >= 0 && u.completionTokens >= 0 && u.promptTokens + u.completionTokens > MAX_INT32
    ensures var h := Handle(s, st, req, w, NEW_WIRE);
            && h.state.deductions == st.deductions && h.state.additions == st.additions
            && |h.state.events| == |st.events| + 1
            && var u := h.state.events[|st.events|].usage;
               u == h.reply.completion.usage && u.totalTokens == u.promptTokens + u.completionTokens - 0x1_0000_0000 < 0
  {
    RequestAppends(s, st, req, w);
    var c := CompletedIsServedInFull(s, st, req, w);
  }

  const OVERFLOWING := TokenUsage(MAX_INT32, 1, 0, 0)

  // It happens: any registered provider whose terminal frame carries such counts.
  lemma OverflowIsReached(s: Setup, st: State, team: string, kind: ProviderKind) returns (req: Request, w: World)
    requires s.Valid() && AllStoresWired(s) && kind != Unspecified && Registered(s, kind)
    requires kind !in st.view
    ensures NoStoreFails(w) && req.team == team
    ensures var h := Handle(s, st, req, w, NEW_WIRE);
            && h.reply.Completed? && h.state.deductions == st.deductions && h.state.additions == st.additions
            && |h.state.events| == |st.events| + 1 && h.state.events[|st.events|].usage.totalTokens == MIN_INT32
  {
    var turn := Turn(kind, true, [Delta("", true, OVERFLOWING, Stop)], 0, 0, 0, 0);
    var refuses := (i: nat) => false;
    req, w := PinnedTo(team, kind), Only(turn, refuses);
    PinnedIsServed(s, st, team, kind, turn, refuses);
    FirstAnswers(s.breaker, refuses, Captures(s, w), st.view, turn);
    var h := Handle(s, st, req, w, NEW_WIRE);
    assert h.reply == Completed(Completion(kind, Priced(kind, OVERFLOWING), Stop, false));
    OverflowIsNotDeducted(s, st, req, w);
  }

  // A provider not called before answers with its terminal frame.
  lemma FirstAnswers(cfg: Config, refuses: nat -> bool, capture: bool, view: View, turn: Turn)
    requires turn.kind !in view && turn.starts && |turn.frames| == 1
    requires turn.frames[0].done && !turn.frames[0].finish.Failed?
    ensures var f := turn.frames[0];
            Route(cfg, refuses, capture, view, NEW_WIRE, [turn]).outcome == Served(turn.kind, f.usage, f.finish)
  {}

  ghost predicate ChargesAlike(s: Setup, ops: seq<Op>, i: int, team: string)
    requires s.Valid() && 0 <= i < |ops|
  {
    ops[i].Chat? ==>
      && NoStoreFails(ops[i].w)
      && var h := Handle(s, StateAfter(s, ops[..i]), ops[i].req, ops[i].w, NEW_WIRE);
         (h.reply.Completed? && ops[i].req.team == team ==> MetersAlike(h.reply.completion.usage))
  }

  // Over any run in which no store fails, a named team's deductions, usage total and miss events sum to the same.
  lemma {:induction false} MeteringConserved(s: Setup, ops: seq<Op>, team: string)
    requires s.Valid() && AllStoresWired(s) && team != ""
    requires forall i :: 0 <= i < |ops| ==> ChargesAlike(s, ops, i, team)
    ensures var st := StateAfter(s, ops);
            Deducted(st.deductions, team) == Used(st.additions, team) == Announced(st.events, team)
    decreases |ops|
  {
    if ops != [] {
      var n := |ops| - 1;
      var before, op := ops[..n], ops[n];
      forall i | 0 <= i < n ensures ChargesAlike(s, before, i, team) {
        assert ChargesAlike(s, ops, i, team) && before[..i] == ops[..i];
      }
      MeteringConserved(s, before, team);
      assert ChargesAlike(s, ops, n, team);
      if op.Chat? {
        var st := StateAfter(s, before);
        RequestCharges(s, st, op.req, op.w, team);
        var h := Handle(s, st, op.req, op.w, NEW_WIRE);
        if h.reply.Completed? { var c := CompletedIsServedInFull(s, st, op.req, op.w); }
      }
    }
  }

  // The event of a request, exactly: what it names, whose answer it was, and its texts only where they are asked for.
  lemma EventSays(s: Setup, st: State, req: Request, w: World)
    requires s.Valid()
    ensures var h := Handle(s, st, req, w, NEW_WIRE);
            if s.wiring.publisher && !w.publishFails && (h.reply.Completed? || h.reply.Replayed?) then
              && h.state.events == st.events + [h.state.events[|st.events|]]
              && var e, c := h.state.events[|st.events|], h.reply.completion;
                 && e.team == req.team && e.model == req.model && e.provider == c.servedBy && e.usage == c.usage
                 && (e.cacheHit <==> h.reply.Replayed?)
                 && (e.promptText == if !s.wiring.includeText then ""
                                     else if h.reply.Completed? then Prompt(req.messages)
                                     else LookedUp(s, st, req, w).entry.prompt)
                 && e.responseText == if s.wiring.includeText then TextOf(h.wire.got) else ""
            else h.state.events == st.events
  {
    var h := Handle(s, st, req, w, NEW_WIRE);
    EventIs(s, st, req, w);
    if h.reply.Completed? { var c := CompletedIsServedInFull(s, st, req, w); }
    if h.reply.Replayed? { ReplayedText(s, st, req, w); }
  }

  lemma EventIs(s: Setup, st: State, req: Request, w: World)
    requires s.Valid()
    ensures var h := Handle(s, st, req, w, NEW_WIRE);
            h.state.events ==
              match h.reply
              case Completed(c) =>
                Published(s, w, st.events,
                          EventOf(s, req, c.servedBy, c.usage, false, Prompt(req.messages), h.wire.text))
              case Replayed(c) =>
                var e := LookedUp(s, st, req, w).entry;
                Published(s, w, st.events, EventOf(s, req, c.servedBy, c.usage, true, e.prompt, e.response))
              case _ => st.events
  {}

  // What a replay sends is the text it found.
  lemma ReplayedText(s: Setup, st: State, req: Request, w: World)
    requires s.Valid() && Handle(s, st, req, w, NEW_WIRE).reply.Replayed?
    ensures TextOf(Handle(s, st, req, w, NEW_WIRE).wire.got) == LookedUp(s, st, req, w).entry.response
  {
    var h, e := Handle(s, st, req, w, NEW_WIRE), LookedUp(s, st, req, w).entry;
    assert h.wire.got == if e.response == "" then [] else [Text(e.response)];
    assert [Text(e.response)][1..] == [];
    assert TextOf([]) == "" && e.response + "" == e.response;
  }

  // ---------------------------------------------------------------------- prices

  // Every event for a provider's answer carries its total and its price.
  predicate Billed(e: CompletionServed) {
    e.cacheHit ||
    (e.usage.totalTokens == Add32(e.usage.promptTokens, e.usage.completionTokens)
     && e.usage.costMicroUSD == CostMicroUSD(e.provider, e.usage.promptTokens, e.usage.completionTokens))
  }

  lemma {:induction false} EventsAreBilled(s: Setup, ops: seq<Op>)
    requires s.Valid()
    ensures forall e <- StateAfter(s, ops).events :: Billed(e)
    decreases |ops|
  {
    if ops != [] { EventsAreBilled(s, ops[..|ops| - 1]); }
  }

  function Misses(events: seq<CompletionServed>): nat {
    if events == [] then 0 else Misses(events[..|events| - 1]) + if events[|events| - 1].cacheHit then 0 else 1
  }

  function Charged(events: seq<CompletionServed>): int {
    if events == [] then 0
    else
      var e := events[|events| - 1];
      Charged(events[..|events| - 1]) + if e.cacheHit then 0 else e.usage.costMicroUSD
  }

  // A thousand times the exact price of the misses.
  function Exact(events: seq<CompletionServed>): int {
    if events == [] then 0
    else
      var e := events[|events| - 1];
      Exact(events[..|events| - 1]) +
      if e.cacheHit then 0 else ExactMilli(e.provider, e.usage.promptTokens, e.usage.completionTokens)
  }

  predicate CountsTokens(e: CompletionServed) { e.usage.promptTokens >= 0 && e.usage.completionTokens >= 0 }

  // The costs of n misses never exceed the exact price, and fall short of it by less than 2n micro-USD.
  lemma {:induction false} ChargesAreClose(events: seq<CompletionServed>)
    requires forall e <- events :: Billed(e) && CountsTokens(e)
    ensures 1000 * Charged(events) <= Exact(events) <= 1000 * Charged(events) + 2000 * Misses(events)
    ensures Misses(events) > 0 ==> Exact(events) < 1000 * Charged(events) + 2000 * Misses(events)
    decreases |events|
  {
    if events != [] {
      var e := events[|events| - 1];
      ChargesAreClose(events[..|events| - 1]);
      assert e in events;
      CostRoundsDown(e.provider, e.usage.promptTokens, e.usage.completionTokens);
    }
  }

  // So over any run of requests whose token counts are not negative.
  lemma RunChargesAreClose(s: Setup, ops: seq<Op>)
    requires s.Valid() && forall e <- StateAfter(s, ops).events :: CountsTokens(e)
    ensures var events := StateAfter(s, ops).events;
            && 1000 * Charged(events) <= Exact(events) <= 1000 * Charged(events) + 2000 * Misses(events)
            && (Misses(events) > 0 ==> Exact(events) < 1000 * Charged(events) + 2000 * Misses(events))
  {
    EventsAreBilled(s, ops);
    ChargesAreClose(StateAfter(s, ops).events);
  }
}
