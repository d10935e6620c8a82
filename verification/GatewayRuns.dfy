// Whole runs of the gateway: any sequence of requests from any teams, with cache keys expiring in between.
module GatewayRuns {
  import opened Domain
  import opened CircuitBreaker
  import opened Registries
  import opened Failover
  import opened Cosine
  import opened SemanticCache
  import opened GatewayService
  import opened Cost

  datatype Op = Chat(req: Request, w: World) | KeyExpires(team: string)

  const NEW_WIRE := Wire(0, [], "")

  ghost function Reacts(s: Setup, st: State, op: Op): State
    requires s.Valid()
  {
    match op
    case Chat(req, w) => Handle(s, st, req, w, NEW_WIRE).state
    case KeyExpires(team) => st.(lists := st.lists - {Key(team)})
  }

  ghost function StateAfter(s: Setup, ops: seq<Op>): State
    requires s.Valid()
  {
    if ops == [] then EMPTY else Reacts(s, StateAfter(s, ops[..|ops| - 1]), ops[|ops| - 1])
  }

  // ------------------------------------------------------------- one request

  // A completed request: the client got every token of one provider, which the reply names, and nothing else; it is
  // metered by that provider's terminal frame.
  ghost predicate ServedInFull(s: Setup, req: Request, w: World, h: Handled, c: nat) {
    var turns := TurnsOf(s, req, w);
    && h.reply.Completed? && c < |turns|
    && turns[c].starts && EndsClean(turns[c].frames) && h.wire.got == TokenFrames(turns[c].frames)
    && h.reply.completion.servedBy == turns[c].kind
    && (req.pinned != Unspecified ==> h.reply.completion.servedBy == req.pinned)
    && var u, last := h.reply.completion.usage, turns[c].frames[|h.wire.got|];
       && u.promptTokens == last.usage.promptTokens && u.completionTokens == last.usage.completionTokens
       && u.totalTokens == Add32(u.promptTokens, u.completionTokens)
       && u.costMicroUSD == CostMicroUSD(turns[c].kind, u.promptTokens, u.completionTokens)
       && h.reply.completion.finish == last.finish && !h.reply.completion.cacheHit
  }

  lemma CompletedWasRouted(s: Setup, st: State, req: Request, w: World)
    requires s.Valid() && Handle(s, st, req, w, NEW_WIRE).reply.Completed?
    ensures var h := Handle(s, st, req, w, NEW_WIRE);
            var r := Route(s.breaker, w.refuses, Captures(s, w), st.view, NEW_WIRE, TurnsOf(s, req, w));
            && r.outcome.Served? && h.wire == r.wire
            && h.reply.completion
               == Completion(r.outcome.kind, Priced(r.outcome.kind, r.outcome.usage), r.outcome.finish, false)
  {}

  lemma CompletedIsServedInFull(s: Setup, st: State, req: Request, w: World) returns (c: nat)
    requires s.Valid() && Handle(s, st, req, w, NEW_WIRE).reply.Completed?
    ensures var h := Handle(s, st, req, w, NEW_WIRE);
            ServedInFull(s, req, w, h, c) && (Captures(s, w) ==> h.wire.text == TextOf(h.wire.got))
  {
    var turns := TurnsOf(s, req, w);
    var arrived;
    CompletedWasRouted(s, st, req, w);
    c, arrived := NoSplicedAnswer(s.breaker, w.refuses, Captures(s, w), st.view, NEW_WIRE, turns);
    CandidatesAreEligible(s.providers, req.pinned, req.model);
    var h := Handle(s, st, req, w, NEW_WIRE);
    assert h.wire.got == NEW_WIRE.got + arrived == arrived;
    assert turns[c].kind == Candidates(s.providers, req.pinned, req.model)[c].kind;
  }

  // Which gate refuses a request, exactly, and that a refused one changes nothing and is sent nothing.
  lemma GatesExactly(s: Setup, st: State, req: Request, w: World)
    requires s.Valid()
    ensures var h := Handle(s, st, req, w, NEW_WIRE);
            && (h.reply.InvalidInput? <==> |req.messages| == 0)
            && (h.reply.ModelNotAllowed? <==> |req.messages| > 0 && !w.permitted)
            && (h.reply.BudgetExceeded? <==>
                 |req.messages| > 0 && w.permitted && req.team != "" && s.wiring.budget && w.budget == Over)
            && (h.reply.InvalidInput? || h.reply.ModelNotAllowed? || h.reply.BudgetExceeded? ==>
                 h.state == st && h.wire.calls == 0 && h.wire.got == [])
  {}

  // A request that neither completes nor is replayed leaves no trace but in the breakers; one that finds no provider
  // or none that works is told so, if its client still listens.
  lemma FailuresLeaveNoTrace(s: Setup, st: State, req: Request, w: World)
    requires s.Valid()
    ensures var h := Handle(s, st, req, w, NEW_WIRE);
            && (!h.reply.Completed? && !h.reply.Replayed? ==> h.state == st.(view := h.state.view))
            && (h.reply.NoProvider? ==>
                 && TurnsOf(s, req, w) == [] && h.wire.calls == 1
                 && h.wire.got == if w.refuses(0) then [] else [Delta("", true, NO_USAGE, Failed)])
            && (h.reply.AllProvidersFailed? ==>
                 && ToldOfFailure(w.refuses, h.wire)
                 && (h.reply.partial <==> exists d <- h.wire.got :: !d.done))
  {
    var h := Handle(s, st, req, w, NEW_WIRE);
    if h.reply.AllProvidersFailed? {
      RouteTellsFailure(s.breaker, w.refuses, Captures(s, w), st.view, NEW_WIRE, TurnsOf(s, req, w));
      PartialIsTold(s, st, req, w);
    }
  }

  // An answer that broke off is told from one that never began by whether any of it arrived.
  lemma PartialIsTold(s: Setup, st: State, req: Request, w: World)
    requires s.Valid() && Handle(s, st, req, w, NEW_WIRE).reply.AllProvidersFailed?
    ensures var h := Handle(s, st, req, w, NEW_WIRE); h.reply.partial <==> exists d <- h.wire.got :: !d.done
  {
    var h := Handle(s, st, req, w, NEW_WIRE);
    var r := Route(s.breaker, w.refuses, Captures(s, w), st.view, NEW_WIRE, TurnsOf(s, req, w));
    var c, arrived := NoSplicedAnswer(s.breaker, w.refuses, Captures(s, w), st.view, NEW_WIRE, TurnsOf(s, req, w));
    FailureWasRouted(s, st, req, w);
    assert arrived != [] ==> arrived[0] in h.wire.got;
  }

  lemma FailureWasRouted(s: Setup, st: State, req: Request, w: World)
    requires s.Valid() && Handle(s, st, req, w, NEW_WIRE).reply.AllProvidersFailed?
    ensures var h := Handle(s, st, req, w, NEW_WIRE);
            var r := Route(s.breaker, w.refuses, Captures(s, w), st.view, NEW_WIRE, TurnsOf(s, req, w));
            h.wire == r.wire && (if h.reply.partial then r.outcome.Broken? else r.outcome.Exhausted?)
  {}

  // The last thing sent was the error frame, which arrived if the client took it.
  predicate ToldOfFailure(refuses: nat -> bool, w: Wire) {
    w.calls > 0 && (!refuses(w.calls - 1) ==> w.got != [] && w.got[|w.got| - 1] == ERROR_FRAME)
  }

  lemma {:induction false} RouteTellsFailure(
      cfg: Config, refuses: nat -> bool, capture: bool, view: View, w: Wire, turns: seq<Turn>)
    ensures var r := Route(cfg, refuses, capture, view, w, turns);
            r.outcome.Exhausted? || r.outcome.Broken? ==> ToldOfFailure(refuses, r.wire)
    decreases turns
  {
    if turns != [] {
      var v := VisitOf(cfg, refuses, capture, view, w, turns[0]);
      var w' := if v.called then Called(refuses, capture, w, turns[0]).0 else w;
      RouteTellsFailure(cfg, refuses, capture, Visited(cfg, view, v), w', turns[1..]);
    }
  }

  // ------------------------------------------------------------- replay fidelity

  // `e` is what a request that completed cleanly leaves for later ones.
  ghost predicate Left(s: Setup, st: State, req: Request, w: World, e: Entry)
    requires s.Valid()
  {
    var h := Handle(s, st, req, w, NEW_WIRE);
    && (exists c :: ServedInFull(s, req, w, h, c))
    && e.response == TextOf(h.wire.got)
    && e.servedBy == h.reply.completion.servedBy && e.usage == h.reply.completion.usage
    && w.embedding == Embedded(e.embedding) && e.prompt == Prompt(req.messages)
  }

  // `e` was left by an earlier request of the team.
  ghost predicate LeftEarlier(s: Setup, ops: seq<Op>, team: string, e: Entry)
    requires s.Valid()
  {
    exists i :: 0 <= i < |ops| && ops[i].Chat? && ops[i].req.team == team
             && Left(s, StateAfter(s, ops[..i]), ops[i].req, ops[i].w, e)
  }

  lemma LeftStaysEarlier(s: Setup, ops: seq<Op>, op: Op, team: string, e: Entry)
    requires s.Valid() && LeftEarlier(s, ops, team, e)
    ensures LeftEarlier(s, ops + [op], team, e)
  {
    var i :| 0 <= i < |ops| && ops[i].Chat? && ops[i].req.team == team
             && Left(s, StateAfter(s, ops[..i]), ops[i].req, ops[i].w, e);
    assert (ops + [op])[..i] == ops[..i];
  }

  // A request changes at most its own team's list, and only by pushing what it left.
  lemma ListAfterRequest(s: Setup, st: State, req: Request, w: World, team: string)
    requires s.Valid()
    ensures var list, list' := ListOf(st.lists, team), ListOf(Handle(s, st, req, w, NEW_WIRE).state.lists, team);
            list' == list ||
            (team == req.team &&
             exists e :: Left(s, st, req, w, e) && list' == Capped([Encoded(e)] + list, s.maxEntries))
  {
    if Handle(s, st, req, w, NEW_WIRE).state.lists != st.lists {
      var e := PushedWasLeft(s, st, req, w);
      KeysSeparateTeams(team, req.team);
    }
  }

  lemma PushedWasLeft(s: Setup, st: State, req: Request, w: World) returns (e: Entry)
    requires s.Valid() && Handle(s, st, req, w, NEW_WIRE).state.lists != st.lists
    ensures Left(s, st, req, w, e)
    ensures Handle(s, st, req, w, NEW_WIRE).state.lists == Pushed(st.lists, req.team, Encoded(e), s.maxEntries)
  {
    var h := Handle(s, st, req, w, NEW_WIRE);
    OnlyCompletionsStore(s, st, req, w);
    var c := CompletedIsServedInFull(s, st, req, w);
    var served := h.reply.completion;
    e := Entry(w.embedding.vector, Prompt(req.messages), h.wire.text, served.usage, served.servedBy);
  }

  lemma OnlyCompletionsStore(s: Setup, st: State, req: Request, w: World)
    requires s.Valid()
    ensures var h := Handle(s, st, req, w, NEW_WIRE);
            h.state.lists != st.lists ==>
              && h.reply.Completed? && s.wiring.cache && w.embedding.Embedded?
              && var c := h.reply.completion;
                 var e := Entry(w.embedding.vector, Prompt(req.messages), h.wire.text, c.usage, c.servedBy);
                 h.state.lists == Pushed(st.lists, req.team, Encoded(e), s.maxEntries)
  {}

  lemma {:induction false} EveryEntryWasLeft(s: Setup, ops: seq<Op>, team: string)
    requires s.Valid()
    ensures forall b <- ListOf(StateAfter(s, ops).lists, team) :: b.Encoded? && LeftEarlier(s, ops, team, b.entry)
    decreases |ops|
  {
    if ops != [] {
      var before, op := ops[..|ops| - 1], ops[|ops| - 1];
      assert ops == before + [op];
      EveryEntryWasLeft(s, before, team);
      var st := StateAfter(s, before);
      forall b | b in ListOf(st.lists, team) ensures LeftEarlier(s, ops, team, b.entry) {
        LeftStaysEarlier(s, before, op, team, b.entry);
      }
      if op.Chat? {
        ListAfterRequest(s, st, op.req, op.w, team);
        forall e | team == op.req.team && Left(s, st, op.req, op.w, e) ensures LeftEarlier(s, ops, team, e) {
          assert ops[|before|] == op && ops[..|before|] == before;
        }
      } else {
        KeysSeparateTeams(team, op.team);
      }
    }
  }

  // What a cache hit replays to a team is the text, usage and provider of one earlier request of the same team
  // that was served in full; never a partial answer, a failed attempt's text or another team's entry.
  lemma ReplayFidelity(s: Setup, ops: seq<Op>, req: Request, w: World) returns (e: Entry)
    requires s.Valid() && Handle(s, StateAfter(s, ops), req, w, NEW_WIRE).reply.Replayed?
    ensures var h := Handle(s, StateAfter(s, ops), req, w, NEW_WIRE);
            && LeftEarlier(s, ops, req.team, e)
            && h.reply.completion == Completion(e.servedBy, e.usage, Stop, true)
            && h.wire.got == (if e.response == "" then [] else [Text(e.response)])
  {
    var st := StateAfter(s, ops);
    e := LookedUp(s, st, req, w).entry;
    EveryEntryWasLeft(s, ops, req.team);
    var kept := Capped(ListOf(st.lists, req.team), s.maxEntries);
    DecodedMembers(kept);
    assert e in Decoded(kept);
    assert Encoded(e) in ListOf(st.lists, req.team);
    var i :| 0 <= i < |ops| && ops[i].Chat? && ops[i].req.team == req.team
             && Left(s, StateAfter(s, ops[..i]), ops[i].req, ops[i].w, e);
    assert e.usage == WithTotal(e.usage);
  }

  // ------------------------------------------------------ the cache over a run

  // What a request stores.
  ghost function StoredBy(s: Setup, st: State, req: Request, w: World): seq<CacheOp>
    requires s.Valid()
  {
    var h := Handle(s, st, req, w, NEW_WIRE);
    if h.reply.Completed? && s.wiring.cache && w.embedding.Embedded? && h.wire.text != "" && !w.storeFails then
      var c := h.reply.completion;
      [Push(req.team, Encoded(Entry(w.embedding.vector, Prompt(req.messages), h.wire.text, c.usage, c.servedBy)))]
    else []
  }

  lemma RequestStores(s: Setup, st: State, req: Request, w: World)
    requires s.Valid()
    ensures var stored := StoredBy(s, st, req, w);
            Handle(s, st, req, w, NEW_WIRE).state.lists
            == if stored == [] then st.lists else Applied(st.lists, stored[0], s.maxEntries)
  {}

  ghost function CacheOpOf(s: Setup, st: State, op: Op): (ops: seq<CacheOp>)
    requires s.Valid()
    ensures |ops| <= 1
  {
    match op
    case Chat(req, w) => StoredBy(s, st, req, w)
    case KeyExpires(team) => [Expire(team)]
  }

  lemma OpStores(s: Setup, st: State, op: Op)
    requires s.Valid()
    ensures var ops := CacheOpOf(s, st, op);
            Reacts(s, st, op).lists == if ops == [] then st.lists else Applied(st.lists, ops[0], s.maxEntries)
  {
    if op.Chat? { RequestStores(s, st, op.req, op.w); }
  }

  // What a run does to the cache.
  ghost function CacheOps(s: Setup, ops: seq<Op>): seq<CacheOp>
    requires s.Valid()
  {
    if ops == [] then []
    else
      var before := ops[..|ops| - 1];
      CacheOps(s, before) + CacheOpOf(s, StateAfter(s, before), ops[|ops| - 1])
  }

  lemma AfterAtMostOne(ops: seq<CacheOp>, more: seq<CacheOp>, max: nat)
    requires |more| <= 1
    ensures After(ops + more, max) == if more == [] then After(ops, max) else Applied(After(ops, max), more[0], max)
  {
    if more == [] {
      assert ops + more == ops;
    } else {
      assert more == [more[0]];
      AfterOne(ops, more[0], max);
    }
  }

  lemma {:induction false} ListsFollowTheRun(s: Setup, ops: seq<Op>)
    requires s.Valid()
    ensures StateAfter(s, ops).lists == After(CacheOps(s, ops), s.maxEntries)
    decreases |ops|
  {
    if ops != [] {
      var before, op := ops[..|ops| - 1], ops[|ops| - 1];
      var st := StateAfter(s, before);
      ListsFollowTheRun(s, before);
      OpStores(s, st, op);
      AfterAtMostOne(CacheOps(s, before), CacheOpOf(s, st, op), s.maxEntries);
    }
  }

  // What a completed request stores, exactly: the text that its client got, if there is any and the cache is wired,
  // could embed the prompt and takes it; with the prompt and its embedding, the price and the provider.
  lemma StoresExactly(s: Setup, st: State, req: Request, w: World)
    requires s.Valid() && Handle(s, st, req, w, NEW_WIRE).reply.Completed?
    ensures var h := Handle(s, st, req, w, NEW_WIRE);
            var c, text := h.reply.completion, TextOf(h.wire.got);
            StoredBy(s, st, req, w) ==
              if s.wiring.cache && w.embedding.Embedded? && text != "" && !w.storeFails then
                [Push(req.team, Encoded(Entry(w.embedding.vector, Prompt(req.messages), text, c.usage, c.servedBy)))]
              else []
  {
    var c := CompletedIsServedInFull(s, st, req, w);
  }

  // The text of a message, after the name of who said it.
  function Line(m: Message): string {
    (if m.role == System then "system: " else if m.role == Assistant then "assistant: " else "user: ") + m.content
  }

  function Lines(messages: seq<Message>): string {
    if messages == [] then ""
    else Line(messages[0]) + (if |messages| == 1 then "" else "\n") + Lines(messages[1..])
  }

  // The prompt is the messages' lines, one after the other.
  lemma {:induction false} PromptIsLines(messages: seq<Message>)
    ensures Prompt(messages) == Lines(messages)
    decreases |messages|
  {
    if |messages| == 1 {
      LineIs(messages[0]);
      assert Prompt(messages) == Label(messages[0].role) + ": " + messages[0].content;
      assert Lines(messages[1..]) == "";
    } else if messages != [] {
      var n := |messages| - 1;
      PromptIsLines(messages[..n]);
      LineIs(messages[n]);
      LinesLast(messages);
    }
  }

  lemma LineIs(m: Message)
    ensures Line(m) == Label(m.role) + ": " + m.content
  {}

  lemma {:induction false} LinesLast(messages: seq<Message>)
    requires |messages| > 1
    ensures var n := |messages| - 1; Lines(messages) == Lines(messages[..n]) + "\n" + Line(messages[n])
    decreases |messages|
  {
    var n, rest := |messages| - 1, messages[1..];
    assert messages[..n][1..] == rest[..n - 1];
    if n > 1 {
      LinesLast(rest);
    } else {
      assert rest[1..] == [] && messages[..n][1..] == [];
    }
  }

  // After any run a team's list is its last min(n, maxEntries) stored completions since its key last expired,
  // newest first.
  lemma ListIsRecentCompletions(s: Setup, ops: seq<Op>, team: string)
    requires s.Valid()
    ensures IsRecent(ListOf(StateAfter(s, ops).lists, team), PushedSince(CacheOps(s, ops), team), s.maxEntries)
  {
    ListsFollowTheRun(s, ops);
    ListIsRecentHistory(CacheOps(s, ops), team, s.maxEntries);
  }

  // The request gets as far as an answered lookup.
  predicate LooksUp(s: Setup, req: Request, w: World) {
    && req.messages != [] && w.permitted && !(req.team != "" && s.wiring.budget && w.budget.Over?)
    && s.wiring.cache && w.embedding.Embedded? && !w.lookupFails
  }

  // After any run a request that looks the cache up replays the nearest of its team's last maxEntries stored
  // completions, the newest among equals, if one of them clears the threshold; if none does, it is served.
  lemma RequestHitsExactly(s: Setup, ops: seq<Op>, req: Request, w: World) returns (m: Match, at: nat)
    requires s.Valid() && LooksUp(s, req, w)
    ensures var st, kept := StateAfter(s, ops), Retained(CacheOps(s, ops), req.team, s.maxEntries);
            if SomeClears(s.root, w.embedding.vector, kept, s.threshold) then
              && Clears(m, s.threshold) && NearestKept(s.root, w.embedding.vector, kept, m, at)
              && Handle(s, st, req, w, NEW_WIRE) == Replay(s, st, req, w, NEW_WIRE, m.entry)
            else Handle(s, st, req, w, NEW_WIRE) == Serve(s, st, req, w, NEW_WIRE)
  {
    var st := StateAfter(s, ops);
    m := LookedUp(s, st, req, w);
    ListsFollowTheRun(s, ops);
    at := HitsExactly(s.root, w.embedding.vector, CacheOps(s, ops), req.team, s.maxEntries, s.threshold, m);
  }

  // A replay looks at neither the pin nor the model: it names the provider that left the nearest retained entry, in an
  // earlier request of the team.
  lemma ReplayIgnoresPin(s: Setup, ops: seq<Op>, req: Request, w: World) returns (e: Entry, at: nat)
    requires s.Valid() && Handle(s, StateAfter(s, ops), req, w, NEW_WIRE).reply.Replayed?
    ensures var kept := Retained(CacheOps(s, ops), req.team, s.maxEntries);
            && w.embedding.Embedded? && LeftEarlier(s, ops, req.team, e)
            && NearestKept(s.root, w.embedding.vector, kept,
                           Best(e, Similarity(s.root, w.embedding.vector, e.embedding)), at)
    ensures Handle(s, StateAfter(s, ops), req, w, NEW_WIRE).reply.completion.servedBy == e.servedBy
  {
    var m;
    m, at := RequestHitsExactly(s, ops, req, w);
    e := m.entry;
    EveryEntryWasLeft(s, ops, req.team);
    ListsFollowTheRun(s, ops);
    KeptIsListed(CacheOps(s, ops), req.team, s.maxEntries, at);
  }

  // ------------------------------------------------------- requests that reach one provider

  // A request pinned to a provider, in surroundings where nothing but the provider matters.
  function PinnedTo(team: string, kind: ProviderKind): Request { Request(team, [Message(User, "")], "", kind) }

  function Only(turn: Turn, refuses: nat -> bool): World {
    World(true, Allowed, EmbedError, false, _ => turn, refuses, false, false, false, false)
  }

  predicate Registered(s: Setup, kind: ProviderKind) { exists p <- s.providers :: p.kind == kind }

  lemma PinnedTurns(s: Setup, team: string, kind: ProviderKind, w: World)
    requires kind != Unspecified && Registered(s, kind) && w.turns(0).kind == kind
    ensures TurnsOf(s, PinnedTo(team, kind), w) == [w.turns(0)]
  {
    LatestIsRegistered(s.providers, kind);
    var named := Latest(s.providers, kind);
    assert named != [] && named[1..] == [];
    assert Eligible(named, "") == named;
    assert Candidates(s.providers, kind, "") == named;
  }

  lemma PinnedIsServed(s: Setup, st: State, team: string, kind: ProviderKind, turn: Turn, refuses: nat -> bool)
    requires s.Valid() && kind != Unspecified && Registered(s, kind) && turn.kind == kind
    ensures var req, w := PinnedTo(team, kind), Only(turn, refuses);
            && TurnsOf(s, req, w) == [turn]
            && Handle(s, st, req, w, NEW_WIRE) == Serve(s, st, req, w, NEW_WIRE)
  {
    PinnedTurns(s, team, kind, Only(turn, refuses));
  }

  lemma ServeView(s: Setup, st: State, req: Request, w: World)
    requires TurnsOf(s, req, w) != []
    ensures Serve(s, st, req, w, NEW_WIRE).state.view
         == Route(s.breaker, w.refuses, Captures(s, w), st.view, NEW_WIRE, TurnsOf(s, req, w)).view
  {}

  lemma PinnedView(s: Setup, st: State, team: string, kind: ProviderKind, turn: Turn, refuses: nat -> bool)
    requires s.Valid() && kind != Unspecified && Registered(s, kind) && turn.kind == kind
    ensures Handle(s, st, PinnedTo(team, kind), Only(turn, refuses), NEW_WIRE).state.view
         == Visited(s.breaker, st.view, VisitOf(s.breaker, refuses, s.wiring.includeText, st.view, NEW_WIRE, turn))
  {
    PinnedIsServed(s, st, team, kind, turn, refuses);
    ServeView(s, st, PinnedTo(team, kind), Only(turn, refuses));
    OneTurn(s.breaker, refuses, s.wiring.includeText, st.view, NEW_WIRE, turn);
  }

  // ------------------------------------------------------- a pin that a replay passes over

  lemma EmptyCacheMisses(s: Setup, req: Request, w: World)
    requires s.Valid()
    ensures LookedUp(s, EMPTY, req, w) == Nothing
  {
    var kept := Capped(ListOf(EMPTY.lists, req.team), s.maxEntries);
    assert kept == [];
  }

  const UNIT: Vector := [1.0]

  lemma UnitIsItself(root: real -> real)
    requires IsSqrt(root)
    ensures Similarity(root, UNIT, UNIT) == 1.0
  {
    assert UNIT[..0] == [];
    assert Dot(UNIT, UNIT) == Dot(UNIT[..0], UNIT[..0]) + Times(1.0, 1.0);
    SimilarityToSelf(root, UNIT);
  }

  // The provider says one token and ends.
  function Answering(kind: ProviderKind): Turn {
    Turn(kind, true, [Text("t"), Delta("", true, NO_USAGE, Stop)], 0, 0, 0, 0)
  }

  function AnsweringWorld(kind: ProviderKind): World {
    Only(Answering(kind), (i: nat) => false).(embedding := Embedded(UNIT))
  }

  lemma FirstStreams(cfg: Config, kind: ProviderKind)
    ensures var r := Route(cfg, (i: nat) => false, true, map[], NEW_WIRE, [Answering(kind)]);
            r.outcome == Served(kind, NO_USAGE, Stop) && r.wire.text == "t"
  {
    var refuses := (i: nat) => false;
    var w := Forwarded(refuses, true, NEW_WIRE, Text("t"));
    var end := Delta("", true, NO_USAGE, Stop);
    assert Answering(kind).frames[1..] == [end];
    assert Streamed(refuses, true, w, [end], true) == (w, Clean(NO_USAGE, Stop));
    assert w.text == "t";
  }

  lemma ServeSettles(s: Setup, st: State, req: Request, w: World)
    requires TurnsOf(s, req, w) != []
    ensures var r := Route(s.breaker, w.refuses, Captures(s, w), st.view, NEW_WIRE, TurnsOf(s, req, w));
            Serve(s, st, req, w, NEW_WIRE).state
            == Settled(s, st.(view := r.view), req, w, r.outcome, r.wire.text).0
  {}

  // What a provider's answer adds to the cache.
  lemma SettledStores(s: Setup, st: State, req: Request, w: World, o: Outcome, text: string)
    requires s.wiring.cache && w.embedding.Embedded? && text != "" && !w.storeFails && o.Served?
    ensures Settled(s, st, req, w, o, text).0.lists
         == var e := Entry(w.embedding.vector, Prompt(req.messages), text, Priced(o.kind, o.usage), o.kind);
            Pushed(st.lists, req.team, Encoded(e), s.maxEntries)
  {}

  lemma FirstPush(team: string, b: Blob, max: nat)
    requires max > 0
    ensures ListOf(Pushed(map[], team, b, max), team) == [b]
  {
    assert ListOf(map[], team) == [];
    assert Capped([b] + [], max) == [b];
  }

  lemma MissIsServed(s: Setup, st: State, req: Request, w: World)
    requires s.Valid() && LooksUp(s, req, w) && LookedUp(s, st, req, w) == Nothing
    ensures Handle(s, st, req, w, NEW_WIRE) == Serve(s, st, req, w, NEW_WIRE)
  {}

  // The first request to be completed leaves what the client got.
  lemma FirstServedLeaves(s: Setup, req: Request, w: World) returns (e: Entry)
    requires s.Valid() && LooksUp(s, req, w) && !w.storeFails && TurnsOf(s, req, w) != []
    requires var r := Route(s.breaker, w.refuses, Captures(s, w), map[], NEW_WIRE, TurnsOf(s, req, w));
             r.outcome.Served? && r.wire.text != ""
    ensures ListOf(Handle(s, EMPTY, req, w, NEW_WIRE).state.lists, req.team) == [Encoded(e)]
    ensures e.embedding == w.embedding.vector
    ensures e.servedBy
         == Route(s.breaker, w.refuses, Captures(s, w), map[], NEW_WIRE, TurnsOf(s, req, w)).outcome.kind
  {
    var r := Route(s.breaker, w.refuses, Captures(s, w), map[], NEW_WIRE, TurnsOf(s, req, w));
    var o, text := r.outcome, r.wire.text;
    EmptyCacheMisses(s, req, w);
    MissIsServed(s, EMPTY, req, w);
    ServeSettles(s, EMPTY, req, w);
    SettledStores(s, EMPTY.(view := r.view), req, w, o, text);
    e := Entry(w.embedding.vector, Prompt(req.messages), text, Priced(o.kind, o.usage), o.kind);
    FirstPush(req.team, Encoded(e), s.maxEntries);
  }

  // The first request ever, pinned to a provider, leaves that provider's answer.
  lemma FirstRequestLeaves(s: Setup, team: string, kind: ProviderKind) returns (e: Entry)
    requires s.Valid() && s.wiring.cache && kind != Unspecified && Registered(s, kind)
    ensures var h := Handle(s, EMPTY, PinnedTo(team, kind), AnsweringWorld(kind), NEW_WIRE);
            ListOf(h.state.lists, team) == [Encoded(e)]
    ensures e.embedding == UNIT && e.servedBy == kind
  {
    PinnedTurns(s, team, kind, AnsweringWorld(kind));
    FirstStreams(s.breaker, kind);
    e := FirstServedLeaves(s, PinnedTo(team, kind), AnsweringWorld(kind));
  }

  lemma LoneEntryIsReplayed(s: Setup, st: State, req: Request, w: World, e: Entry)
    requires s.Valid() && s.threshold <= 1.0 && LooksUp(s, req, w) && w.embedding == Embedded(UNIT)
    requires ListOf(st.lists, req.team) == [Encoded(e)] && e.embedding == UNIT && !w.refuses(0)
    ensures var r := Handle(s, st, req, w, NEW_WIRE).reply; r.Replayed? && r.completion.servedBy == e.servedBy
  {
    var list := Capped(ListOf(st.lists, req.team), s.maxEntries);
    assert list == [Encoded(e)] && list[..0] == [];
    assert Decoded(list) == Decoded(list[..0]) + [e];
    assert Decoded(list) == [e];
    UnitIsItself(s.root);
    var m := Best(e, 1.0);
    assert IsBest(s.root, UNIT, [e], 0, m);
    AnswerIsUnique(s.root, UNIT, list, m, LookedUp(s, st, req, w));
  }

  // It happens, even for a pin to a provider that is not registered: a team's answer by one provider is replayed
  // to a request of the team that is pinned to another.
  lemma PinIsPassedOver(s: Setup, team: string, kind: ProviderKind, other: ProviderKind)
    returns (ops: seq<Op>, req: Request, w: World)
    requires s.Valid() && s.wiring.cache && s.threshold <= 1.0
    requires kind != Unspecified && Registered(s, kind) && other != kind
    ensures req.pinned == other && req.team == team
    ensures var r := Handle(s, StateAfter(s, ops), req, w, NEW_WIRE).reply;
            r.Replayed? && r.completion.servedBy == kind
  {
    var e := FirstRequestLeaves(s, team, kind);
    ops := [Chat(PinnedTo(team, kind), AnsweringWorld(kind))];
    assert ops[..0] == [];
    assert StateAfter(s, ops) == Reacts(s, StateAfter(s, []), ops[0]);
    req, w := PinnedTo(team, other), AnsweringWorld(kind);
    LoneEntryIsReplayed(s, StateAfter(s, ops), req, w, e);
  }

  // After `ops` the request is answered with what `kind` once said.
  ghost predicate ReplaysAnswerOf(s: Setup, ops: seq<Op>, req: Request, w: World, kind: ProviderKind)
    requires s.Valid()
  {
    var reply := Handle(s, StateAfter(s, ops), req, w, NEW_WIRE).reply;
    reply.Replayed? && reply.completion.servedBy == kind
  }

  // A replay needs the cache, a threshold that some similarity reaches, and a provider that answered before.
  lemma ReplayNeeds(s: Setup, ops: seq<Op>, req: Request, w: World, kind: ProviderKind)
    requires s.Valid() && ReplaysAnswerOf(s, ops, req, w, kind)
    ensures s.wiring.cache && s.threshold <= 1.0 && Registered(s, kind)
  {
    var m := LookedUp(s, StateAfter(s, ops), req, w);
    SimilarityBounded(s.root, w.embedding.vector, m.entry.embedding);
    var e := ReplayFidelity(s, ops, req, w);
    var i :| 0 <= i < |ops| && ops[i].Chat? && Left(s, StateAfter(s, ops[..i]), ops[i].req, ops[i].w, e);
    LeftByRegistered(s, StateAfter(s, ops[..i]), ops[i].req, ops[i].w, e);
  }

  lemma TurnIsRegistered(s: Setup, req: Request, w: World, c: nat)
    requires c < |TurnsOf(s, req, w)|
    ensures Registered(s, TurnsOf(s, req, w)[c].kind)
  {
    var cands := Candidates(s.providers, req.pinned, req.model);
    CandidatesAreEligible(s.providers, req.pinned, req.model);
    assert cands[c] in cands && TurnsOf(s, req, w)[c].kind == cands[c].kind;
  }

  lemma LeftByRegistered(s: Setup, st: State, req: Request, w: World, e: Entry)
    requires s.Valid() && Left(s, st, req, w, e)
    ensures Registered(s, e.servedBy)
  {
    var h := Handle(s, st, req, w, NEW_WIRE);
    var c: nat :| ServedInFull(s, req, w, h, c);
    TurnIsRegistered(s, req, w, c);
  }

  // Some run of requests has an answer of `kind` replayed past a pin to another provider exactly when the cache is
  // wired, its threshold is at most one and `kind` is registered.
  lemma PinsArePassedOverExactly(s: Setup, team: string, kind: ProviderKind, other: ProviderKind)
    requires s.Valid() && kind != Unspecified && other != kind
    ensures (exists ops, req: Request, w ::
              req.team == team && req.pinned == other && ReplaysAnswerOf(s, ops, req, w, kind))
       <==> s.wiring.cache && s.threshold <= 1.0 && Registered(s, kind)
  {
    if s.wiring.cache && s.threshold <= 1.0 && Registered(s, kind) {
      var ops, req, w := PinIsPassedOver(s, team, kind, other);
      assert ReplaysAnswerOf(s, ops, req, w, kind);
    }
    forall ops, req: Request, w | ReplaysAnswerOf(s, ops, req, w, kind)
      ensures s.wiring.cache && s.threshold <= 1.0 && Registered(s, kind)
    {
      ReplayNeeds(s, ops, req, w, kind);
    }
  }
}
