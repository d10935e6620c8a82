// One chat completion, from validation to metering.
//
// The answers of the ports (budget check, embedder, providers, clock, sink) and the failures of the best-effort
// writes are inputs of a request.
module GatewayService {
  import opened Domain
  import opened CircuitBreaker
  import opened Registries
  import opened Failover
  import opened Routing
  import opened Cosine
  import opened SemanticCache
  import opened Cost

  datatype Role = NoRole | System | User | Assistant

  datatype Message = Message(role: Role, content: string)

  datatype Request = Request(team: string, messages: seq<Message>, model: string, pinned: ProviderKind)

  datatype BudgetAnswer = Allowed | Over | Unavailable

  datatype Embedding = Embedded(vector: Vector) | EmbedError

  datatype World = World(
    permitted: bool,              // the allow-list's verdict
    budget: BudgetAnswer,         // Check
    embedding: Embedding,         // Embed
    lookupFails: bool,
    turns: nat -> Turn,           // what each candidate does
    refuses: nat -> bool,         // which frames the client's stream refuses
    deductFails: bool, addFails: bool, storeFails: bool, publishFails: bool)

  datatype Wiring = Wiring(budget: bool, usage: bool, cache: bool, publisher: bool, includeText: bool)

  datatype Setup = Setup(
    breaker: Config, providers: seq<Provider>, root: real -> real, threshold: real, maxEntries: nat, wiring: Wiring)
  {
    ghost predicate Valid() { breaker.Valid() && IsSqrt(root) && threshold > 0.0 && maxEntries > 0 }
  }

  const DEFAULT_THRESHOLD := 0.95

  function Threshold(configured: real): (t: real)
    ensures t > 0.0 && t == if configured > 0.0 then configured else 0.95
  {
    if configured <= 0.0 then DEFAULT_THRESHOLD else configured
  }

  datatype Completion = Completion(servedBy: ProviderKind, usage: TokenUsage, finish: FinishReason, cacheHit: bool)

  datatype Reply =
    | InvalidInput
    | ModelNotAllowed
    | BudgetExceeded
    | NoProvider
    | SinkGone(kind: ProviderKind)
    | Replayed(completion: Completion)
    | Completed(completion: Completion)
    | AllProvidersFailed(partial: bool)

  datatype Deduction = Deduction(team: string, tokens: int)

  datatype Addition = Addition(team: string, promptTokens: int32, completionTokens: int32)

  datatype CompletionServed = CompletionServed(
    team: string, model: string, provider: ProviderKind, usage: TokenUsage, cacheHit: bool,
    promptText: string, responseText: string)

  // Everything a request leaves behind.
  datatype State = State(
    view: View, lists: Lists, deductions: seq<Deduction>, additions: seq<Addition>, events: seq<CompletionServed>)

  const EMPTY := State(map[], map[], [], [], [])

  datatype Handled = Handled(state: State, reply: Reply, wire: Wire)

  function Label(r: Role): string {
    match r
    case System => "system"
    case Assistant => "assistant"
    case User => "user"
    case NoRole => "user"
  }

  function Prompt(messages: seq<Message>): string {
    if messages == [] then ""
    else
      var n := |messages| - 1;
      (if n == 0 then "" else Prompt(messages[..n]) + "\n") + Label(messages[n].role) + ": " + messages[n].content
  }

  function Text(s: string): Delta { Delta(s, false, NO_USAGE, NoReason) }

  function WithTotal(u: TokenUsage): TokenUsage { u.(totalTokens := Add32(u.promptTokens, u.completionTokens)) }

  function Priced(kind: ProviderKind, u: TokenUsage): TokenUsage {
    WithTotal(u).(costMicroUSD := CostMicroUSD(kind, u.promptTokens, u.completionTokens))
  }

  function EventOf(
      s: Setup, req: Request, kind: ProviderKind, usage: TokenUsage, hit: bool, prompt: string, response: string)
    : CompletionServed
  {
    CompletionServed(req.team, req.model, kind, usage, hit,
      if s.wiring.includeText then prompt else "", if s.wiring.includeText then response else "")
  }

  function Published(s: Setup, w: World, events: seq<CompletionServed>, e: CompletionServed): seq<CompletionServed> {
    if s.wiring.publisher && !w.publishFails then events + [e] else events
  }

  function Replay(s: Setup, st: State, req: Request, w: World, w0: Wire, e: Entry): Handled {
    var wire := if e.response == "" then w0 else Sent(w.refuses, w0, Text(e.response));
    if e.response != "" && w.refuses(w0.calls) then Handled(st, SinkGone(e.servedBy), wire)
    else
      var usage := WithTotal(e.usage);
      Handled(
        st.(events := Published(s, w, st.events, EventOf(s, req, e.servedBy, usage, true, e.prompt, e.response))),
        Replayed(Completion(e.servedBy, usage, Stop, true)), wire)
  }

  function Metered(
      s: Setup, st: State, req: Request, w: World, kind: ProviderKind, usage: TokenUsage, text: string): State {
    var charged := req.team != "" && usage.totalTokens > 0;
    State(
      st.view,
      if s.wiring.cache && w.embedding.Embedded? && text != "" && !w.storeFails then
        Pushed(st.lists, req.team,
               Encoded(Entry(w.embedding.vector, Prompt(req.messages), text, usage, kind)), s.maxEntries)
      else st.lists,
      if charged && s.wiring.budget && !w.deductFails then
        st.deductions + [Deduction(req.team, usage.totalTokens)] else st.deductions,
      if charged && s.wiring.usage && !w.addFails then
        st.additions + [Addition(req.team, usage.promptTokens, usage.completionTokens)] else st.additions,
      Published(s, w, st.events, EventOf(s, req, kind, usage, false, Prompt(req.messages), text)))
  }

  // The candidates' turns, in failover order.
  function TurnsOf(s: Setup, req: Request, w: World): seq<Turn> {
    var cands := Candidates(s.providers, req.pinned, req.model);
    seq(|cands|, i requires 0 <= i < |cands| => w.turns(i).(kind := cands[i].kind))
  }

  predicate Captures(s: Setup, w: World) { (s.wiring.cache && w.embedding.Embedded?) || s.wiring.includeText }

  // What the outcome of the failover loop leads to.
  function Settled(s: Setup, st: State, req: Request, w: World, outcome: Outcome, text: string): (State, Reply) {
    match outcome
    case Served(kind, tokens, finish) =>
      var usage := Priced(kind, tokens);
      (Metered(s, st, req, w, kind, usage, text), Completed(Completion(kind, usage, finish, false)))
    case ClientGone(kind) => (st, SinkGone(kind))
    case Broken(_) => (st, AllProvidersFailed(true))
    case Exhausted => (st, AllProvidersFailed(false))
  }

  function Serve(s: Setup, st: State, req: Request, w: World, w0: Wire): Handled {
    var turns := TurnsOf(s, req, w);
    if turns == [] then Handled(st, NoProvider, Sent(w.refuses, w0, ERROR_FRAME))
    else
      var r := Route(s.breaker, w.refuses, Captures(s, w), st.view, w0, turns);
      var (st', reply) := Settled(s, st.(view := r.view), req, w, r.outcome, r.wire.text);
      Handled(st', reply, r.wire)
  }

  // The entry a request would replay, if it reaches the cache.
  ghost function LookedUp(s: Setup, st: State, req: Request, w: World): Match
    requires s.Valid()
  {
    if s.wiring.cache && w.embedding.Embedded? && !w.lookupFails then
      TheAnswer(s.root, w.embedding.vector, Capped(ListOf(st.lists, req.team), s.maxEntries))
    else Nothing
  }

  ghost function Handle(s: Setup, st: State, req: Request, w: World, w0: Wire): Handled
    requires s.Valid()
  {
    if req.messages == [] then Handled(st, InvalidInput, w0)
    else if !w.permitted then Handled(st, ModelNotAllowed, w0)
    else if req.team != "" && s.wiring.budget && w.budget.Over? then Handled(st, BudgetExceeded, w0)
    else
      var m := LookedUp(s, st, req, w);
      if m.Best? && m.similarity >= s.threshold then Replay(s, st, req, w, w0, m.entry)
      else Serve(s, st, req, w, w0)
  }

  // ------------------------------------------------------------------ the object

  class Gateway {
    const setup: Setup
    const providers: ProviderRegistry
    const breakers: BreakerRegistry
    const cache: RedisCache
    var deductions: seq<Deduction>
    var additions: seq<Addition>
    var events: seq<CompletionServed>

    constructor (setup: Setup, providers: ProviderRegistry, breakers: BreakerRegistry, cache: RedisCache)
      requires setup.Valid() && providers.Indexed() && breakers.Valid()
      requires providers.ordered == setup.providers && breakers.cfg == setup.breaker
                && cache.maxEntries == setup.maxEntries
      ensures Valid() && this.setup == setup
      ensures this.providers == providers && this.breakers == breakers && this.cache == cache
      ensures View() == State(breakers.View(), cache.lists, [], [], [])
    {
      this.setup, this.providers, this.breakers, this.cache := setup, providers, breakers, cache;
      deductions, additions, events := [], [], [];
    }

    ghost predicate Valid()
      reads this, breakers, breakers.breakers.Values
    {
      && setup.Valid() && providers.Indexed() && breakers.Valid()
      && providers.ordered == setup.providers && breakers.cfg == setup.breaker && cache.maxEntries == setup.maxEntries
    }

    ghost function View(): State
      reads this, breakers, breakers.breakers.Values, cache
    {
      State(breakers.View(), cache.lists, deductions, additions, events)
    }

    method Charge(req: Request, w: World, usage: TokenUsage)
      modifies this`deductions, this`additions
      ensures var charged := req.team != "" && usage.totalTokens > 0;
              && deductions == (if charged && setup.wiring.budget && !w.deductFails then
                                 old(deductions) + [Deduction(req.team, usage.totalTokens)] else old(deductions))
              && additions == (if charged && setup.wiring.usage && !w.addFails then
                                old(additions) + [Addition(req.team, usage.promptTokens, usage.completionTokens)]
                                else old(additions))
    {
      if req.team != "" && setup.wiring.budget && usage.totalTokens > 0 {
        if !w.deductFails { deductions := deductions + [Deduction(req.team, usage.totalTokens)]; }
      }
      if req.team != "" && setup.wiring.usage && usage.totalTokens > 0 {
        if !w.addFails { additions := additions + [Addition(req.team, usage.promptTokens, usage.completionTokens)]; }
      }
    }

    method Remember(req: Request, w: World, kind: ProviderKind, usage: TokenUsage, text: string)
      modifies cache
      ensures cache.lists ==
              if setup.wiring.cache && w.embedding.Embedded? && text != "" && !w.storeFails then
                Pushed(old(cache.lists), req.team,
                       Encoded(Entry(w.embedding.vector, Prompt(req.messages), text, usage, kind)), cache.maxEntries)
              else old(cache.lists)
    {
      if setup.wiring.cache && w.embedding.Embedded? && text != "" {
        var entry := Entry(w.embedding.vector, Prompt(req.messages), text, usage, kind);
        var _ := cache.Store(req.team, entry, w.storeFails);
      }
    }

    method Meter(req: Request, w: World, kind: ProviderKind, usage: TokenUsage, text: string)
      requires Valid()
      modifies this, cache
      ensures Valid() && View() == Metered(setup, old(View()), req, w, kind, usage, text)
    {
      ghost var view := breakers.View();
      Charge(req, w, usage);
      Remember(req, w, kind, usage, text);
      Publish(w, EventOf(setup, req, kind, usage, false, Prompt(req.messages), text));
      assert breakers.View() == view;
    }

    method Publish(w: World, e: CompletionServed)
      modifies this`events
      ensures events == Published(setup, w, old(events), e)
    {
      if setup.wiring.publisher && !w.publishFails { events := events + [e]; }
    }

    method StreamFromProviders(turns: seq<Turn>, w: World, client: Client) returns (outcome: Outcome, text: string)
      requires Valid() && client.refuses == w.refuses
      modifies breakers, breakers.breakers.Values, client
      ensures Valid() && breakers.Grown(old(breakers.breakers.Values))
      ensures var view, w0 := old(breakers.View()), old(client.View(""));
              var r := Route(setup.breaker, w.refuses, Captures(setup, w), view, w0, turns);
              && outcome == r.outcome && text == r.wire.text
              && View() == old(View()).(view := r.view) && client.View(text) == r.wire
    {
      var sink := new CapturingSink(client, Captures(setup, w));
      outcome := RouteAndStream(breakers, turns, sink);
      text := sink.text;
    }

    // The candidates, each with what it will do.
    method Candidates(req: Request, w: World) returns (turns: seq<Turn>)
      requires Valid()
      ensures turns == TurnsOf(setup, req, w)
    {
      var cands := providers.Route(req.pinned, req.model);
      turns := seq(|cands|, i requires 0 <= i < |cands| => w.turns(i).(kind := cands[i].kind));
    }

    // Stream from the candidates and settle.
    method ServeFrom(turns: seq<Turn>, req: Request, w: World, client: Client) returns (reply: Reply)
      requires Valid() && client.refuses == w.refuses
      modifies this, breakers, breakers.breakers.Values, cache, client
      ensures Valid() && breakers.Grown(old(breakers.breakers.Values))
      ensures var view, w0 := old(breakers.View()), old(client.View(""));
              var r := Route(setup.breaker, w.refuses, Captures(setup, w), view, w0, turns);
              && (View(), reply) ==
                 Settled(setup, old(View()).(view := r.view), req, w, r.outcome, r.wire.text)
              && client.View(r.wire.text) == r.wire
    {
      var outcome, text := StreamFromProviders(turns, w, client);
      ghost var streamed := client.View(text);
      reply := Settle(req, w, outcome, text);
      assert client.View(text) == streamed;
    }

    method ServeByProvider(req: Request, w: World, client: Client) returns (reply: Reply)
      requires Valid() && client.refuses == w.refuses
      modifies this, breakers, breakers.breakers.Values, cache, client
      ensures Valid() && breakers.Grown(old(breakers.breakers.Values))
      ensures var h := Serve(setup, old(View()), req, w, old(client.View("")));
              reply == h.reply && View() == h.state && client.View(h.wire.text) == h.wire
    {
      var turns := Candidates(req, w);
      if |turns| == 0 {
        var _ := client.Push(ERROR_FRAME);
        return NoProvider;
      }
      reply := ServeFrom(turns, req, w, client);
    }

    method Settle(req: Request, w: World, outcome: Outcome, text: string) returns (reply: Reply)
      requires Valid()
      modifies this, cache
      ensures Valid() && (View(), reply) == Settled(setup, old(View()), req, w, outcome, text)
    {
      match outcome {
        case Exhausted => reply := AllProvidersFailed(false);
        case Broken(_) => reply := AllProvidersFailed(true);
        case ClientGone(kind) => reply := SinkGone(kind);
        case Served(kind, tokens, finish) =>
          var usage := Priced(kind, tokens);
          Meter(req, w, kind, usage, text);
          reply := Completed(Completion(kind, usage, finish, false));
      }
    }

    method FinishCacheHit(req: Request, w: World, client: Client, entry: Entry) returns (reply: Reply)
      requires Valid() && client.refuses == w.refuses
      modifies this`events, client
      ensures Valid()
      ensures var h := Replay(setup, old(View()), req, w, old(client.View("")), entry);
              reply == h.reply && View() == h.state && client.View(h.wire.text) == h.wire
    {
      if entry.response != "" {
        var ok := client.Push(Text(entry.response));
        if !ok { return SinkGone(entry.servedBy); }
      }
      var usage := WithTotal(entry.usage);
      Publish(w, EventOf(setup, req, entry.servedBy, usage, true, entry.prompt, entry.response));
      reply := Replayed(Completion(entry.servedBy, usage, Stop, true));
    }

    method FindCached(req: Request, w: World) returns (m: Match)
      requires Valid()
      ensures m == LookedUp(setup, View(), req, w)
    {
      m := Nothing;
      if setup.wiring.cache && w.embedding.Embedded? && !w.lookupFails {
        m := cache.Lookup(setup.root, req.team, w.embedding.vector);
        AnswerIsUnique(setup.root, w.embedding.vector, Capped(ListOf(cache.lists, req.team), setup.maxEntries),
                       m, LookedUp(setup, View(), req, w));
      }
    }

    method ChatCompletion(req: Request, w: World, client: Client) returns (reply: Reply)
      requires Valid() && client.refuses == w.refuses
      modifies this, breakers, breakers.breakers.Values, cache, client
      ensures Valid() && breakers.Grown(old(breakers.breakers.Values))
      ensures var h := Handle(setup, old(View()), req, w, old(client.View("")));
              reply == h.reply && View() == h.state && client.View(h.wire.text) == h.wire
    {
      if |req.messages| == 0 { return InvalidInput; }
      if !w.permitted { return ModelNotAllowed; }
      if req.team != "" && setup.wiring.budget && w.budget == Over { return BudgetExceeded; }
      var m := FindCached(req, w);
      if m.Best? && m.similarity >= setup.threshold {
        reply := FinishCacheHit(req, w, client, m.entry);
        return;
      }
      reply := ServeByProvider(req, w, client);
    }
  }
}
