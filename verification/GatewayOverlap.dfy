// Gateway requests that overlap: every interleaving of the steps in which they touch what they share.
//
// A step is one access to the cache, to a breaker, to a store or to the event stream. What a request does by itself,
// streaming a provider's frames to its own client, happens with the step that follows it.
module GatewayOverlap {
  import opened Domain
  import opened CircuitBreaker
  import opened Registries
  import opened Failover
  import opened SemanticCache
  import opened GatewayService
  import opened GatewayRuns

  // The writes after a completion, in order.
  datatype Write = Deducting | Adding | Storing | Publishing

  datatype Phase =
    | Arrived
    | Admitted
    | Replaying(entry: Entry)
    | Trying(left: seq<Turn>, wire: Wire)
    | Calling(turn: Turn, later: seq<Turn>, wire: Wire)
    | Writing(next: Write, completion: Completion, wire: Wire)
    | Done(reply: Reply, wire: Wire)

  datatype Flight = Flight(req: Request, w: World, phase: Phase)

  // The gates, the budget's the last of them.
  function Entered(s: Setup, req: Request, w: World): Phase {
    if req.messages == [] then Done(InvalidInput, NEW_WIRE)
    else if !w.permitted then Done(ModelNotAllowed, NEW_WIRE)
    else if req.team != "" && s.wiring.budget && w.budget.Over? then Done(BudgetExceeded, NEW_WIRE)
    else Admitted
  }

  // The lookup.
  ghost function Found(s: Setup, st: State, req: Request, w: World): Phase
    requires s.Valid()
  {
    var m := LookedUp(s, st, req, w);
    var turns := TurnsOf(s, req, w);
    if Clears(m, s.threshold) then Replaying(m.entry)
    else if turns == [] then Done(NoProvider, Sent(w.refuses, NEW_WIRE, ERROR_FRAME))
    else Trying(turns, NEW_WIRE)
  }

  // What follows a provider's stream.
  function Returned(s: Setup, w: World, turn: Turn, later: seq<Turn>, wire: Wire, r: StreamResult): Phase {
    match r
    case Clean(usage, finish) =>
      Writing(Deducting, Completion(turn.kind, Priced(turn.kind, usage), finish, false), wire)
    case SinkFailed => Done(SinkGone(turn.kind), wire)
    case Aborted => Done(AllProvidersFailed(true), Sent(w.refuses, wire, ERROR_FRAME))
    case Recoverable => Trying(later, wire)
  }

  function Told(cfg: Config, view: View, turn: Turn, r: StreamResult): View {
    var m := MachineOf(view, turn.kind, turn.created);
    match EndingOf(r)
    case ClientLeaves => view
    case Succeeds => view[turn.kind := Step(cfg, m, Success(turn.done))]
    case Fails => view[turn.kind := Step(cfg, m, Failure(turn.done))]
  }

  function Written(s: Setup, st: State, req: Request, w: World, next: Write, c: Completion, text: string): State {
    var full := Metered(s, st, req, w, c.servedBy, c.usage, text);
    match next
    case Deducting => st.(deductions := full.deductions)
    case Adding => st.(additions := full.additions)
    case Storing => st.(lists := full.lists)
    case Publishing => st.(events := full.events)
  }

  function AfterWrite(next: Write, c: Completion, wire: Wire): Phase {
    match next
    case Deducting => Writing(Adding, c, wire)
    case Adding => Writing(Storing, c, wire)
    case Storing => Writing(Publishing, c, wire)
    case Publishing => Done(Completed(c), wire)
  }

  // One step of a request.
  ghost function Advanced(s: Setup, st: State, f: Flight): (State, Flight)
    requires s.Valid()
  {
    match f.phase
    case Arrived => (st, f.(phase := Entered(s, f.req, f.w)))
    case Admitted => (st, f.(phase := Found(s, st, f.req, f.w)))
    case Replaying(e) =>
      var h := Replay(s, st, f.req, f.w, NEW_WIRE, e);
      (h.state, f.(phase := Done(h.reply, h.wire)))
    case Trying(left, wire) =>
      if left == [] then
        (st, f.(phase := Done(AllProvidersFailed(false), Sent(f.w.refuses, wire, ERROR_FRAME))))
      else
        var turn := left[0];
        var m := MachineOf(st.view, turn.kind, turn.created);
        var ask := Ask(turn.now, turn.stamp);
        (st.(view := st.view[turn.kind := Step(s.breaker, m, ask)]),
         f.(phase := if Admits(s.breaker, m, ask) then Calling(turn, left[1..], wire) else Trying(left[1..], wire)))
    case Calling(turn, later, wire) =>
      var (wire', r) := Called(f.w.refuses, Captures(s, f.w), wire, turn);
      (st.(view := Told(s.breaker, st.view, turn, r)), f.(phase := Returned(s, f.w, turn, later, wire', r)))
    case Writing(next, c, wire) =>
      (Written(s, st, f.req, f.w, next, c, wire.text), f.(phase := AfterWrite(next, c, wire)))
    case Done(_, _) => (st, f)
  }

  // What the requests share, and the requests.
  datatype Hall = Hall(state: State, flights: seq<Flight>)

  datatype Tick = Moves(i: nat) | Expires(team: string)

  function Opening(calls: seq<(Request, World)>): Hall {
    Hall(EMPTY, seq(|calls|, i requires 0 <= i < |calls| => Flight(calls[i].0, calls[i].1, Arrived)))
  }

  ghost function Ticked(s: Setup, h: Hall, t: Tick): Hall
    requires s.Valid()
  {
    match t
    case Moves(i) =>
      if i < |h.flights| then
        var (st, f) := Advanced(s, h.state, h.flights[i]);
        Hall(st, h.flights[i := f])
      else h
    case Expires(team) => h.(state := Reacts(s, h.state, KeyExpires(team)))
  }

  // The hall after any interleaving of the requests' steps and of keys that expire.
  ghost function HallAfter(s: Setup, calls: seq<(Request, World)>, ticks: seq<Tick>): Hall
    requires s.Valid()
  {
    if ticks == [] then Opening(calls)
    else Ticked(s, HallAfter(s, calls, ticks[..|ticks| - 1]), ticks[|ticks| - 1])
  }

  // ---------------------------------------------------------------- one request by itself

  // The request got every token of its candidate c, and the reply says whose and at what price.
  ghost predicate Fully(s: Setup, req: Request, w: World, c: nat, wire: Wire, reply: Completion) {
    var turns := TurnsOf(s, req, w);
    && c < |turns| && turns[c].starts && EndsClean(turns[c].frames)
    && wire.got == TokenFrames(turns[c].frames)
    && reply.servedBy == turns[c].kind && !reply.cacheHit
    && reply.usage == Priced(turns[c].kind, turns[c].frames[|wire.got|].usage)
    && (Captures(s, w) ==> wire.text == TextOf(wire.got))
  }

  ghost predicate FullyServed(s: Setup, req: Request, w: World, wire: Wire, reply: Completion) {
    exists c :: Fully(s, req, w, c, wire, reply)
  }

  // What arrived is the first n tokens of candidate c, and at most the error frame after them.
  predicate Shows(turns: seq<Turn>, wire: Wire, c: nat, n: nat) {
    && c < |turns| && n <= |TokenFrames(turns[c].frames)|
    && var arrived := TokenFrames(turns[c].frames)[..n];
       wire.got == arrived || wire.got == arrived + [ERROR_FRAME]
  }

  ghost predicate Unmixed(turns: seq<Turn>, wire: Wire) {
    wire.got == [] || wire.got == [ERROR_FRAME] || exists c: nat, n: nat :: Shows(turns, wire, c, n)
  }

  // What holds of a request at every moment, whatever the others do.
  ghost predicate Sound(s: Setup, f: Flight) {
    var turns := TurnsOf(s, f.req, f.w);
    match f.phase
    case Arrived => true
    case Admitted => true
    case Replaying(_) => true
    case Trying(left, wire) => wire == NEW_WIRE && |left| <= |turns| && left == turns[|turns| - |left|..]
    case Calling(turn, later, wire) =>
      && wire == NEW_WIRE && |later| < |turns| && turn == turns[|turns| - |later| - 1]
      && later == turns[|turns| - |later|..]
    case Writing(_, c, wire) => FullyServed(s, f.req, f.w, wire, c)
    case Done(reply, wire) =>
      if reply.Completed? then FullyServed(s, f.req, f.w, wire, reply.completion)
      else reply.Replayed? || Unmixed(turns, wire)
  }

  // A stream of candidate c, said by what arrived of it.
  lemma DeliveredIsUnmixed(
      s: Setup, req: Request, w: World, c: nat, wire: Wire, r: StreamResult, arrived: seq<Delta>)
    requires var turns := TurnsOf(s, req, w);
             c < |turns| && turns[c].starts &&
             Delivers(w.refuses, Captures(s, w), NEW_WIRE, turns[c].frames, false, wire, r, arrived)
    ensures var turns := TurnsOf(s, req, w);
            && (r.SinkFailed? ==> Unmixed(turns, wire))
            && (r.Aborted? ==> Unmixed(turns, Sent(w.refuses, wire, ERROR_FRAME)))
            && (r.Clean? ==>
                 Fully(s, req, w, c, wire, Completion(turns[c].kind, Priced(turns[c].kind, r.usage), r.finish, false)))
  {
    var turns := TurnsOf(s, req, w);
    assert wire.got == arrived == TokenFrames(turns[c].frames)[..|arrived|];
    assert r.SinkFailed? ==> Shows(turns, wire, c, |arrived|);
    assert r.Aborted? ==> Shows(turns, Sent(w.refuses, wire, ERROR_FRAME), c, |arrived|);
  }

  lemma StreamIsUnmixed(s: Setup, f: Flight, turn: Turn, c: nat)
    requires var turns := TurnsOf(s, f.req, f.w); c < |turns| && turn == turns[c]
    ensures var (w, r) := Called(f.w.refuses, Captures(s, f.w), NEW_WIRE, turn);
            && (r.SinkFailed? ==> Unmixed(TurnsOf(s, f.req, f.w), w))
            && (r.Aborted? ==> Unmixed(TurnsOf(s, f.req, f.w), Sent(f.w.refuses, w, ERROR_FRAME)))
            && (r.Recoverable? ==> w == NEW_WIRE)
            && (r.Clean? ==>
                 Fully(s, f.req, f.w, c, w, Completion(turn.kind, Priced(turn.kind, r.usage), r.finish, false)))
  {
    if turn.starts {
      var capture := Captures(s, f.w);
      var arrived := StreamedDelivers(f.w.refuses, capture, NEW_WIRE, turn.frames, false);
      var (w, r) := Called(f.w.refuses, capture, NEW_WIRE, turn);
      RecoverableIsSilent(f.w.refuses, capture, NEW_WIRE, turn.frames, w, r, arrived);
      DeliveredIsUnmixed(s, f.req, f.w, c, w, r, arrived);
    }
  }

  lemma FoundIsSound(s: Setup, st: State, f: Flight)
    requires s.Valid()
    ensures Sound(s, f.(phase := Found(s, st, f.req, f.w)))
  {
    var turns := TurnsOf(s, f.req, f.w);
    assert turns[|turns| - |turns|..] == turns;
    assert Sent(f.w.refuses, NEW_WIRE, ERROR_FRAME).got == (if f.w.refuses(0) then [] else [ERROR_FRAME]);
  }

  lemma ReplayedIsSound(s: Setup, st: State, f: Flight, e: Entry)
    ensures var h := Replay(s, st, f.req, f.w, NEW_WIRE, e);
            Sound(s, f.(phase := Done(h.reply, h.wire)))
  {}

  // The last n turns, one after another.
  lemma LastTurns(turns: seq<Turn>, left: seq<Turn>)
    requires 0 < |left| <= |turns| && left == turns[|turns| - |left|..]
    ensures left[0] == turns[|turns| - |left[1..]| - 1] && left[1..] == turns[|turns| - |left[1..]|..]
  {}

  lemma TriedLeads(s: Setup, st: State, f: Flight)
    requires s.Valid() && f.phase.Trying?
    ensures var left, f' := f.phase.left, Advanced(s, st, f).1;
            if left == [] then
              f' == f.(phase := Done(AllProvidersFailed(false), Sent(f.w.refuses, f.phase.wire, ERROR_FRAME)))
            else
              || f' == f.(phase := Calling(left[0], left[1..], f.phase.wire))
              || f' == f.(phase := Trying(left[1..], f.phase.wire))
  {}

  lemma ExhaustedIsSound(s: Setup, f: Flight)
    ensures Sound(s, f.(phase := Done(AllProvidersFailed(false), Sent(f.w.refuses, NEW_WIRE, ERROR_FRAME))))
  {
    assert Sent(f.w.refuses, NEW_WIRE, ERROR_FRAME).got == (if f.w.refuses(0) then [] else [ERROR_FRAME]);
  }

  lemma TriedIsSound(s: Setup, st: State, f: Flight)
    requires s.Valid() && Sound(s, f) && f.phase.Trying?
    ensures Sound(s, Advanced(s, st, f).1)
  {
    TriedLeads(s, st, f);
    if f.phase.left == [] {
      ExhaustedIsSound(s, f);
    } else {
      NextIsSound(s, f, f.phase.left);
    }
  }

  lemma NextIsSound(s: Setup, f: Flight, left: seq<Turn>)
    requires var turns := TurnsOf(s, f.req, f.w); 0 < |left| <= |turns| && left == turns[|turns| - |left|..]
    ensures Sound(s, f.(phase := Calling(left[0], left[1..], NEW_WIRE)))
    ensures Sound(s, f.(phase := Trying(left[1..], NEW_WIRE)))
  {
    LastTurns(TurnsOf(s, f.req, f.w), left);
  }

  lemma ReturnedIsSound(s: Setup, st: State, f: Flight)
    requires s.Valid() && Sound(s, f) && f.phase.Calling?
    ensures Sound(s, Advanced(s, st, f).1)
  {
    var turns := TurnsOf(s, f.req, f.w);
    var turn, later := f.phase.turn, f.phase.later;
    var (w, r) := Called(f.w.refuses, Captures(s, f.w), NEW_WIRE, turn);
    StreamIsUnmixed(s, f, turn, |turns| - |later| - 1);
    OutcomeIsSound(s, f, turn, later, w, r, |turns| - |later| - 1);
  }

  lemma OutcomeIsSound(
      s: Setup, f: Flight, turn: Turn, later: seq<Turn>, w: Wire, r: StreamResult, c: nat)
    requires var turns := TurnsOf(s, f.req, f.w); |later| <= |turns| && later == turns[|turns| - |later|..]
    requires r.SinkFailed? ==> Unmixed(TurnsOf(s, f.req, f.w), w)
    requires r.Aborted? ==> Unmixed(TurnsOf(s, f.req, f.w), Sent(f.w.refuses, w, ERROR_FRAME))
    requires r.Recoverable? ==> w == NEW_WIRE
    requires r.Clean? ==>
               Fully(s, f.req, f.w, c, w, Completion(turn.kind, Priced(turn.kind, r.usage), r.finish, false))
    ensures Sound(s, f.(phase := Returned(s, f.w, turn, later, w, r)))
  {}

  lemma AdvancedIsSound(s: Setup, st: State, f: Flight)
    requires s.Valid() && Sound(s, f)
    ensures Sound(s, Advanced(s, st, f).1)
  {
    match f.phase
    case Arrived =>
    case Admitted => FoundIsSound(s, st, f);
    case Replaying(e) => ReplayedIsSound(s, st, f, e);
    case Trying(_, _) => TriedIsSound(s, st, f);
    case Calling(_, _, _) => ReturnedIsSound(s, st, f);
    case Writing(_, _, _) =>
    case Done(_, _) =>
  }

  lemma {:induction false} AllAreSound(s: Setup, calls: seq<(Request, World)>, ticks: seq<Tick>)
    requires s.Valid()
    ensures |HallAfter(s, calls, ticks).flights| == |calls|
    ensures forall f <- HallAfter(s, calls, ticks).flights :: Sound(s, f)
    decreases |ticks|
  {
    if ticks != [] {
      var h, t := HallAfter(s, calls, ticks[..|ticks| - 1]), ticks[|ticks| - 1];
      AllAreSound(s, calls, ticks[..|ticks| - 1]);
      if t.Moves? && t.i < |h.flights| {
        assert h.flights[t.i] in h.flights;
        AdvancedIsSound(s, h.state, h.flights[t.i]);
      }
    }
  }

  // ---------------------------------------------------------------- the cache they share

  function EntryOf(f: Flight, c: Completion, wire: Wire): Entry
    requires f.w.embedding.Embedded?
  {
    Entry(f.w.embedding.vector, Prompt(f.req.messages), wire.text, c.usage, c.servedBy)
  }

  // What a request's next step pushes.
  function PushOf(s: Setup, f: Flight): (ops: seq<CacheOp>)
    ensures |ops| <= 1
  {
    if f.phase.Writing? && f.phase.next.Storing? && s.wiring.cache && f.w.embedding.Embedded?
       && f.phase.wire.text != "" && !f.w.storeFails then
      [Push(f.req.team, Encoded(EntryOf(f, f.phase.completion, f.phase.wire)))]
    else []
  }

  function CacheOpOfTick(s: Setup, h: Hall, t: Tick): (ops: seq<CacheOp>)
    ensures |ops| <= 1
  {
    match t
    case Moves(i) => if i < |h.flights| then PushOf(s, h.flights[i]) else []
    case Expires(team) => [Expire(team)]
  }

  ghost function CacheLog(s: Setup, calls: seq<(Request, World)>, ticks: seq<Tick>): seq<CacheOp>
    requires s.Valid()
  {
    if ticks == [] then []
    else
      var before := ticks[..|ticks| - 1];
      CacheLog(s, calls, before) + CacheOpOfTick(s, HallAfter(s, calls, before), ticks[|ticks| - 1])
  }

  lemma AdvancedStores(s: Setup, st: State, f: Flight)
    requires s.Valid()
    ensures var ops := PushOf(s, f);
            Advanced(s, st, f).0.lists == if ops == [] then st.lists else Applied(st.lists, ops[0], s.maxEntries)
  {}

  lemma TickedStores(s: Setup, h: Hall, t: Tick)
    requires s.Valid()
    ensures var ops := CacheOpOfTick(s, h, t);
            Ticked(s, h, t).state.lists
            == if ops == [] then h.state.lists else Applied(h.state.lists, ops[0], s.maxEntries)
  {
    if t.Moves? && t.i < |h.flights| { AdvancedStores(s, h.state, h.flights[t.i]); }
  }

  lemma {:induction false} ListsFollowTheTicks(s: Setup, calls: seq<(Request, World)>, ticks: seq<Tick>)
    requires s.Valid()
    ensures HallAfter(s, calls, ticks).state.lists == After(CacheLog(s, calls, ticks), s.maxEntries)
    decreases |ticks|
  {
    if ticks != [] {
      var before, t := ticks[..|ticks| - 1], ticks[|ticks| - 1];
      var h := HallAfter(s, calls, before);
      ListsFollowTheTicks(s, calls, before);
      TickedStores(s, h, t);
      AfterAtMostOne(CacheLog(s, calls, before), CacheOpOfTick(s, h, t), s.maxEntries);
    }
  }

  // Under every interleaving a team's list is its last min(n, maxEntries) stored completions since its key last
  // expired, newest store first.
  lemma OverlappedListIsRecent(s: Setup, calls: seq<(Request, World)>, ticks: seq<Tick>, team: string)
    requires s.Valid()
    ensures IsRecent(ListOf(HallAfter(s, calls, ticks).state.lists, team),
                     PushedSince(CacheLog(s, calls, ticks), team), s.maxEntries)
  {
    ListsFollowTheTicks(s, calls, ticks);
    ListIsRecentHistory(CacheLog(s, calls, ticks), team, s.maxEntries);
  }

  // The request looks the cache up and is answered with a retained entry, nearest at the moment of its lookup, if and
  // only if one clears the threshold then, whatever the others are doing.
  lemma OverlappedHitsExactly(s: Setup, calls: seq<(Request, World)>, ticks: seq<Tick>, f: Flight)
    returns (m: Match, at: nat)
    requires s.Valid() && LooksUp(s, f.req, f.w)
    ensures var kept := Retained(CacheLog(s, calls, ticks), f.req.team, s.maxEntries);
            var phase := Found(s, HallAfter(s, calls, ticks).state, f.req, f.w);
            if SomeClears(s.root, f.w.embedding.vector, kept, s.threshold) then
              && Clears(m, s.threshold) && NearestKept(s.root, f.w.embedding.vector, kept, m, at)
              && phase == Replaying(m.entry)
            else !phase.Replaying?
  {
    var st := HallAfter(s, calls, ticks).state;
    m := LookedUp(s, st, f.req, f.w);
    ListsFollowTheTicks(s, calls, ticks);
    var log, query := CacheLog(s, calls, ticks), f.w.embedding.vector;
    at := HitsExactly(s.root, query, log, f.req.team, s.maxEntries, s.threshold, m);
  }

  // The request completed, is past its store, and got in full what `e` says.
  ghost predicate LeftBy(s: Setup, f: Flight, e: Entry) {
    && s.wiring.cache && f.w.embedding.Embedded?
    && (match f.phase
        case Writing(next, c, wire) =>
          next.Publishing? && e == EntryOf(f, c, wire) && FullyServed(s, f.req, f.w, wire, c)
        case Done(reply, wire) =>
          && reply.Completed? && e == EntryOf(f, reply.completion, wire)
          && FullyServed(s, f.req, f.w, wire, reply.completion)
        case _ => false)
  }

  ghost predicate LeftIn(s: Setup, h: Hall, team: string, e: Entry) {
    exists j :: 0 <= j < |h.flights| && h.flights[j].req.team == team && LeftBy(s, h.flights[j], e)
  }

  lemma LeftByStays(s: Setup, st: State, f: Flight, e: Entry)
    requires s.Valid() && LeftBy(s, f, e)
    ensures LeftBy(s, Advanced(s, st, f).1, e)
  {}

  // What a tick does to the requests: at most one of them takes a step.
  lemma TickedFlight(s: Setup, h: Hall, t: Tick, j: nat)
    requires s.Valid() && j < |h.flights|
    ensures var h' := Ticked(s, h, t);
            && |h'.flights| == |h.flights|
            && h'.flights[j] == (if t == Moves(j) then Advanced(s, h.state, h.flights[j]).1 else h.flights[j])
            && h'.flights[j].req == h.flights[j].req && h'.flights[j].w == h.flights[j].w
  {}

  lemma LeftInStays(s: Setup, h: Hall, t: Tick, team: string, e: Entry)
    requires s.Valid() && LeftIn(s, h, team, e)
    ensures LeftIn(s, Ticked(s, h, t), team, e)
  {
    var j :| 0 <= j < |h.flights| && h.flights[j].req.team == team && LeftBy(s, h.flights[j], e);
    LeftByStays(s, h.state, h.flights[j], e);
    TickedFlight(s, h, t, j);
  }

  lemma PushedIsLeft(s: Setup, st: State, f: Flight)
    requires s.Valid() && Sound(s, f) && PushOf(s, f) != []
    ensures LeftBy(s, Advanced(s, st, f).1, PushOf(s, f)[0].blob.entry)
  {}

  ghost predicate ListIsLeft(s: Setup, h: Hall, team: string) {
    forall b <- ListOf(h.state.lists, team) :: b.Encoded? && LeftIn(s, h, team, b.entry)
  }

  // Every entry of every list was left by a request of that team.
  ghost predicate ListsAreLeft(s: Setup, h: Hall) { forall team :: ListIsLeft(s, h, team) }

  lemma TickedListsAreLeft(s: Setup, h: Hall, t: Tick)
    requires s.Valid() && ListsAreLeft(s, h) && forall f <- h.flights :: Sound(s, f)
    ensures ListsAreLeft(s, Ticked(s, h, t))
  {
    forall team ensures ListIsLeft(s, Ticked(s, h, t), team) { TickedListIsLeft(s, h, t, team); }
  }

  lemma TickedListIsLeft(s: Setup, h: Hall, t: Tick, team: string)
    requires s.Valid() && ListIsLeft(s, h, team) && forall f <- h.flights :: Sound(s, f)
    ensures ListIsLeft(s, Ticked(s, h, t), team)
  {
    var h' := Ticked(s, h, t);
    forall b | b in ListOf(h'.state.lists, team) ensures b.Encoded? && LeftIn(s, h', team, b.entry) {
      if b in ListOf(h.state.lists, team) {
        LeftInStays(s, h, t, team, b.entry);
      } else {
        NewIsPushed(s, h, t, team, b);
      }
    }
  }

  lemma NewIsPushed(s: Setup, h: Hall, t: Tick, team: string, b: Blob)
    requires s.Valid() && forall f <- h.flights :: Sound(s, f)
    requires b in ListOf(Ticked(s, h, t).state.lists, team) && b !in ListOf(h.state.lists, team)
    ensures b.Encoded? && LeftIn(s, Ticked(s, h, t), team, b.entry)
  {
    if t.Moves? && t.i < |h.flights| {
      var f := h.flights[t.i];
      assert f in h.flights;
      AdvancedStores(s, h.state, f);
      KeysSeparateTeams(team, f.req.team);
      PushedIsLeft(s, h.state, f);
      assert Ticked(s, h, t).flights[t.i] == Advanced(s, h.state, f).1;
    }
  }

  // What a replaying or replayed request has of the cache was left by a request of its team.
  ghost predicate ReplaysLeft(s: Setup, h: Hall, f: Flight) {
    && (f.phase.Replaying? ==> LeftIn(s, h, f.req.team, f.phase.entry))
    && (f.phase.Done? && f.phase.reply.Replayed? ==> exists e :: LeftIn(s, h, f.req.team, e) && Replays(f.phase, e))
  }

  predicate Replays(p: Phase, e: Entry)
    requires p.Done? && p.reply.Replayed?
  {
    && p.reply.completion == Completion(e.servedBy, e.usage, Stop, true)
    && p.wire.got == if e.response == "" then [] else [Text(e.response)]
  }

  lemma FoundReplaysLeft(s: Setup, h: Hall, f: Flight)
    requires s.Valid() && ListsAreLeft(s, h) && f.phase.Admitted?
    ensures ReplaysLeft(s, h, Advanced(s, h.state, f).1)
  {
    var kept := Capped(ListOf(h.state.lists, f.req.team), s.maxEntries);
    assert ListIsLeft(s, h, f.req.team);
    if Found(s, h.state, f.req, f.w).Replaying? {
      var e := Found(s, h.state, f.req, f.w).entry;
      DecodedMembers(kept);
      assert e in Decoded(kept);
      assert Encoded(e) in ListOf(h.state.lists, f.req.team);
    }
  }

  lemma ReplayedReplaysLeft(s: Setup, h: Hall, f: Flight)
    requires s.Valid() && ReplaysLeft(s, h, f) && f.phase.Replaying?
    ensures ReplaysLeft(s, h, Advanced(s, h.state, f).1)
  {
    var e := f.phase.entry;
    var j :| 0 <= j < |h.flights| && h.flights[j].req.team == f.req.team && LeftBy(s, h.flights[j], e);
    LeftIsTotalled(s, h.flights[j], e);
    var p := Advanced(s, h.state, f).1.phase;
    if p.reply.Replayed? { assert Replays(p, e); }
  }

  lemma LeftIsTotalled(s: Setup, f: Flight, e: Entry)
    requires LeftBy(s, f, e)
    ensures WithTotal(e.usage) == e.usage
  {}

  lemma AdvancedReplaysLeft(s: Setup, h: Hall, f: Flight)
    requires s.Valid() && ListsAreLeft(s, h) && ReplaysLeft(s, h, f)
    ensures ReplaysLeft(s, h, Advanced(s, h.state, f).1)
  {
    match f.phase
    case Admitted => FoundReplaysLeft(s, h, f);
    case Replaying(_) => ReplayedReplaysLeft(s, h, f);
    case _ =>
  }

  lemma ReplaysLeftStays(s: Setup, h: Hall, t: Tick, f: Flight)
    requires s.Valid() && ReplaysLeft(s, h, f)
    ensures ReplaysLeft(s, Ticked(s, h, t), f)
  {
    if f.phase.Replaying? { LeftInStays(s, h, t, f.req.team, f.phase.entry); }
    if f.phase.Done? && f.phase.reply.Replayed? {
      var e :| LeftIn(s, h, f.req.team, e) && Replays(f.phase, e);
      LeftInStays(s, h, t, f.req.team, e);
    }
  }

  lemma {:induction false} AllReplaysAreLeft(s: Setup, calls: seq<(Request, World)>, ticks: seq<Tick>)
    requires s.Valid()
    ensures ListsAreLeft(s, HallAfter(s, calls, ticks))
    ensures forall f <- HallAfter(s, calls, ticks).flights :: ReplaysLeft(s, HallAfter(s, calls, ticks), f)
    decreases |ticks|
  {
    if ticks != [] {
      var before, t := ticks[..|ticks| - 1], ticks[|ticks| - 1];
      var h := HallAfter(s, calls, before);
      AllReplaysAreLeft(s, calls, before);
      AllAreSound(s, calls, before);
      TickedListsAreLeft(s, h, t);
      forall j: nat | j < |h.flights|
        ensures ReplaysLeft(s, Ticked(s, h, t), Ticked(s, h, t).flights[j])
      {
        assert h.flights[j] in h.flights;
        TickedFlight(s, h, t, j);
        AdvancedReplaysLeft(s, h, h.flights[j]);
        ReplaysLeftStays(s, h, t, Ticked(s, h, t).flights[j]);
      }
      TickedFlights(s, h, t);
    }
  }

  lemma TickedFlights(s: Setup, h: Hall, t: Tick)
    requires s.Valid()
    ensures |Ticked(s, h, t).flights| == |h.flights|
  {}

  // Under every interleaving, what a hit replays to a request is the text, usage and provider of one request of the
  // same team that was served in full and has stored its answer.
  lemma OverlappedReplayFidelity(s: Setup, calls: seq<(Request, World)>, ticks: seq<Tick>, i: nat)
    returns (j: nat, e: Entry)
    requires s.Valid() && i < |HallAfter(s, calls, ticks).flights|
    requires var p := HallAfter(s, calls, ticks).flights[i].phase; p.Done? && p.reply.Replayed?
    ensures var flights := HallAfter(s, calls, ticks).flights;
            && j < |flights| && flights[j].req.team == flights[i].req.team && LeftBy(s, flights[j], e)
            && Replays(flights[i].phase, e)
  {
    var h := HallAfter(s, calls, ticks);
    AllReplaysAreLeft(s, calls, ticks);
    AllAreSound(s, calls, ticks);
    assert h.flights[i] in h.flights;
    e :| LeftIn(s, h, h.flights[i].req.team, e) && Replays(h.flights[i].phase, e);
    j :| 0 <= j < |h.flights| && h.flights[j].req.team == h.flights[i].req.team && LeftBy(s, h.flights[j], e);
  }

  // Under every interleaving, a request that is over showed its client the tokens of one provider alone, or the one
  // text it replayed; if it completed, all of that provider's tokens.
  lemma OverlappedAnswersAreUnmixed(s: Setup, calls: seq<(Request, World)>, ticks: seq<Tick>, i: nat)
    requires s.Valid() && i < |HallAfter(s, calls, ticks).flights|
    requires HallAfter(s, calls, ticks).flights[i].phase.Done?
    ensures var f := HallAfter(s, calls, ticks).flights[i];
            if f.phase.reply.Completed? then FullyServed(s, f.req, f.w, f.phase.wire, f.phase.reply.completion)
            else if f.phase.reply.Replayed? then exists e :: Replays(f.phase, e)
            else Unmixed(TurnsOf(s, f.req, f.w), f.phase.wire)
  {
    AllAreSound(s, calls, ticks);
    var f := HallAfter(s, calls, ticks).flights[i];
    assert f in HallAfter(s, calls, ticks).flights;
    if f.phase.reply.Replayed? { var j, e := OverlappedReplayFidelity(s, calls, ticks, i); }
  }

  // ---------------------------------------------------------------- a request that nobody interrupts

  ghost function Steps(s: Setup, st: State, f: Flight, n: nat): (State, Flight)
    requires s.Valid()
    decreases n
  {
    if n == 0 then (st, f)
    else
      var (st', f') := Advanced(s, st, f);
      Steps(s, st', f', n - 1)
  }

  lemma {:induction false} StepsJoin(s: Setup, st: State, f: Flight, a: nat, b: nat)
    requires s.Valid()
    ensures var (st', f') := Steps(s, st, f, a); Steps(s, st, f, a + b) == Steps(s, st', f', b)
    decreases a
  {
    if a > 0 {
      var (st', f') := Advanced(s, st, f);
      StepsJoin(s, st', f', a - 1, b);
    }
  }

  // Where a failover loop leaves its request.
  function Concluded(s: Setup, r: Routed): Phase {
    match r.outcome
    case Served(kind, usage, finish) =>
      Writing(Deducting, Completion(kind, Priced(kind, usage), finish, false), r.wire)
    case ClientGone(kind) => Done(SinkGone(kind), r.wire)
    case Broken(_) => Done(AllProvidersFailed(true), r.wire)
    case Exhausted => Done(AllProvidersFailed(false), r.wire)
  }

  lemma OneStep(s: Setup, st: State, f: Flight)
    requires s.Valid()
    ensures Steps(s, st, f, 1) == Advanced(s, st, f)
  {
    var (st', f') := Advanced(s, st, f);
    assert Steps(s, st', f', 0) == (st', f');
  }

  // What asking a candidate's breaker and telling it afterwards make of the breakers.
  lemma AskedThenTold(cfg: Config, refuses: nat -> bool, capture: bool, view: View, wire: Wire, turn: Turn)
    ensures var v := VisitOf(cfg, refuses, capture, view, wire, turn);
            var m := MachineOf(view, turn.kind, turn.created);
            var asked := view[turn.kind := Step(cfg, m, Ask(turn.now, turn.stamp))];
            Visited(cfg, view, v)
            == if v.called then Told(cfg, asked, turn, Called(refuses, capture, wire, turn).1) else asked
  {}

  // One candidate: asked, and called if it is admitted.
  lemma CandidateSteps(s: Setup, st: State, f: Flight, left: seq<Turn>, wire: Wire) returns (n: nat)
    requires s.Valid() && f.phase == Trying(left, wire) && left != []
    ensures var v := VisitOf(s.breaker, f.w.refuses, Captures(s, f.w), st.view, wire, left[0]);
            var (w', r) := Called(f.w.refuses, Captures(s, f.w), wire, left[0]);
            Steps(s, st, f, n)
            == (st.(view := Visited(s.breaker, st.view, v)),
                f.(phase := if v.called then Returned(s, f.w, left[0], left[1..], w', r) else Trying(left[1..], wire)))
  {
    AskedThenTold(s.breaker, f.w.refuses, Captures(s, f.w), st.view, wire, left[0]);
    var (st1, f1) := Advanced(s, st, f);
    OneStep(s, st, f);
    n := 1;
    if f1.phase.Calling? {
      n := 2;
      StepsJoin(s, st, f, 1, 1);
      OneStep(s, st1, f1);
    }
  }

  // What the first candidate decides of a route.
  lemma OneCandidate(s: Setup, view: View, w: World, wire: Wire, left: seq<Turn>)
    returns (v: Visit, wire': Wire, r: StreamResult)
    requires left != []
    ensures v == VisitOf(s.breaker, w.refuses, Captures(s, w), view, wire, left[0])
    ensures (wire', r) == if v.called then Called(w.refuses, Captures(s, w), wire, left[0]) else (wire, Recoverable)
    ensures var whole := Route(s.breaker, w.refuses, Captures(s, w), view, wire, left);
            if r.Recoverable? then
              var rest := Route(s.breaker, w.refuses, Captures(s, w), Visited(s.breaker, view, v), wire', left[1..]);
              whole.view == rest.view && Concluded(s, whole) == Concluded(s, rest)
            else
              whole.view == Visited(s.breaker, view, v)
              && Concluded(s, whole) == Returned(s, w, left[0], left[1..], wire', r)
  {
    v := VisitOf(s.breaker, w.refuses, Captures(s, w), view, wire, left[0]);
    wire', r := wire, Recoverable;
    if v.called {
      var called := Called(w.refuses, Captures(s, w), wire, left[0]);
      wire', r := called.0, called.1;
    }
  }

  lemma StepsThen(
      s: Setup, st: State, f: Flight, n: nat, st1: State, f1: Flight, more: nat, st2: State, f2: Flight)
    requires s.Valid() && Steps(s, st, f, n) == (st1, f1) && Steps(s, st1, f1, more) == (st2, f2)
    ensures Steps(s, st, f, n + more) == (st2, f2)
  {
    StepsJoin(s, st, f, n, more);
  }

  ghost function RouteOf(s: Setup, f: Flight, view: View, wire: Wire, left: seq<Turn>): Routed {
    Route(s.breaker, f.w.refuses, Captures(s, f.w), view, wire, left)
  }

  // One candidate brings the loop to its end, or to the other candidates.
  lemma CandidateLeads(s: Setup, st: State, f: Flight, left: seq<Turn>, wire: Wire)
    returns (n: nat, st1: State, f1: Flight)
    requires s.Valid() && f.phase == Trying(left, wire) && left != []
    ensures Steps(s, st, f, n) == (st1, f1) && st1 == st.(view := st1.view) && f1 == f.(phase := f1.phase)
    ensures var whole := RouteOf(s, f, st.view, wire, left);
            if f1.phase.Trying? then
              var rest := RouteOf(s, f, st1.view, f1.phase.wire, f1.phase.left);
              && f1.phase.left == left[1..]
              && whole.view == rest.view && Concluded(s, whole) == Concluded(s, rest)
            else st1.view == whole.view && f1.phase == Concluded(s, whole)
  {
    var v, wire', r := OneCandidate(s, st.view, f.w, wire, left);
    n := CandidateSteps(s, st, f, left, wire);
    st1 := st.(view := Visited(s.breaker, st.view, v));
    f1 := f.(phase := if v.called then Returned(s, f.w, left[0], left[1..], wire', r) else Trying(left[1..], wire));
  }

  // Left alone, the loop over the candidates does what `Route` says.
  lemma {:induction false} TryingRoutes(s: Setup, st: State, f: Flight, left: seq<Turn>, wire: Wire) returns (n: nat)
    requires s.Valid() && f.phase == Trying(left, wire)
    ensures var r := RouteOf(s, f, st.view, wire, left);
            Steps(s, st, f, n) == (st.(view := r.view), f.(phase := Concluded(s, r)))
    decreases |left|
  {
    if left == [] {
      OneStep(s, st, f);
      n := 1;
    } else {
      var st1, f1;
      n, st1, f1 := CandidateLeads(s, st, f, left, wire);
      if f1.phase.Trying? {
        var more := TryingRoutes(s, st1, f1, f1.phase.left, f1.phase.wire);
        var rest := RouteOf(s, f1, st1.view, f1.phase.wire, f1.phase.left);
        StepsThen(s, st, f, n, st1, f1, more, st1.(view := rest.view), f1.(phase := Concluded(s, rest)));
        n := n + more;
      }
    }
  }

  // Left alone, the writes make what `Metered` says.
  lemma WritesMeter(s: Setup, st: State, f: Flight, c: Completion, wire: Wire)
    requires s.Valid() && f.phase == Writing(Deducting, c, wire)
    ensures Steps(s, st, f, 4)
         == (Metered(s, st, f.req, f.w, c.servedBy, c.usage, wire.text), f.(phase := Done(Completed(c), wire)))
  {
    var (st1, f1) := Advanced(s, st, f);
    var (st2, f2) := Advanced(s, st1, f1);
    var (st3, f3) := Advanced(s, st2, f2);
    FourSteps(s, st, f, st1, f1, st2, f2, st3, f3);
    FourWrites(s, st, f.req, f.w, c, wire.text);
  }

  lemma FourSteps(
      s: Setup, st: State, f: Flight, st1: State, f1: Flight, st2: State, f2: Flight, st3: State, f3: Flight)
    requires s.Valid() && Advanced(s, st, f) == (st1, f1) && Advanced(s, st1, f1) == (st2, f2)
    requires Advanced(s, st2, f2) == (st3, f3)
    ensures Steps(s, st, f, 4) == Advanced(s, st3, f3)
  {
    OneStep(s, st3, f3);
    assert Steps(s, st2, f2, 2) == Advanced(s, st3, f3);
    assert Steps(s, st1, f1, 3) == Advanced(s, st3, f3);
  }

  lemma FourWrites(s: Setup, st: State, req: Request, w: World, c: Completion, text: string)
    ensures var st1 := Written(s, st, req, w, Deducting, c, text);
            var st2 := Written(s, st1, req, w, Adding, c, text);
            var st3 := Written(s, st2, req, w, Storing, c, text);
            Written(s, st3, req, w, Publishing, c, text) == Metered(s, st, req, w, c.servedBy, c.usage, text)
  {}

  // After a failover loop: the writes, if it completed.
  lemma ConcludedSettles(s: Setup, st: State, f: Flight, r: Routed) returns (n: nat)
    requires s.Valid() && f.phase == Concluded(s, r)
    ensures var (st', reply) := Settled(s, st, f.req, f.w, r.outcome, r.wire.text);
            Steps(s, st, f, n) == (st', f.(phase := Done(reply, r.wire)))
  {
    if r.outcome.Served? {
      n := 4;
      WritesMeter(s, st, f, f.phase.completion, r.wire);
    } else {
      n := 0;
    }
  }

  lemma SoloServe(s: Setup, st: State, f: Flight) returns (n: nat)
    requires s.Valid() && TurnsOf(s, f.req, f.w) != [] && f.phase == Trying(TurnsOf(s, f.req, f.w), NEW_WIRE)
    ensures var h := Serve(s, st, f.req, f.w, NEW_WIRE);
            Steps(s, st, f, n) == (h.state, f.(phase := Done(h.reply, h.wire)))
  {
    var turns := TurnsOf(s, f.req, f.w);
    n := TryingRoutes(s, st, f, turns, NEW_WIRE);
    var r := Route(s.breaker, f.w.refuses, Captures(s, f.w), st.view, NEW_WIRE, turns);
    var (st1, f1) := Steps(s, st, f, n);
    var more := ConcludedSettles(s, st1, f1, r);
    StepsJoin(s, st, f, n, more);
    n := n + more;
  }

  // A request that nobody interrupts does what `Handle` says.
  lemma SoloIsHandle(s: Setup, st: State, req: Request, w: World) returns (n: nat)
    requires s.Valid()
    ensures var h := Handle(s, st, req, w, NEW_WIRE);
            Steps(s, st, Flight(req, w, Arrived), n) == (h.state, Flight(req, w, Done(h.reply, h.wire)))
  {
    var f := Flight(req, w, Arrived);
    OneStep(s, st, f);
    n := 1;
    EnteredOrNot(s, st, req, w);
    if Entered(s, req, w).Admitted? {
      var more := SoloFromLookup(s, st, f.(phase := Admitted));
      StepsJoin(s, st, f, 1, more);
      n := 1 + more;
    }
  }

  // What the request does once it is admitted.
  ghost function HandleAdmitted(s: Setup, st: State, req: Request, w: World): Handled
    requires s.Valid()
  {
    var m := LookedUp(s, st, req, w);
    if Clears(m, s.threshold) then Replay(s, st, req, w, NEW_WIRE, m.entry) else Serve(s, st, req, w, NEW_WIRE)
  }

  lemma EnteredOrNot(s: Setup, st: State, req: Request, w: World)
    requires s.Valid()
    ensures var p, h := Entered(s, req, w), Handle(s, st, req, w, NEW_WIRE);
            if p.Admitted? then h == HandleAdmitted(s, st, req, w) else p == Done(h.reply, h.wire) && h.state == st
  {}

  lemma SoloFromLookup(s: Setup, st: State, f: Flight) returns (n: nat)
    requires s.Valid() && f.phase.Admitted?
    ensures var h := HandleAdmitted(s, st, f.req, f.w);
            Steps(s, st, f, n) == (h.state, f.(phase := Done(h.reply, h.wire)))
  {
    var f1 := f.(phase := Found(s, st, f.req, f.w));
    OneStep(s, st, f);
    n := 1;
    FoundOrNot(s, st, f.req, f.w);
    if f1.phase.Trying? {
      var more := SoloServe(s, st, f1);
      StepsJoin(s, st, f, 1, more);
      n := 1 + more;
    } else if f1.phase.Replaying? {
      StepsJoin(s, st, f, 1, 1);
      OneStep(s, st, f1);
      n := 2;
    }
  }

  lemma FoundOrNot(s: Setup, st: State, req: Request, w: World)
    requires s.Valid()
    ensures var p, h := Found(s, st, req, w), HandleAdmitted(s, st, req, w);
            if p.Replaying? then h == Replay(s, st, req, w, NEW_WIRE, p.entry)
            else if p.Trying? then
              p == Trying(TurnsOf(s, req, w), NEW_WIRE) && TurnsOf(s, req, w) != []
              && h == Serve(s, st, req, w, NEW_WIRE)
            else p == Done(h.reply, h.wire) && h.state == st
  {}

  function Again(i: nat, n: nat): seq<Tick> { if n == 0 then [] else Again(i, n - 1) + [Moves(i)] }

  lemma HallAfterOne(s: Setup, calls: seq<(Request, World)>, ticks: seq<Tick>, t: Tick)
    requires s.Valid()
    ensures HallAfter(s, calls, ticks + [t]) == Ticked(s, HallAfter(s, calls, ticks), t)
  {
    assert (ticks + [t])[..|ticks|] == ticks;
  }

  lemma StepsNext(s: Setup, st: State, f: Flight, n: nat)
    requires s.Valid() && n > 0
    ensures var (st', f') := Steps(s, st, f, n - 1); Steps(s, st, f, n) == Advanced(s, st', f')
  {
    var (st', f') := Steps(s, st, f, n - 1);
    StepsJoin(s, st, f, n - 1, 1);
    OneStep(s, st', f');
  }

  lemma TickedAgain(s: Setup, flights: seq<Flight>, i: nat, st: State, f: Flight)
    requires s.Valid() && i < |flights|
    ensures var (st', f') := Advanced(s, st, f);
            Ticked(s, Hall(st, flights[i := f]), Moves(i)) == Hall(st', flights[i := f'])
  {}

  lemma HallOnce(
      s: Setup, calls: seq<(Request, World)>, ticks: seq<Tick>, flights: seq<Flight>, i: nat, st: State, f: Flight)
    requires s.Valid() && i < |flights| && HallAfter(s, calls, ticks) == Hall(st, flights[i := f])
    ensures var (st', f') := Advanced(s, st, f);
            HallAfter(s, calls, ticks + [Moves(i)]) == Hall(st', flights[i := f'])
  {
    HallAfterOne(s, calls, ticks, Moves(i));
    TickedAgain(s, flights, i, st, f);
  }

  lemma AgainNext(ticks: seq<Tick>, i: nat, n: nat)
    ensures ticks + Again(i, 0) == ticks
    ensures n > 0 ==> ticks + Again(i, n) == (ticks + Again(i, n - 1)) + [Moves(i)]
  {}

  // A request that takes n steps running.
  lemma {:induction false} HallAgain(
      s: Setup, calls: seq<(Request, World)>, ticks: seq<Tick>, h: Hall, i: nat, n: nat, st: State, f: Flight)
    requires s.Valid() && h == HallAfter(s, calls, ticks) && i < |h.flights|
    requires Steps(s, h.state, h.flights[i], n) == (st, f)
    ensures HallAfter(s, calls, ticks + Again(i, n)) == Hall(st, h.flights[i := f])
    decreases n
  {
    AgainNext(ticks, i, n);
    if n == 0 {
      assert h.flights[i := h.flights[i]] == h.flights;
    } else {
      var (st1, f1) := Steps(s, h.state, h.flights[i], n - 1);
      HallAgain(s, calls, ticks, h, i, n - 1, st1, f1);
      HallOnce(s, calls, ticks + Again(i, n - 1), h.flights, i, st1, f1);
      StepsNext(s, h.state, h.flights[i], n);
    }
  }

  // The requests of a run.
  function ChatsOf(ops: seq<Op>): seq<(Request, World)> {
    if ops == [] then []
    else
      var op := ops[|ops| - 1];
      ChatsOf(ops[..|ops| - 1]) + if op.Chat? then [(op.req, op.w)] else []
  }

  lemma {:induction false} ChatsPrefix(ops: seq<Op>, k: nat)
    requires k <= |ops|
    ensures ChatsOf(ops[..k]) <= ChatsOf(ops)
    decreases |ops|
  {
    if k < |ops| {
      ChatsPrefix(ops[..|ops| - 1], k);
      assert ops[..|ops| - 1][..k] == ops[..k];
    } else {
      assert ops[..k] == ops;
    }
  }

  // The first n requests are over and the others have not begun.
  ghost predicate Halfway(calls: seq<(Request, World)>, flights: seq<Flight>, n: nat) {
    && |flights| == |calls|
    && (forall j :: 0 <= j < |calls| ==>
         if j < n then flights[j].phase.Done? else flights[j] == Flight(calls[j].0, calls[j].1, Arrived))
  }

  // The next request of a run, by itself.
  lemma SerialChat(s: Setup, calls: seq<(Request, World)>, ticks: seq<Tick>, i: nat) returns (ticks': seq<Tick>)
    requires s.Valid() && i < |calls| && Halfway(calls, HallAfter(s, calls, ticks).flights, i)
    ensures var h' := HallAfter(s, calls, ticks');
            && h'.state == Handle(s, HallAfter(s, calls, ticks).state, calls[i].0, calls[i].1, NEW_WIRE).state
            && Halfway(calls, h'.flights, i + 1)
  {
    var h := HallAfter(s, calls, ticks);
    var done := Handle(s, h.state, calls[i].0, calls[i].1, NEW_WIRE);
    var n := SoloIsHandle(s, h.state, calls[i].0, calls[i].1);
    var f := Flight(calls[i].0, calls[i].1, Done(done.reply, done.wire));
    HallAgain(s, calls, ticks, h, i, n, done.state, f);
    ticks' := ticks + Again(i, n);
  }

  // Every run of requests one after another is one of these interleavings.
  lemma {:induction false} SerialRunsOverlap(s: Setup, all: seq<Op>, k: nat) returns (ticks: seq<Tick>)
    requires s.Valid() && k <= |all|
    ensures var h := HallAfter(s, ChatsOf(all), ticks);
            h.state == StateAfter(s, all[..k]) && Halfway(ChatsOf(all), h.flights, |ChatsOf(all[..k])|)
    decreases k
  {
    ticks := [];
    if k > 0 {
      var calls, before, op := ChatsOf(all), all[..k - 1], all[k - 1];
      ticks := SerialRunsOverlap(s, all, k - 1);
      assert all[..k][..k - 1] == before && all[..k][k - 1] == op;
      if op.Chat? {
        var i := |ChatsOf(before)|;
        ChatsPrefix(all, k);
        assert ChatsOf(all[..k]) == ChatsOf(before) + [(op.req, op.w)];
        assert calls[i] == (op.req, op.w);
        ticks := SerialChat(s, calls, ticks, i);
      } else {
        HallAfterOne(s, calls, ticks, Expires(op.team));
        ticks := ticks + [Expires(op.team)];
      }
    }
  }
}
