// The breakers under overlapping requests.
module OverlapBreakers {
  import opened Domain
  import opened CircuitBreaker
  import opened ProbeSlots
  import opened Registries
  import opened Failover
  import opened GatewayService
  import opened GatewayOverlap

  // The request streams from the provider: it was admitted and has not told the breaker yet.
  predicate StreamsFrom(f: Flight, kind: ProviderKind) { f.phase.Calling? && f.phase.turn.kind == kind }

  function EndOf(s: Setup, f: Flight): StreamResult
    requires f.phase.Calling?
  {
    Called(f.w.refuses, Captures(s, f.w), f.phase.wire, f.phase.turn).1
  }

  // The request asks the provider's breaker next.
  predicate Asks(f: Flight, kind: ProviderKind) {
    f.phase.Trying? && f.phase.left != [] && f.phase.left[0].kind == kind
  }

  // What a step does to one provider's breaker, and to who streams from it.
  lemma AdvancedTouches(s: Setup, st: State, f: Flight, kind: ProviderKind)
    requires s.Valid()
    ensures var (st', f') := Advanced(s, st, f);
            if Asks(f, kind) then
              var turn := f.phase.left[0];
              var m := MachineOf(st.view, kind, turn.created);
              var ask := Event.Ask(turn.now, turn.stamp);
              && kind in st'.view && st'.view[kind] == Step(s.breaker, m, ask)
              && (StreamsFrom(f', kind) <==> Admits(s.breaker, m, ask))
            else if StreamsFrom(f, kind) then
              && st'.view == Told(s.breaker, st.view, f.phase.turn, EndOf(s, f)) && !StreamsFrom(f', kind)
            else
              && (kind in st'.view <==> kind in st.view) && (kind in st.view ==> st'.view[kind] == st.view[kind])
              && !StreamsFrom(f', kind)
  {}

  // What is always true of a breaker: its counters are in range, and who streams asked it first.
  ghost predicate Kept(s: Setup, h: Hall, kind: ProviderKind) {
    && (kind in h.state.view ==> Counters(s.breaker, h.state.view[kind]))
    && (forall f <- h.flights :: StreamsFrom(f, kind) ==> kind in h.state.view)
  }

  lemma TickedIsKept(s: Setup, h: Hall, t: Tick, kind: ProviderKind)
    requires s.Valid() && Kept(s, h, kind)
    ensures Kept(s, Ticked(s, h, t), kind)
  {
    if t.Moves? && t.i < |h.flights| {
      var f := h.flights[t.i];
      assert f in h.flights;
      AdvancedTouches(s, h.state, f, kind);
      if Asks(f, kind) {
        var turn := f.phase.left[0];
        StepKeepsCounters(s.breaker, MachineOf(h.state.view, kind, turn.created), Event.Ask(turn.now, turn.stamp));
      } else if StreamsFrom(f, kind) {
        StepKeepsCounters(s.breaker, h.state.view[kind], Success(f.phase.turn.done));
        StepKeepsCounters(s.breaker, h.state.view[kind], Failure(f.phase.turn.done));
      }
    }
  }

  lemma {:induction false} AllAreKept(s: Setup, calls: seq<(Request, World)>, ticks: seq<Tick>, kind: ProviderKind)
    requires s.Valid()
    ensures Kept(s, HallAfter(s, calls, ticks), kind)
    decreases |ticks|
  {
    if ticks != [] {
      AllAreKept(s, calls, ticks[..|ticks| - 1], kind);
      TickedIsKept(s, HallAfter(s, calls, ticks[..|ticks| - 1]), ticks[|ticks| - 1], kind);
    }
  }

  // ---------------------------------------------------------------- locked out

  // The hall after more ticks.
  ghost function Onward(s: Setup, h: Hall, ticks: seq<Tick>): Hall
    requires s.Valid()
    decreases ticks
  {
    if ticks == [] then h else Onward(s, Ticked(s, h, ticks[0]), ticks[1..])
  }

  // The hall with requests that arrive later.
  function Joined(h: Hall, more: seq<(Request, World)>): Hall { h.(flights := h.flights + Opening(more).flights) }

  predicate CanBeCalled(s: Setup, h: Hall, kind: ProviderKind, now: int, stamp: int) {
    kind in h.state.view ==> Admits(s.breaker, h.state.view[kind], Event.Ask(now, stamp))
  }

  // Whatever the requests of the hall do and whichever arrive later, the provider is never called again.
  ghost predicate NeverCalled(s: Setup, h: Hall, kind: ProviderKind)
    requires s.Valid()
  {
    forall more, ticks, now, stamp :: !CanBeCalled(s, Onward(s, Joined(h, more), ticks), kind, now, stamp)
  }

  predicate Full(cfg: Config, m: Machine) { m.state.HalfOpen? && m.halfOpenInFlight == cfg.halfOpenMaxProbes }

  // Every request that still streams from the provider will lose its client.
  ghost predicate Doomed(s: Setup, h: Hall, kind: ProviderKind) {
    forall f <- h.flights :: StreamsFrom(f, kind) ==> EndOf(s, f).SinkFailed?
  }

  ghost predicate Shut(s: Setup, h: Hall, kind: ProviderKind) {
    kind in h.state.view && Full(s.breaker, h.state.view[kind]) && Doomed(s, h, kind)
  }

  lemma TickedIsShut(s: Setup, h: Hall, t: Tick, kind: ProviderKind)
    requires s.Valid() && Shut(s, h, kind)
    ensures Shut(s, Ticked(s, h, t), kind)
  {
    if t.Moves? && t.i < |h.flights| {
      var f := h.flights[t.i];
      assert f in h.flights;
      AdvancedTouches(s, h.state, f, kind);
    }
  }

  lemma {:induction false} OnwardIsShut(s: Setup, h: Hall, ticks: seq<Tick>, kind: ProviderKind)
    requires s.Valid() && Shut(s, h, kind)
    ensures Shut(s, Onward(s, h, ticks), kind)
    decreases ticks
  {
    if ticks != [] {
      TickedIsShut(s, h, ticks[0], kind);
      OnwardIsShut(s, Ticked(s, h, ticks[0]), ticks[1..], kind);
    }
  }

  // A breaker that is not full admits the next request in time.
  lemma NotFullAdmits(cfg: Config, m: Machine)
    requires cfg.Valid() && Counters(cfg, m) && !Full(cfg, m)
    ensures var t := m.lastTransition + cfg.resetTimeout; Admits(cfg, m, Event.Ask(t, t))
  {}

  // A result frees a slot, closes the breaker or opens it.
  lemma ResultUnfills(cfg: Config, m: Machine, ok: bool, done: int)
    requires cfg.Valid() && Counters(cfg, m) && Full(cfg, m)
    ensures var m' := Step(cfg, m, if ok then Success(done) else Failure(done)); Counters(cfg, m') && !Full(cfg, m')
  {}

  lemma ReturnUnfills(s: Setup, h: Hall, i: nat, kind: ProviderKind)
    requires s.Valid() && Kept(s, h, kind) && i < |h.flights| && StreamsFrom(h.flights[i], kind)
    requires Full(s.breaker, h.state.view[kind]) && !EndOf(s, h.flights[i]).SinkFailed?
    ensures var h' := Ticked(s, h, Moves(i));
            kind in h'.state.view && Counters(s.breaker, h'.state.view[kind]) && !Full(s.breaker, h'.state.view[kind])
  {
    var f := h.flights[i];
    assert f in h.flights;
    AdvancedTouches(s, h.state, f, kind);
    ResultUnfills(s.breaker, h.state.view[kind], EndOf(s, f).Clean?, f.phase.turn.done);
  }

  // Under every interleaving a provider is never called again, whatever arrives, exactly when its breaker is HALF_OPEN
  // with every slot reserved and every request that still streams from it will lose its client.
  lemma NeverCalledExactly(s: Setup, calls: seq<(Request, World)>, ticks: seq<Tick>, kind: ProviderKind)
    requires s.Valid() && kind in HallAfter(s, calls, ticks).state.view
    ensures var h := HallAfter(s, calls, ticks);
            NeverCalled(s, h, kind) <==> Full(s.breaker, h.state.view[kind]) && Doomed(s, h, kind)
  {
    var h := HallAfter(s, calls, ticks);
    AllAreKept(s, calls, ticks, kind);
    if Full(s.breaker, h.state.view[kind]) && Doomed(s, h, kind) {
      ShutIsNeverCalled(s, h, kind);
    } else {
      OpenIsCalled(s, h, kind);
    }
  }

  lemma JoinedIsShut(s: Setup, h: Hall, more: seq<(Request, World)>, kind: ProviderKind)
    requires s.Valid() && Shut(s, h, kind)
    ensures Shut(s, Joined(h, more), kind)
  {
    assert forall f <- Opening(more).flights :: f.phase.Arrived?;
  }

  lemma ShutIsNeverCalled(s: Setup, h: Hall, kind: ProviderKind)
    requires s.Valid() && Shut(s, h, kind)
    ensures NeverCalled(s, h, kind)
  {
    forall more, ticks, now, stamp
      ensures !CanBeCalled(s, Onward(s, Joined(h, more), ticks), kind, now, stamp)
    {
      JoinedIsShut(s, h, more, kind);
      OnwardIsShut(s, Joined(h, more), ticks, kind);
    }
  }

  lemma OpenIsCalled(s: Setup, h: Hall, kind: ProviderKind)
    requires s.Valid() && Kept(s, h, kind) && kind in h.state.view && !Shut(s, h, kind)
    ensures !NeverCalled(s, h, kind)
  {
    if Full(s.breaker, h.state.view[kind]) {
      var f :| f in h.flights && StreamsFrom(f, kind) && !EndOf(s, f).SinkFailed?;
      var i :| 0 <= i < |h.flights| && h.flights[i] == f;
      ReturnUnfills(s, h, i, kind);
      OneMoreTick(s, h, Moves(i));
      UnfilledIsCalled(s, h, [Moves(i)], kind);
    } else {
      assert Joined(h, []) == h && Onward(s, h, []) == h;
      UnfilledIsCalled(s, h, [], kind);
    }
  }

  lemma OneMoreTick(s: Setup, h: Hall, t: Tick)
    requires s.Valid()
    ensures Joined(h, []) == h && Onward(s, h, [t]) == Ticked(s, h, t)
  {
    assert [t][1..] == [];
    assert Onward(s, Ticked(s, h, t), []) == Ticked(s, h, t);
  }

  lemma UnfilledIsCalled(s: Setup, h: Hall, ticks: seq<Tick>, kind: ProviderKind)
    requires s.Valid()
    requires var h' := Onward(s, Joined(h, []), ticks);
             kind in h'.state.view && Counters(s.breaker, h'.state.view[kind]) && !Full(s.breaker, h'.state.view[kind])
    ensures !NeverCalled(s, h, kind)
  {
    var m := Onward(s, Joined(h, []), ticks).state.view[kind];
    var now := m.lastTransition + s.breaker.resetTimeout;
    NotFullAdmits(s.breaker, m);
    assert CanBeCalled(s, Onward(s, Joined(h, []), ticks), kind, now, now);
  }

  // ---------------------------------------------------------------- the slots that requests hold

  // The tags of the requests that stream from the provider.
  function TagsOut(flights: seq<Flight>, tags: seq<nat>, kind: ProviderKind): multiset<nat>
    requires |tags| == |flights|
  {
    if flights == [] then multiset{}
    else OwnTag(flights[0], tags[0], kind) + TagsOut(flights[1..], tags[1..], kind)
  }

  function OwnTag(f: Flight, tag: nat, kind: ProviderKind): multiset<nat> {
    if StreamsFrom(f, kind) then multiset{tag} else multiset{}
  }

  lemma {:induction false} TagsChange(
      flights: seq<Flight>, tags: seq<nat>, kind: ProviderKind, i: nat, f: Flight, tag: nat)
    requires |tags| == |flights| && i < |flights|
    ensures TagsOut(flights[i := f], tags[i := tag], kind) + OwnTag(flights[i], tags[i], kind)
         == TagsOut(flights, tags, kind) + OwnTag(f, tag, kind)
    decreases i
  {
    var flights', tags' := flights[i := f], tags[i := tag];
    if i == 0 {
      assert flights'[1..] == flights[1..] && tags'[1..] == tags[1..];
    } else {
      assert flights'[1..] == flights[1..][i - 1 := f] && tags'[1..] == tags[1..][i - 1 := tag];
      TagsChange(flights[1..], tags[1..], kind, i - 1, f, tag);
      var first := OwnTag(flights[0], tags[0], kind);
      assert TagsOut(flights', tags', kind) == first + TagsOut(flights'[1..], tags'[1..], kind);
      assert TagsOut(flights, tags, kind) == first + TagsOut(flights[1..], tags[1..], kind);
      AddFirst(first, TagsOut(flights'[1..], tags'[1..], kind), OwnTag(flights[i], tags[i], kind),
               TagsOut(flights[1..], tags[1..], kind), OwnTag(f, tag, kind));
    }
  }

  lemma AddFirst(first: multiset<nat>, a: multiset<nat>, b: multiset<nat>, c: multiset<nat>, d: multiset<nat>)
    requires a + b == c + d
    ensures (first + a) + b == (first + c) + d
  {
    assert (first + a) + b == first + (a + b) == first + (c + d);
  }

  lemma {:induction false} StreamerIsOut(flights: seq<Flight>, tags: seq<nat>, kind: ProviderKind, i: nat)
    requires |tags| == |flights| && i < |flights| && StreamsFrom(flights[i], kind)
    ensures tags[i] in TagsOut(flights, tags, kind)
    decreases i
  {
    if i > 0 { StreamerIsOut(flights[1..], tags[1..], kind, i - 1); }
  }

  lemma {:induction false} ReachesOn(cfg: Config, s: System, acts: seq<Action>, t: System, a: Action)
    requires Reaches(cfg, s, acts, t) && Enabled(t, a)
    ensures Reaches(cfg, s, acts + [a], Act(cfg, t, a))
    decreases acts
  {
    if acts == [] {
      assert [a][1..] == [];
      assert acts + [a] == [a];
    } else {
      assert (acts + [a])[0] == acts[0] && (acts + [a])[1..] == acts[1..] + [a];
      ReachesOn(cfg, Act(cfg, s, acts[0]), acts[1..], t, a);
    }
  }

  // A system of callers of one breaker, and the tags under which requests are its callers.
  datatype Callers = Callers(created: int, acts: seq<Action>, system: System, tags: seq<nat>)

  // The provider's breaker is that system's, and its calls out are the requests that stream from the provider.
  ghost predicate Embodies(s: Setup, h: Hall, kind: ProviderKind, c: Callers) {
    && |c.tags| == |h.flights|
    && Reaches(s.breaker, Start(c.created), c.acts, c.system)
    && c.system.out == TagsOut(h.flights, c.tags, kind)
    && (if kind in h.state.view then c.system.m == h.state.view[kind] else c.acts == [])
  }

  // A request that does not stream takes a step: its tag is out if it streams then.
  lemma TagsGain(flights: seq<Flight>, tags: seq<nat>, kind: ProviderKind, i: nat, f: Flight, tag: nat)
    requires |tags| == |flights| && i < |flights| && !StreamsFrom(flights[i], kind)
    ensures TagsOut(flights[i := f], tags[i := tag], kind) == TagsOut(flights, tags, kind) + OwnTag(f, tag, kind)
  {
    TagsChange(flights, tags, kind, i, f, tag);
    assert OwnTag(flights[i], tags[i], kind) == multiset{};
    var out := TagsOut(flights[i := f], tags[i := tag], kind);
    assert out + multiset{} == out;
  }

  // A request that streams stops.
  lemma TagsLose(flights: seq<Flight>, tags: seq<nat>, kind: ProviderKind, i: nat, f: Flight)
    requires |tags| == |flights| && i < |flights| && StreamsFrom(flights[i], kind) && !StreamsFrom(f, kind)
    ensures TagsOut(flights[i := f], tags, kind) == TagsOut(flights, tags, kind) - multiset{tags[i]}
    ensures tags[i] in TagsOut(flights, tags, kind)
  {
    StreamerIsOut(flights, tags, kind, i);
    TagsChange(flights, tags, kind, i, f, tags[i]);
    assert tags[i := tags[i]] == tags;
    var out := TagsOut(flights[i := f], tags, kind);
    assert out + multiset{tags[i]} == TagsOut(flights, tags, kind) + multiset{};
    assert (out + multiset{tags[i]}) - multiset{tags[i]} == out;
  }

  lemma OthersEmbody(s: Setup, h: Hall, t: Tick, kind: ProviderKind, c: Callers)
    requires s.Valid() && Embodies(s, h, kind, c)
    requires t.Moves? && t.i < |h.flights| ==> !Asks(h.flights[t.i], kind) && !StreamsFrom(h.flights[t.i], kind)
    ensures Embodies(s, Ticked(s, h, t), kind, c)
  {
    if t.Moves? && t.i < |h.flights| {
      var f' := Advanced(s, h.state, h.flights[t.i]).1;
      AdvancedTouches(s, h.state, h.flights[t.i], kind);
      TagsGain(h.flights, c.tags, kind, t.i, f', c.tags[t.i]);
      assert c.tags[t.i := c.tags[t.i]] == c.tags;
      assert TagsOut(h.flights, c.tags, kind) + multiset{} == TagsOut(h.flights, c.tags, kind);
    }
  }

  // One more action of the system.
  lemma Acts(s: Setup, c: Callers, a: Action, h': Hall, kind: ProviderKind, tags: seq<nat>) returns (c': Callers)
    requires s.Valid() && Reaches(s.breaker, Start(c.created), c.acts, c.system) && Enabled(c.system, a)
    requires |tags| == |h'.flights| && kind in h'.state.view
    requires var t := Act(s.breaker, c.system, a);
             t.m == h'.state.view[kind] && t.out == TagsOut(h'.flights, tags, kind)
    ensures Embodies(s, h', kind, c') && c'.created == c.created
  {
    ReachesOn(s.breaker, Start(c.created), c.acts, c.system, a);
    c' := Callers(c.created, c.acts + [a], Act(s.breaker, c.system, a), tags);
  }

  // The system as the provider's first call finds it.
  lemma Begun(s: Setup, h: Hall, kind: ProviderKind, c: Callers, created: int) returns (c0: Callers)
    requires s.Valid() && Kept(s, h, kind) && Embodies(s, h, kind, c)
    ensures c0.tags == c.tags && Reaches(s.breaker, Start(c0.created), c0.acts, c0.system)
    ensures c0.system.m == MachineOf(h.state.view, kind, created)
    ensures c0.system.out == TagsOut(h.flights, c.tags, kind)
  {
    if kind in h.state.view {
      c0 := c;
    } else {
      NobodyStreams(h.flights, c.tags, kind);
      c0 := Callers(created, [], Start(created), c.tags);
    }
  }

  // What a call does to a system.
  lemma CallActs(cfg: Config, t: System, now: int, stamp: int)
    ensures var t', ask := Act(cfg, t, Action.Call(now, stamp)), Event.Ask(now, stamp);
            && t'.m == Step(cfg, t.m, ask)
            && t'.out == t.out + if Admits(cfg, t.m, ask) then multiset{t'.epoch} else multiset{}
  {}

  // A request asks: one more action of the system, and one more call out if it is admitted.
  lemma AskEmbodies(s: Setup, h: Hall, i: nat, kind: ProviderKind, c: Callers) returns (c': Callers)
    requires s.Valid() && Kept(s, h, kind) && Embodies(s, h, kind, c) && i < |h.flights| && Asks(h.flights[i], kind)
    ensures Embodies(s, Ticked(s, h, Moves(i)), kind, c')
  {
    var turn := h.flights[i].phase.left[0];
    var c0 := Begun(s, h, kind, c, turn.created);
    var call := Action.Call(turn.now, turn.stamp);
    var tag := Act(s.breaker, c0.system, call).epoch;
    AdvancedTouches(s, h.state, h.flights[i], kind);
    TagsGain(h.flights, c.tags, kind, i, Advanced(s, h.state, h.flights[i]).1, tag);
    CallActs(s.breaker, c0.system, turn.now, turn.stamp);
    c' := Acts(s, c0, call, Ticked(s, h, Moves(i)), kind, c.tags[i := tag]);
  }

  lemma {:induction false} NobodyStreams(flights: seq<Flight>, tags: seq<nat>, kind: ProviderKind)
    requires |tags| == |flights| && forall f <- flights :: !StreamsFrom(f, kind)
    ensures TagsOut(flights, tags, kind) == multiset{}
  {
    if flights != [] { NobodyStreams(flights[1..], tags[1..], kind); }
  }

  // A request's stream ends: it reports under its tag, or drops it.
  lemma ReturnEmbodies(s: Setup, h: Hall, i: nat, kind: ProviderKind, c: Callers) returns (c': Callers)
    requires s.Valid() && Kept(s, h, kind) && Embodies(s, h, kind, c)
    requires i < |h.flights| && StreamsFrom(h.flights[i], kind)
    ensures Embodies(s, Ticked(s, h, Moves(i)), kind, c')
  {
    var f, tag := h.flights[i], c.tags[i];
    var r := EndOf(s, f);
    var act := if r.SinkFailed? then Drop(tag) else Report(tag, r.Clean?, f.phase.turn.done);
    assert f in h.flights;
    AdvancedTouches(s, h.state, f, kind);
    TagsLose(h.flights, c.tags, kind, i, Advanced(s, h.state, f).1);
    EndActs(s.breaker, h.state.view, c.system, f.phase.turn, r, tag);
    c' := Acts(s, c, act, Ticked(s, h, Moves(i)), kind, c.tags);
  }

  lemma EndActs(cfg: Config, view: View, t: System, turn: Turn, r: StreamResult, tag: nat)
    requires turn.kind in view && t.m == view[turn.kind] && tag in t.out
    ensures var act := if r.SinkFailed? then Drop(tag) else Report(tag, r.Clean?, turn.done);
            && Enabled(t, act) && Act(cfg, t, act).out == t.out - multiset{tag}
            && turn.kind in Told(cfg, view, turn, r) && Act(cfg, t, act).m == Told(cfg, view, turn, r)[turn.kind]
  {}

  // Under every interleaving of requests, a provider's breaker is one that concurrent callers share, and the calls
  // out are exactly the requests that stream from the provider.
  lemma {:induction false} RequestsAreCallers(
      s: Setup, calls: seq<(Request, World)>, ticks: seq<Tick>, kind: ProviderKind) returns (c: Callers)
    requires s.Valid()
    ensures Embodies(s, HallAfter(s, calls, ticks), kind, c)
    decreases |ticks|
  {
    if ticks == [] {
      c := Callers(0, [], Start(0), seq(|calls|, i => 0));
      NobodyStreams(Opening(calls).flights, c.tags, kind);
    } else {
      var before, t := ticks[..|ticks| - 1], ticks[|ticks| - 1];
      var h := HallAfter(s, calls, before);
      c := RequestsAreCallers(s, calls, before, kind);
      AllAreKept(s, calls, before, kind);
      if t.Moves? && t.i < |h.flights| && Asks(h.flights[t.i], kind) {
        c := AskEmbodies(s, h, t.i, kind, c);
      } else if t.Moves? && t.i < |h.flights| && StreamsFrom(h.flights[t.i], kind) {
        c := ReturnEmbodies(s, h, t.i, kind, c);
      } else {
        OthersEmbody(s, h, t, kind, c);
      }
    }
  }

  // How many requests stream from the provider.
  function Streaming(flights: seq<Flight>, kind: ProviderKind): nat {
    if flights == [] then 0 else (if StreamsFrom(flights[0], kind) then 1 else 0) + Streaming(flights[1..], kind)
  }

  lemma {:induction false} TagsCount(flights: seq<Flight>, tags: seq<nat>, kind: ProviderKind)
    requires |tags| == |flights|
    ensures |TagsOut(flights, tags, kind)| == Streaming(flights, kind)
  {
    if flights != [] { TagsCount(flights[1..], tags[1..], kind); }
  }

  // So under every interleaving, in HALF_OPEN: the slots reserved are the requests of this epoch that stream from the
  // provider or lost their client while they did, less at most one for each late result; and those requests never
  // number more than the flood bound.
  lemma OverlappedSlots(s: Setup, calls: seq<(Request, World)>, ticks: seq<Tick>, kind: ProviderKind)
    returns (c: Callers)
    requires s.Valid() && kind in HallAfter(s, calls, ticks).state.view
    requires HallAfter(s, calls, ticks).state.view[kind].state.HalfOpen?
    ensures var h, t := HallAfter(s, calls, ticks), c.system;
            var slots, held := h.state.view[kind].halfOpenInFlight, t.out[t.epoch] + t.dropped;
            && Embodies(s, h, kind, c) && |t.out| == Streaming(h.flights, kind)
            && slots <= held <= slots + t.late && held <= FloodBound(s.breaker)
            && (t.late == 0 ==> held == slots)
  {
    c := RequestsAreCallers(s, calls, ticks, kind);
    SlotAccounting(s.breaker, c.created, c.acts, c.system);
    TagsCount(HallAfter(s, calls, ticks).flights, c.tags, kind);
  }
}
