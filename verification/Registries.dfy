// The ordered providers, and the one breaker each provider has.
module Registries {
  import opened Domain
  import opened CircuitBreaker

  datatype Provider = Provider(kind: ProviderKind, models: seq<string>)

  predicate Serves(p: Provider, model: string) { p.models == [] || model == "" || model in p.models }

  // The providers an unpinned request may try, in failover order.
  function Eligible(ordered: seq<Provider>, model: string): seq<Provider> {
    if ordered == [] then []
    else (if Serves(ordered[0], model) then [ordered[0]] else []) + Eligible(ordered[1..], model)
  }

  // The provider last registered under a kind.
  function Latest(ordered: seq<Provider>, kind: ProviderKind): seq<Provider> {
    if ordered == [] then []
    else
      var last := ordered[|ordered| - 1];
      if last.kind == kind then [last] else Latest(ordered[..|ordered| - 1], kind)
  }

  function Candidates(ordered: seq<Provider>, pinned: ProviderKind, model: string): seq<Provider> {
    if pinned.Unspecified? then Eligible(ordered, model) else Eligible(Latest(ordered, pinned), model)
  }

  // A pinned request has at most one candidate, and it is of that kind: if a provider is called, it is that one.
  // Every candidate is registered and serves the model; an unpinned request may try every such provider.
  lemma {:induction false} CandidatesAreEligible(ordered: seq<Provider>, pinned: ProviderKind, model: string)
    ensures forall p <- Candidates(ordered, pinned, model) :: p in ordered && Serves(p, model)
    ensures pinned != Unspecified ==>
              |Candidates(ordered, pinned, model)| <= 1
                  && forall p <- Candidates(ordered, pinned, model) :: p.kind == pinned
    ensures pinned == Unspecified ==> forall p <- ordered :: Serves(p, model) ==>
              p in Candidates(ordered, pinned, model)
  {
    EligibleServe(ordered, model);
    LatestIsRegistered(ordered, pinned);
    EligibleServe(Latest(ordered, pinned), model);
  }

  lemma {:induction false} EligibleServe(ordered: seq<Provider>, model: string)
    ensures |Eligible(ordered, model)| <= |ordered|
    ensures forall p :: p in Eligible(ordered, model) <==> p in ordered && Serves(p, model)
  {
    if ordered != [] { EligibleServe(ordered[1..], model); }
  }

  lemma {:induction false} EligibleAppend(a: seq<Provider>, b: seq<Provider>, model: string)
    ensures Eligible(a + b, model) == Eligible(a, model) + Eligible(b, model)
  {
    if a == [] {
      assert a + b == b;
    } else {
      var first := if Serves(a[0], model) then [a[0]] else [];
      var rest := Eligible(a[1..], model);
      assert (a + b)[0] == a[0] && (a + b)[1..] == a[1..] + b;
      EligibleAppend(a[1..], b, model);
      assert Eligible(a + b, model) == first + (rest + Eligible(b, model)) == (first + rest) + Eligible(b, model);
    }
  }

  lemma {:induction false} LatestIsRegistered(ordered: seq<Provider>, kind: ProviderKind)
    ensures |Latest(ordered, kind)| <= 1
    ensures forall p <- Latest(ordered, kind) :: p in ordered && p.kind == kind
    ensures Latest(ordered, kind) == [] <==> forall p <- ordered :: p.kind != kind
  {
    if ordered != [] {
      assert ordered == ordered[..|ordered| - 1] + [ordered[|ordered| - 1]];
      LatestIsRegistered(ordered[..|ordered| - 1], kind);
    }
  }

  // `at` lists, in order and once each, the places in `ordered` of the providers that serve the model: those that
  // name no models, those that name it, and all if the request names none.
  predicate Places(ordered: seq<Provider>, model: string, at: seq<nat>) {
    && (forall k :: 0 <= k < |at| ==> at[k] < |ordered|)
    && (forall j, k :: 0 <= j < k < |at| ==> at[j] < at[k])
    && (forall i :: 0 <= i < |ordered| ==>
         (ordered[i].models == [] || model == "" || model in ordered[i].models <==>
          exists k :: 0 <= k < |at| && at[k] == i))
  }

  // The providers at these places.
  predicate Drawn(ordered: seq<Provider>, at: seq<nat>, drawn: seq<Provider>) {
    |drawn| == |at| && forall k :: 0 <= k < |at| ==> at[k] < |ordered| && drawn[k] == ordered[at[k]]
  }

  // Unpinned, a request's candidates are the registered providers that serve its model, each once and in the order
  // of registration: none is tried before one registered earlier.
  lemma UnpinnedInOrder(ordered: seq<Provider>, model: string) returns (at: seq<nat>)
    ensures Places(ordered, model, at) && Drawn(ordered, at, Candidates(ordered, Unspecified, model))
  {
    at := EligibleInOrder(ordered, model);
  }

  lemma {:induction false} EligibleInOrder(ordered: seq<Provider>, model: string) returns (at: seq<nat>)
    ensures Places(ordered, model, at) && Drawn(ordered, at, Eligible(ordered, model))
    decreases |ordered|
  {
    at := [];
    if ordered != [] {
      var n := |ordered| - 1;
      var before, last := ordered[..n], ordered[n];
      var earlier := EligibleInOrder(before, model);
      assert ordered == before + [last];
      at := if Serves(last, model) then earlier + [n] else earlier;
      OneMorePlace(before, model, earlier, at, last);
      EligibleLast(ordered, model);
      OneMoreDrawn(before, model, earlier, at, last);
    }
  }

  lemma EligibleLast(ordered: seq<Provider>, model: string)
    requires ordered != []
    ensures var n := |ordered| - 1;
            Eligible(ordered, model)
            == Eligible(ordered[..n], model) + if Serves(ordered[n], model) then [ordered[n]] else []
  {
    var n := |ordered| - 1;
    var last := [ordered[n]];
    assert ordered == ordered[..n] + last && last[1..] == [];
    EligibleAppend(ordered[..n], last, model);
    assert Eligible(last, model) == (if Serves(ordered[n], model) then [ordered[n]] else []) + Eligible([], model);
  }

  lemma OneMoreDrawn(before: seq<Provider>, model: string, earlier: seq<nat>, at: seq<nat>, last: Provider)
    requires Drawn(before, earlier, Eligible(before, model))
    requires at == if Serves(last, model) then earlier + [|before|] else earlier
    ensures Drawn(before + [last], at, Eligible(before, model) + if Serves(last, model) then [last] else [])
  {}

  lemma OneMorePlace(before: seq<Provider>, model: string, earlier: seq<nat>, at: seq<nat>, last: Provider)
    requires Places(before, model, earlier)
    requires at == if Serves(last, model) then earlier + [|before|] else earlier
    ensures Places(before + [last], model, at)
  {
    var ordered := before + [last];
    forall i | 0 <= i < |ordered|
      ensures ordered[i].models == [] || model == "" || model in ordered[i].models <==>
              exists k :: 0 <= k < |at| && at[k] == i
    {
      PlaceOf(before, model, earlier, at, last, i);
    }
  }

  lemma PlaceOf(before: seq<Provider>, model: string, earlier: seq<nat>, at: seq<nat>, last: Provider, i: nat)
    requires Places(before, model, earlier) && i <= |before|
    requires at == if Serves(last, model) then earlier + [|before|] else earlier
    ensures Serves((before + [last])[i], model) <==> exists k :: 0 <= k < |at| && at[k] == i
  {
    if i == |before| {
      if Serves(last, model) { assert at[|earlier|] == i; }
    } else {
      if k :| 0 <= k < |earlier| && earlier[k] == i { assert at[k] == i; }
      if k :| 0 <= k < |at| && at[k] == i { assert earlier[k] == i; }
    }
  }

  // Pinned, the one candidate is the provider registered last under that kind, if it serves the model.
  lemma PinnedIsTheLatest(ordered: seq<Provider>, kind: ProviderKind, model: string, i: nat)
    requires kind != Unspecified && i < |ordered| && ordered[i].kind == kind
    requires forall j :: i < j < |ordered| ==> ordered[j].kind != kind
    ensures Candidates(ordered, kind, model) == if Serves(ordered[i], model) then [ordered[i]] else []
  {
    var named := [ordered[i]];
    LatestIsLast(ordered, kind, i);
    assert named[1..] == [];
    assert Eligible(named, model) == (if Serves(named[0], model) then [named[0]] else []) + Eligible([], model);
  }

  lemma {:induction false} LatestIsLast(ordered: seq<Provider>, kind: ProviderKind, i: nat)
    requires i < |ordered| && ordered[i].kind == kind
    requires forall j :: i < j < |ordered| ==> ordered[j].kind != kind
    ensures Latest(ordered, kind) == [ordered[i]]
    decreases |ordered|
  {
    if i < |ordered| - 1 { LatestIsLast(ordered[..|ordered| - 1], kind, i); }
  }

  class ProviderRegistry {
    const ordered: seq<Provider>
    const byKind: map<ProviderKind, Provider>

    ghost predicate Indexed() {
      forall k :: Latest(ordered, k) == if k in byKind then [byKind[k]] else []
    }

    constructor (providers: seq<Provider>)
      ensures ordered == providers && Indexed()
    {
      var index: map<ProviderKind, Provider> := map[];
      for i := 0 to |providers|
        invariant forall k :: Latest(providers[..i], k) == if k in index then [index[k]] else []
      {
        assert providers[..i + 1][..i] == providers[..i];
        index := index[providers[i].kind := providers[i]];
      }
      assert providers[..|providers|] == providers;
      ordered := providers;
      byKind := index;
    }

    method Route(pinned: ProviderKind, model: string) returns (out: seq<Provider>)
      requires Indexed()
      ensures out == Candidates(ordered, pinned, model)
    {
      if pinned != Unspecified {
        ghost var named := Latest(ordered, pinned);
        assert named == if pinned in byKind then [byKind[pinned]] else [];
        assert named != [] ==> named[1..] == [];
        EligibleServe(named, model);
        if pinned in byKind && Serves(byKind[pinned], model) {
          return [byKind[pinned]];
        }
        return [];
      }
      out := [];
      for i := 0 to |ordered|
        invariant out == Eligible(ordered[..i], model)
      {
        assert ordered[..i + 1][..i] == ordered[..i];
        EligibleLast(ordered[..i + 1], model);
        if Serves(ordered[i], model) { out := out + [ordered[i]]; }
      }
      assert ordered[..|ordered|] == ordered;
    }
  }

  // The breaker of a kind, or the one its first use would create.
  function MachineOf(view: map<ProviderKind, Machine>, kind: ProviderKind, stamp: int): Machine {
    if kind in view then view[kind] else Fresh(stamp)
  }

  class BreakerRegistry {
    const cfg: Config
    var breakers: map<ProviderKind, Breaker>

    constructor (tuning: Config)
      ensures Valid() && View() == map[] && cfg == Tuned(tuning)
      ensures cfg.Valid()
    {
      cfg := Tuned(tuning);
      breakers := map[];
    }

    // Kinds do not share a breaker.
    ghost predicate Valid()
      reads this, breakers.Values
    {
      && (forall k <- breakers :: breakers[k].cfg == cfg)
      && (forall j, k :: j in breakers && k in breakers && j != k ==> breakers[j] != breakers[k])
    }

    ghost function View(): map<ProviderKind, Machine>
      reads this, breakers.Values
    {
      map k | k in breakers :: breakers[k].View()
    }

    method Get(kind: ProviderKind, stamp: int) returns (b: Breaker)
      requires Valid()
      modifies this
      ensures Valid() && kind in breakers && b == breakers[kind] && b.cfg == cfg
      ensures Grown(old(breakers.Values))
      ensures View() == old(View())[kind := MachineOf(old(View()), kind, stamp)]
    {
      if kind in breakers {
        b := breakers[kind];
      } else {
        b := new Breaker(cfg, stamp);
        breakers := breakers[kind := b];
      }
    }

    // Get the kind's breaker and ask it to admit a call.
    method Ask(kind: ProviderKind, created: int, now: int, stamp: int) returns (b: Breaker, allowed: bool)
      requires Valid()
      modifies this, breakers.Values
      ensures Valid() && kind in breakers && b == breakers[kind]
      ensures Grown(old(breakers.Values))
      ensures var m := MachineOf(old(View()), kind, created);
              && allowed == Admits(cfg, m, CircuitBreaker.Ask(now, stamp))
              && View() == old(View())[kind := Step(cfg, m, CircuitBreaker.Ask(now, stamp))]
    {
      b := Get(kind, created);
      ghost var seen := View();
      assert b.View() == seen[kind];
      allowed := b.Allow(now, stamp);
      assert View() == seen[kind := b.View()];
    }

    // Tell a breaker that was asked how its call ended.
    method Tell(ghost kind: ProviderKind, b: Breaker, ok: bool, stamp: int)
      requires Valid() && kind in breakers && b == breakers[kind]
      modifies b
      ensures Valid()
      ensures View() == old(View())[kind := Step(cfg, old(View())[kind], if ok then Success(stamp) else Failure(stamp))]
    {
      ghost var seen := View();
      if ok { b.RecordSuccess(stamp); } else { b.RecordFailure(stamp); }
      assert View() == seen[kind := b.View()];
    }

    // Only new breakers have joined.
    twostate predicate Grown(before: set<Breaker>)
      reads this, breakers.Values
    {
      forall b <- breakers.Values :: b in before || fresh(b)
    }

    // An unseen kind reports CLOSED and stays unseen.
    method State(kind: ProviderKind, now: int, stamp: int) returns (s: CircuitState)
      requires Valid()
      modifies breakers.Values
      ensures Valid() && breakers == old(breakers)
      ensures kind !in breakers ==> s == Closed && View() == old(View())
      ensures kind in breakers ==>
                View() == old(View())[kind := Step(cfg, old(View())[kind], Peek(now, stamp))] && s == View()[kind].state
    {
      if kind !in breakers { return Closed; }
      s := breakers[kind].State(now, stamp);
    }
  }
}
