// Streaming one provider to the client, and failing over between providers.
//
// A request's surroundings are inputs: what each candidate does when called, the clock readings around
// it, and which of the client's frames fail to send.
module Failover {
  import opened Domain
  import opened CircuitBreaker
  import opened ProbeSlots
  import opened Registries

  // What the client has been sent: attempts to send, frames that arrived, and the text kept for the cache.
  datatype Wire = Wire(calls: nat, got: seq<Delta>, text: string)

  function Sent(refuses: nat -> bool, w: Wire, d: Delta): Wire {
    Wire(w.calls + 1, if refuses(w.calls) then w.got else w.got + [d], w.text)
  }

  // The sink handed to a provider's stream also keeps the text of what arrives.
  function Forwarded(refuses: nat -> bool, capture: bool, w: Wire, d: Delta): Wire {
    var s := Sent(refuses, w, d);
    if capture && !refuses(w.calls) then s.(text := s.text + d.text) else s
  }

  datatype StreamResult =
    | Clean(usage: TokenUsage, finish: FinishReason)
    | Recoverable   // the provider failed with nothing forwarded
    | Aborted       // the provider failed after a token was forwarded
    | SinkFailed    // the client is gone

  function Streamed(
      refuses: nat -> bool, capture: bool, w: Wire, frames: seq<Delta>, forwarded: bool): (Wire, StreamResult)
    decreases frames
  {
    if frames == [] then (w, if forwarded then Aborted else Recoverable)
    else if frames[0].done then
      (w, if frames[0].finish.Failed? then (if forwarded then Aborted else Recoverable)
          else Clean(frames[0].usage, frames[0].finish))
    else
      var w' := Forwarded(refuses, capture, w, frames[0]);
      if refuses(w.calls) then (w', SinkFailed) else Streamed(refuses, capture, w', frames[1..], true)
  }

  // A candidate's turn: its kind, how it behaves if it is called, and the clock readings around it.
  datatype Turn = Turn(
    kind: ProviderKind, starts: bool, frames: seq<Delta>, created: int, now: int, stamp: int, done: int)

  function Called(refuses: nat -> bool, capture: bool, w: Wire, turn: Turn): (Wire, StreamResult) {
    if turn.starts then Streamed(refuses, capture, w, turn.frames, false) else (w, Recoverable)
  }

  function EndingOf(r: StreamResult): Ending {
    match r
    case Clean(_, _) => Succeeds
    case SinkFailed => ClientLeaves
    case Recoverable => Fails
    case Aborted => Fails
  }

  // One consultation of a candidate's breaker.
  datatype Visit = Visit(kind: ProviderKind, created: int, attempt: Attempt, called: bool)

  datatype Outcome =
    | Served(kind: ProviderKind, usage: TokenUsage, finish: FinishReason)
    | ClientGone(kind: ProviderKind)
    | Broken(kind: ProviderKind)
    | Exhausted

  datatype Routed = Routed(view: map<ProviderKind, Machine>, wire: Wire, outcome: Outcome, visits: seq<Visit>)

  type View = map<ProviderKind, Machine>

  // The visit a turn makes to its breaker.
  function VisitOf(cfg: Config, refuses: nat -> bool, capture: bool, view: View, w: Wire, turn: Turn): Visit {
    var attempt := Attempt(turn.now, turn.stamp, EndingOf(Called(refuses, capture, w, turn).1), turn.done);
    Visit(turn.kind, turn.created, attempt, AdmitsAttempt(cfg, MachineOf(view, turn.kind, turn.created), attempt))
  }

  function Visited(cfg: Config, view: View, v: Visit): View {
    view[v.kind := Tried(cfg, MachineOf(view, v.kind, v.created), v.attempt)]
  }

  function Route(cfg: Config, refuses: nat -> bool, capture: bool, view: View, w: Wire, turns: seq<Turn>): Routed
    decreases turns
  {
    if turns == [] then Routed(view, Sent(refuses, w, ERROR_FRAME), Exhausted, [])
    else
      var v := VisitOf(cfg, refuses, capture, view, w, turns[0]);
      var view' := Visited(cfg, view, v);
      var (w', r) := if v.called then Called(refuses, capture, w, turns[0]) else (w, Recoverable);
      match r
      case Clean(usage, finish) => Routed(view', w', Served(v.kind, usage, finish), [v])
      case SinkFailed => Routed(view', w', ClientGone(v.kind), [v])
      case Aborted => Routed(view', Sent(refuses, w', ERROR_FRAME), Broken(v.kind), [v])
      case Recoverable =>
        var rest := Route(cfg, refuses, capture, view', w', turns[1..]);
        rest.(visits := [v] + rest.visits)
  }

  // ------------------------------------------------------------ no spliced answers

  // The token frames of a stream: those before its first terminal frame.
  function TokenFrames(frames: seq<Delta>): seq<Delta> {
    if frames == [] || frames[0].done then [] else [frames[0]] + TokenFrames(frames[1..])
  }

  function TextOf(ds: seq<Delta>): string { if ds == [] then "" else ds[0].text + TextOf(ds[1..]) }

  // The stream ends with a terminal frame that is not an error.
  predicate EndsClean(frames: seq<Delta>) {
    var n := |TokenFrames(frames)|;
    n < |frames| && frames[n].done && !frames[n].finish.Failed?
  }

  predicate Accepts(refuses: nat -> bool, from: nat, n: nat) { forall j: nat :: from <= j < from + n ==> !refuses(j) }

  // What streaming `frames` does, said without following the loop: the tokens `arrived` reach the client.
  ghost predicate Delivers(refuses: nat -> bool, capture: bool, w: Wire, frames: seq<Delta>, forwarded: bool,
                           w': Wire, r: StreamResult, arrived: seq<Delta>) {
    && arrived <= TokenFrames(frames)
    && Accepts(refuses, w.calls, |arrived|)
    && w'.got == w.got + arrived
    && w'.text == w.text + (if capture then TextOf(arrived) else "")
    && Concludes(refuses, w.calls + |arrived|, frames, forwarded || arrived != [], w'.calls, r, |arrived|)
  }

  // How a stream of which n tokens arrived ends, its next frame being the calls-th one sent.
  ghost predicate Concludes(
      refuses: nat -> bool, calls: nat, frames: seq<Delta>, forwarded: bool, calls': nat, r: StreamResult, n: nat) {
    if n < |TokenFrames(frames)| then r == SinkFailed && refuses(calls) && calls' == calls + 1
    else
      && calls' == calls
      && (if EndsClean(frames) then
            var last := frames[|TokenFrames(frames)|];
            r == Clean(last.usage, last.finish)
          else r == if forwarded then Aborted else Recoverable)
  }

  lemma TokenFramesPrefix(frames: seq<Delta>)
    ensures |TokenFrames(frames)| <= |frames| && TokenFrames(frames) == frames[..|TokenFrames(frames)|]
    ensures |TokenFrames(frames)| < |frames| ==> frames[|TokenFrames(frames)|].done
    ensures forall d <- TokenFrames(frames) :: !d.done
  {}

  lemma {:induction false} StreamedDelivers(
      refuses: nat -> bool, capture: bool, w: Wire, frames: seq<Delta>, forwarded: bool)
    returns (arrived: seq<Delta>)
    ensures var (w', r) := Streamed(refuses, capture, w, frames, forwarded);
            Delivers(refuses, capture, w, frames, forwarded, w', r, arrived)
    decreases frames
  {
    TokenFramesPrefix(frames);
    arrived := [];
    if frames != [] && !frames[0].done && !refuses(w.calls) {
      var w1 := Forwarded(refuses, capture, w, frames[0]);
      var rest := StreamedDelivers(refuses, capture, w1, frames[1..], true);
      var (w', r) := Streamed(refuses, capture, w, frames, forwarded);
      OneMoreToken(refuses, capture, w, frames, forwarded, w', r, rest);
      arrived := [frames[0]] + rest;
    }
  }

  lemma OneMoreToken(refuses: nat -> bool, capture: bool, w: Wire, frames: seq<Delta>, forwarded: bool,
                     w': Wire, r: StreamResult, rest: seq<Delta>)
    requires frames != [] && !frames[0].done && !refuses(w.calls)
    requires Delivers(refuses, capture, Forwarded(refuses, capture, w, frames[0]), frames[1..], true, w', r, rest)
    ensures Delivers(refuses, capture, w, frames, forwarded, w', r, [frames[0]] + rest)
  {
    var arrived := [frames[0]] + rest;
    assert TokenFrames(frames) == [frames[0]] + TokenFrames(frames[1..]);
    assert w.got + arrived == (w.got + [frames[0]]) + rest;
    assert TextOf(arrived) == frames[0].text + TextOf(rest) by { assert arrived[1..] == rest; }
    assert w.text + (frames[0].text + TextOf(rest)) == (w.text + frames[0].text) + TextOf(rest);
    assert EndsClean(frames) == EndsClean(frames[1..]);
  }

  // A provider that fails with nothing forwarded: it does not start, or its stream has no token and no clean end.
  predicate FailsSilently(turn: Turn) {
    !turn.starts || (TokenFrames(turn.frames) == [] && !EndsClean(turn.frames))
  }

  // Candidates are visited in order, and those called before c fail with nothing forwarded.
  ghost predicate QuietUntil(turns: seq<Turn>, visits: seq<Visit>, c: nat) {
    && c <= |turns| && |visits| == (if c == |turns| then c else c + 1)
    && (forall j :: 0 <= j < |visits| ==> visits[j].kind == turns[j].kind)
    && (forall j :: 0 <= j < c && visits[j].called ==> FailsSilently(turns[j]))
  }

  // How the stream that ended the request decides the outcome.
  ghost predicate Decides(refuses: nat -> bool, kind: ProviderKind, w: Wire, s: StreamResult, r: Routed) {
    match s
    case Clean(u, f) => r.outcome == Served(kind, u, f) && r.wire == w
    case SinkFailed => r.outcome == ClientGone(kind) && r.wire == w
    case Aborted => r.outcome == Broken(kind) && r.wire == Sent(refuses, w, ERROR_FRAME)
    case Recoverable => false
  }

  // What a routed request did, said without following the loop: candidate c is the last one visited, and
  // w and s are what its stream did, `arrived` the tokens of it that arrived; or nobody was left to try.
  ghost predicate Unspliced(refuses: nat -> bool, capture: bool, w0: Wire, turns: seq<Turn>, r: Routed,
                            c: nat, arrived: seq<Delta>, w: Wire, s: StreamResult) {
    && QuietUntil(turns, r.visits, c)
    && (if c == |turns| then r.outcome == Exhausted && r.wire == Sent(refuses, w0, ERROR_FRAME)
        else
          && r.visits[c].called && turns[c].starts
          && Delivers(refuses, capture, w0, turns[c].frames, false, w, s, arrived)
          && Decides(refuses, turns[c].kind, w, s, r))
  }

  lemma {:induction false} RouteUnspliced(
      cfg: Config, refuses: nat -> bool, capture: bool, view: View, w0: Wire, turns: seq<Turn>)
    returns (c: nat, arrived: seq<Delta>, w: Wire, s: StreamResult)
    ensures Unspliced(refuses, capture, w0, turns, Route(cfg, refuses, capture, view, w0, turns), c, arrived, w, s)
    decreases turns
  {
    if turns == [] {
      return 0, [], w0, Recoverable;
    }
    var v := VisitOf(cfg, refuses, capture, view, w0, turns[0]);
    if v.called && turns[0].starts {
      w, s := Called(refuses, capture, w0, turns[0]).0, Called(refuses, capture, w0, turns[0]).1;
      arrived := StreamedDelivers(refuses, capture, w0, turns[0].frames, false);
      RecoverableIsSilent(refuses, capture, w0, turns[0].frames, w, s, arrived);
      if !s.Recoverable? {
        FirstDecides(cfg, refuses, capture, view, w0, turns);
        return 0, arrived, w, s;
      }
    }
    PassedOver(cfg, refuses, capture, view, w0, turns);
    var rest := Route(cfg, refuses, capture, Visited(cfg, view, v), w0, turns[1..]);
    c, arrived, w, s := RouteUnspliced(cfg, refuses, capture, Visited(cfg, view, v), w0, turns[1..]);
    QuietLonger(turns, v, rest.visits, c);
    c := c + 1;
  }

  lemma FirstDecides(cfg: Config, refuses: nat -> bool, capture: bool, view: View, w0: Wire, turns: seq<Turn>)
    requires turns != [] && turns[0].starts && VisitOf(cfg, refuses, capture, view, w0, turns[0]).called
    requires !Called(refuses, capture, w0, turns[0]).1.Recoverable?
    ensures var (w, s), r := Called(refuses, capture, w0, turns[0]), Route(cfg, refuses, capture, view, w0, turns);
            QuietUntil(turns, r.visits, 0) && r.visits[0].called && Decides(refuses, turns[0].kind, w, s, r)
  {}

  // A candidate that is not called, or fails with nothing forwarded, only adds its visit.
  lemma PassedOver(cfg: Config, refuses: nat -> bool, capture: bool, view: View, w0: Wire, turns: seq<Turn>)
    requires turns != []
    requires VisitOf(cfg, refuses, capture, view, w0, turns[0]).called ==>
              Called(refuses, capture, w0, turns[0]) == (w0, Recoverable)
    ensures var v := VisitOf(cfg, refuses, capture, view, w0, turns[0]);
            var rest := Route(cfg, refuses, capture, Visited(cfg, view, v), w0, turns[1..]);
            Route(cfg, refuses, capture, view, w0, turns) == rest.(visits := [v] + rest.visits)
  {}

  lemma RecoverableIsSilent(
      refuses: nat -> bool, capture: bool, w0: Wire, frames: seq<Delta>, w: Wire, s: StreamResult, arrived: seq<Delta>)
    requires Delivers(refuses, capture, w0, frames, false, w, s, arrived)
    ensures s.Recoverable? ==> w == w0 && TokenFrames(frames) == [] && !EndsClean(frames)
  {
    if s.Recoverable? { assert w.got == w0.got && w.text == w0.text; }
  }

  lemma QuietLonger(turns: seq<Turn>, v: Visit, visits: seq<Visit>, c: nat)
    requires turns != [] && v.kind == turns[0].kind && (v.called ==> FailsSilently(turns[0]))
    requires QuietUntil(turns[1..], visits, c)
    ensures QuietUntil(turns, [v] + visits, c + 1)
  {
    forall j | 0 <= j < |visits| + 1
      ensures ([v] + visits)[j].kind == turns[j].kind
    {
      if j > 0 { assert visits[j - 1].kind == turns[1..][j - 1].kind; }
    }
    forall j | 0 <= j < c + 1 && ([v] + visits)[j].called
      ensures FailsSilently(turns[j])
    {
      if j > 0 { assert FailsSilently(turns[1..][j - 1]); }
    }
  }

  // Over every candidate list, breaker state, provider behaviour and sink failure: what the client accepts is an
  // in-order prefix of one provider's tokens, followed by at most one Done frame. A clean answer is all the
  // tokens of the provider named, and no Done frame; so is the text kept for the cache. One that the client left was
  // short of the token that it refused.
  lemma NoSplicedAnswer(cfg: Config, refuses: nat -> bool, capture: bool, view: View, w0: Wire, turns: seq<Turn>)
    returns (c: nat, arrived: seq<Delta>)
    ensures var r := Route(cfg, refuses, capture, view, w0, turns);
            && (r.wire.got == w0.got + arrived || r.wire.got == w0.got + arrived + [ERROR_FRAME])
            && (forall d <- arrived :: !d.done)
            && (arrived != [] ==> c < |turns| && arrived <= TokenFrames(turns[c].frames))
            && (arrived != [] ==> |r.visits| == c + 1)
            && (r.outcome.Served? ==>
                 && c < |turns| && r.outcome.kind == turns[c].kind && turns[c].starts && EndsClean(turns[c].frames)
                 && arrived == TokenFrames(turns[c].frames) && r.wire.got == w0.got + arrived
                 && r.outcome.usage == turns[c].frames[|arrived|].usage
                 && r.outcome.finish == turns[c].frames[|arrived|].finish
                 && r.wire.text == w0.text + (if capture then TextOf(arrived) else ""))
            && (r.outcome.Exhausted? ==> arrived == [])
            && (r.outcome.Broken? ==> arrived != [])
            && (r.outcome.ClientGone? ==>
                 && c < |turns| && r.outcome.kind == turns[c].kind && r.wire.got == w0.got + arrived
                 && |arrived| < |TokenFrames(turns[c].frames)| && refuses(w0.calls + |arrived|))
            && Accepts(refuses, w0.calls, |arrived|)
            && r.wire.calls == w0.calls + |arrived| + if r.outcome.Served? then 0 else 1
  {
    var w, s;
    c, arrived, w, s := RouteUnspliced(cfg, refuses, capture, view, w0, turns);
    if c == |turns| {
      arrived := [];
      assert w0.got + [] == w0.got;
    } else {
      TokenFramesPrefix(turns[c].frames);
    }
  }

  // ----------------------------------------------------- what a route does to the breakers

  function VisitedAll(cfg: Config, view: View, visits: seq<Visit>): View
    decreases visits
  {
    if visits == [] then view else VisitedAll(cfg, Visited(cfg, view, visits[0]), visits[1..])
  }

  predicate ClientLeft(v: Visit) { v.called && v.attempt.ending.ClientLeaves? }

  // The breakers change only by the visits; at most the last visit ends with the client leaving, and then the
  // request ends there.
  lemma {:induction false} RouteVisits(
      cfg: Config, refuses: nat -> bool, capture: bool, view: View, w: Wire, turns: seq<Turn>)
    ensures var r := Route(cfg, refuses, capture, view, w, turns);
            && r.view == VisitedAll(cfg, view, r.visits)
            && (forall i :: 0 <= i < |r.visits| && ClientLeft(r.visits[i]) ==>
                 i == |r.visits| - 1 && r.outcome == ClientGone(r.visits[i].kind))
            && (r.outcome.ClientGone? ==> r.visits != [] && ClientLeft(r.visits[|r.visits| - 1]))
    decreases turns
  {
    if turns != [] {
      var v := VisitOf(cfg, refuses, capture, view, w, turns[0]);
      var view' := Visited(cfg, view, v);
      var (w', s) := if v.called then Called(refuses, capture, w, turns[0]) else (w, Recoverable);
      var r := Route(cfg, refuses, capture, view, w, turns);
      if s == Recoverable {
        RouteVisits(cfg, refuses, capture, view', w', turns[1..]);
        var rest := Route(cfg, refuses, capture, view', w', turns[1..]);
        assert r.visits == [v] + rest.visits && r.visits[1..] == rest.visits;
      } else {
        assert r.visits == [v] && r.visits[1..] == [];
      }
    }
  }

  // A lone candidate is visited once.
  lemma OneTurn(cfg: Config, refuses: nat -> bool, capture: bool, view: View, w: Wire, turn: Turn)
    ensures Route(cfg, refuses, capture, view, w, [turn]).view
         == Visited(cfg, view, VisitOf(cfg, refuses, capture, view, w, turn))
  {
    assert [turn][1..] == [];
  }

  // The attempts a log makes on one provider.
  function AttemptsOn(kind: ProviderKind, visits: seq<Visit>): seq<Attempt> {
    if visits == [] then []
    else (if visits[0].kind == kind then [visits[0].attempt] else []) + AttemptsOn(kind, visits[1..])
  }

  // The time the first visit to a provider would create its breaker.
  function FirstSeen(kind: ProviderKind, visits: seq<Visit>): int {
    if visits == [] then 0 else if visits[0].kind == kind then visits[0].created else FirstSeen(kind, visits[1..])
  }

  // Each provider's breaker sees exactly the attempts made on it, whatever happens on the others.
  lemma {:induction false} BreakersAreIndependent(cfg: Config, view: View, visits: seq<Visit>, kind: ProviderKind)
    ensures var after := VisitedAll(cfg, view, visits);
            && (kind in after <==> kind in view || AttemptsOn(kind, visits) != [])
            && (kind in after ==>
                 after[kind] == TriedAll(cfg, MachineOf(view, kind, FirstSeen(kind, visits)), AttemptsOn(kind, visits)))
    decreases visits
  {
    if visits != [] {
      var v := visits[0];
      var view' := Visited(cfg, view, v);
      BreakersAreIndependent(cfg, view', visits[1..], kind);
      var rest := AttemptsOn(kind, visits[1..]);
      if v.kind == kind {
        assert ([v.attempt] + rest)[1..] == rest;
      } else {
        assert AttemptsOn(kind, visits) == rest;
      }
    }
  }
}
