// The objects of the failover loop: the client's sink and the breakers, updated in place.
module Routing {
  import opened Domain
  import opened CircuitBreaker
  import opened ProbeSlots
  import opened Registries
  import opened Failover

  // The caller's sink.
  class Client {
    const refuses: nat -> bool
    var calls: nat
    var got: seq<Delta>

    constructor (refuses: nat -> bool)
      ensures this.refuses == refuses && calls == 0 && got == []
    {
      this.refuses := refuses;
      calls, got := 0, [];
    }

    ghost function View(text: string): Wire
      reads this
    {
      Wire(calls, got, text)
    }

    method Push(d: Delta) returns (ok: bool)
      modifies this
      ensures ok == !refuses(old(calls))
      ensures forall text :: View(text) == Sent(refuses, old(View(text)), d)
    {
      ok := !refuses(calls);
      calls := calls + 1;
      if ok { got := got + [d]; }
    }
  }

  // The sink a provider streams into: it forwards, and keeps the text of what was accepted.
  class CapturingSink {
    const client: Client
    const capture: bool
    var text: string

    constructor (client: Client, capture: bool)
      ensures this.client == client && this.capture == capture && text == ""
    {
      this.client, this.capture, text := client, capture, "";
    }

    ghost function View(): Wire
      reads this, client
    {
      client.View(text)
    }

    method Push(d: Delta) returns (ok: bool)
      modifies this, client
      ensures ok == !client.refuses(old(client.calls))
      ensures View() == Forwarded(client.refuses, capture, old(View()), d)
    {
      ok := client.Push(d);
      if ok && capture { text := text + d.text; }
    }
  }

  method StreamOne(turn: Turn, sink: CapturingSink) returns (r: StreamResult)
    modifies sink, sink.client
    ensures (sink.View(), r) == Called(sink.client.refuses, sink.capture, old(sink.View()), turn)
  {
    if !turn.starts { return Recoverable; }
    var forwarded := false;
    for i := 0 to |turn.frames|
      invariant Streamed(sink.client.refuses, sink.capture, old(sink.View()), turn.frames, false)
             == Streamed(sink.client.refuses, sink.capture, sink.View(), turn.frames[i..], forwarded)
    {
      var delta := turn.frames[i];
      assert turn.frames[i..][0] == delta && turn.frames[i..][1..] == turn.frames[i + 1..];
      if delta.done {
        if delta.finish == Failed {
          return if forwarded then Aborted else Recoverable;
        }
        return Clean(delta.usage, delta.finish);
      }
      var ok := sink.Push(delta);
      if !ok { return SinkFailed; }
      forwarded := true;
    }
    return if forwarded then Aborted else Recoverable;
  }

  // One turn of the failover loop: consult the candidate's breaker, stream if it admits, record the result.
  method TryCandidate(breakers: BreakerRegistry, turn: Turn, sink: CapturingSink)
      returns (called: bool, r: StreamResult)
    requires breakers.Valid()
    modifies breakers, breakers.breakers.Values, sink, sink.client
    ensures breakers.Valid() && breakers.Grown(old(breakers.breakers.Values))
    ensures var view, w := old(breakers.View()), old(sink.View());
            var v := VisitOf(breakers.cfg, sink.client.refuses, sink.capture, view, w, turn);
            called == v.called && breakers.View() == Visited(breakers.cfg, view, v)
    ensures (sink.View(), r) ==
            if called then Called(sink.client.refuses, sink.capture, old(sink.View()), turn)
                else (old(sink.View()), Recoverable)
  {
    ghost var view := breakers.View();
    ghost var v := VisitOf(breakers.cfg, sink.client.refuses, sink.capture, view, sink.View(), turn);
    var breaker;
    breaker, called := breakers.Ask(turn.kind, turn.created, turn.now, turn.stamp);
    ghost var asked := breakers.View();
    r := Recoverable;
    if called {
      r := StreamOne(turn, sink);
      assert breakers.View() == asked;
      if r != SinkFailed { breakers.Tell(turn.kind, breaker, r.Clean?, turn.done); }
    }
    AskThenTell(breakers.cfg, view, v, asked, breakers.View());
  }

  lemma AskThenTell(cfg: Config, view: View, v: Visit, asked: View, told: View)
    requires var m := MachineOf(view, v.kind, v.created);
             v.called == AdmitsAttempt(cfg, m, v.attempt)
             && asked == view[v.kind := Step(cfg, m, Ask(v.attempt.now, v.attempt.stamp))]
    requires told == if !v.called || v.attempt.ending.ClientLeaves? then asked
                     else asked[v.kind := Step(cfg, asked[v.kind],
                            if v.attempt.ending.Succeeds? then Success(v.attempt.done) else Failure(v.attempt.done))]
    ensures told == Visited(cfg, view, v)
  {}

  method RouteAndStream(breakers: BreakerRegistry, turns: seq<Turn>, sink: CapturingSink) returns (outcome: Outcome)
    requires breakers.Valid()
    modifies breakers, breakers.breakers.Values, sink, sink.client
    ensures breakers.Valid() && breakers.Grown(old(breakers.breakers.Values))
    ensures var view, w := old(breakers.View()), old(sink.View());
            var r := Route(breakers.cfg, sink.client.refuses, sink.capture, view, w, turns);
            outcome == r.outcome && breakers.View() == r.view && sink.View() == r.wire
  {
    ghost var refuses, capture := sink.client.refuses, sink.capture;
    ghost var whole := Route(breakers.cfg, refuses, capture, breakers.View(), sink.View(), turns);
    var i, kind, last := 0, Unspecified, Recoverable;
    while i < |turns| && last == Recoverable
      invariant i <= |turns| && breakers.Valid() && breakers.Grown(old(breakers.breakers.Values))
      invariant if last.Recoverable? then
                  var rest := Route(breakers.cfg, refuses, capture, breakers.View(), sink.View(), turns[i..]);
                  whole == rest.(visits := whole.visits)
                else whole.view == breakers.View() && Decides(refuses, kind, sink.View(), last, whole)
      decreases |turns| - i
    {
      assert turns[i..][0] == turns[i] && turns[i..][1..] == turns[i + 1..];
      kind := turns[i].kind;
      var called;
      called, last := TryCandidate(breakers, turns[i], sink);
      i := i + 1;
    }
    outcome := Conclude(sink, kind, last);
  }

  // The error frame goes to the client directly: it is no part of the answer's text.
  method Conclude(sink: CapturingSink, kind: ProviderKind, last: StreamResult) returns (outcome: Outcome)
    modifies sink.client
    ensures sink.View() == if last.Recoverable? || last.Aborted? then
              Sent(sink.client.refuses, old(sink.View()), ERROR_FRAME)
                           else old(sink.View())
    ensures match last
            case Recoverable => outcome == Exhausted
            case Aborted => outcome == Broken(kind)
            case SinkFailed => outcome == ClientGone(kind)
            case Clean(usage, finish) => outcome == Served(kind, usage, finish)
  {
    match last {
      case SinkFailed => outcome := ClientGone(kind);
      case Clean(usage, finish) => outcome := Served(kind, usage, finish);
      case Aborted =>
        var _ := sink.client.Push(ERROR_FRAME);
        outcome := Broken(kind);
      case Recoverable =>
        var _ := sink.client.Push(ERROR_FRAME);
        outcome := Exhausted;
    }
  }
}
