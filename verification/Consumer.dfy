// The at-least-once consumer: what one delivery does, and what any run of a redelivering broker can do.
module Consumer {

  // A non-positive message timeout is none.
  datatype Config = Config(maxRetries: int, hasStore: bool, hasDlq: bool, msgTimeout: int)

  function MaxDeliver(cfg: Config): int { if cfg.maxRetries > 0 then cfg.maxRetries + 1 else -1 }

  // A message: whether its envelope parses, and the event's ID.
  datatype Msg = Msg(parses: bool, id: string)

  // What goes wrong in one delivery. `timedOut` says that the message's deadline passes while its handler runs.
  // A failing mark may have been stored all the same.
  datatype Luck = Luck(
    checkFails: bool, handlerFails: bool, timedOut: bool, metadataFails: bool, markFails: bool, markStored: bool,
    dlqFails: bool)

  // The context that the handler ran under is spent; everything after the handler runs under it too.
  predicate Expired(cfg: Config, luck: Luck) { cfg.msgTimeout > 0 && luck.timedOut }

  // A publish under a spent context fails. A store may or may not look at the context, so a mark may still succeed.
  predicate DlqRefuses(cfg: Config, luck: Luck) { luck.dlqFails || Expired(cfg, luck) }

  datatype Verdict = Ack | Nak | Term

  datatype Effect =
    | CheckFailed
    | HandlerOk(id: string)
    | HandlerErr(id: string)
    | Marked(id: string)
    | MarkFailed(id: string, stored: bool)
    | DlqPublished(id: string)
    | DlqFailed(id: string)
    | DlqAbsent(id: string)      // no subject configured: the message is dropped
    | Settle(verdict: Verdict)

  function RouteToDLQ(cfg: Config, msg: Msg, luck: Luck): seq<Effect> {
    [if !cfg.hasDlq then DlqAbsent(msg.id)
     else if DlqRefuses(cfg, luck) then DlqFailed(msg.id)
     else DlqPublished(msg.id),
     Settle(Term)]
  }

  function HandleFailure(cfg: Config, msg: Msg, n: nat, luck: Luck): seq<Effect> {
    if !luck.metadataFails && cfg.maxRetries > 0 && n >= cfg.maxRetries + 1 then RouteToDLQ(cfg, msg, luck)
    else [Settle(Nak)]
  }

  // What follows a successful handler.
  function Completes(cfg: Config, msg: Msg, luck: Luck): seq<Effect> {
    if !cfg.hasStore then [Settle(Ack)]
    else if luck.markFails then [MarkFailed(msg.id, luck.markStored), Settle(Nak)]
    else [Marked(msg.id), Settle(Ack)]
  }

  // Everything the n-th delivery of a message does if the process does not crash.
  function Effects(cfg: Config, seen: set<string>, msg: Msg, n: nat, luck: Luck): seq<Effect> {
    if !msg.parses then [Settle(Term)]
    else if cfg.hasStore && luck.checkFails then [CheckFailed, Settle(Nak)]
    else if cfg.hasStore && msg.id in seen then [Settle(Ack)]
    else if luck.handlerFails then [HandlerErr(msg.id)] + HandleFailure(cfg, msg, n, luck)
    else [HandlerOk(msg.id)] + Completes(cfg, msg, luck)
  }

  predicate Stores(e: Effect) { e.Marked? || (e.MarkFailed? && e.stored) }

  // The events these effects record as processed.
  function Recorded(es: seq<Effect>): set<string> { set e | e in es && Stores(e) :: e.id }

  // ------------------------------------------------------------------ the objects

  class ProcessedStore {
    var seen: set<string>

    constructor ()
      ensures seen == {}
    {
      seen := {};
    }

    method IsProcessed(id: string, fails: bool) returns (ok: bool, processed: bool)
      ensures ok == !fails && (ok ==> (processed <==> id in seen))
    {
      ok, processed := !fails, id in seen;
    }

    method MarkProcessed(id: string, fails: bool, stored: bool) returns (ok: bool)
      modifies this
      ensures ok == !fails
      ensures seen == if !fails || stored then old(seen) + {id} else old(seen)
    {
      ok := !fails;
      if !fails || stored { seen := seen + {id}; }
    }
  }

  class Subscriber {
    const cfg: Config
    const store: ProcessedStore
    var log: seq<Effect>   // handler runs, publishes and verdicts, in order

    constructor (cfg: Config, store: ProcessedStore)
      ensures this.cfg == cfg && this.store == store && log == []
    {
      this.cfg, this.store, log := cfg, store, [];
    }

    method Do(e: Effect)
      modifies this`log
      ensures log == old(log) + [e]
    {
      log := log + [e];
    }

    method HandleMessage(msg: Msg, n: nat, luck: Luck)
      modifies this`log, store
      ensures log == old(log) + Effects(cfg, old(store.seen), msg, n, luck)
      ensures store.seen == old(store.seen) + Recorded(Effects(cfg, old(store.seen), msg, n, luck))
    {
      if !msg.parses {
        Do(Settle(Term));
        return;
      }
      if cfg.hasStore {
        var ok, processed := store.IsProcessed(msg.id, luck.checkFails);
        if !ok {
          Do(CheckFailed);
          Do(Settle(Nak));
          return;
        }
        if processed {
          Do(Settle(Ack));
          return;
        }
      }
      if luck.handlerFails {
        Do(HandlerErr(msg.id));
        HandlerFailed(msg, n, luck);
        return;
      }
      Do(HandlerOk(msg.id));
      HandlerSucceeded(msg, luck);
    }

    // Mark before acking.
    method HandlerSucceeded(msg: Msg, luck: Luck)
      modifies this`log, store
      ensures log == old(log) + Completes(cfg, msg, luck)
      ensures store.seen == old(store.seen) + Recorded(Completes(cfg, msg, luck))
    {
      if cfg.hasStore {
        var ok := store.MarkProcessed(msg.id, luck.markFails, luck.markStored);
        if !ok {
          Do(MarkFailed(msg.id, luck.markStored));
          Do(Settle(Nak));
          return;
        }
        Do(Marked(msg.id));
      }
      Do(Settle(Ack));
    }

    method HandlerFailed(msg: Msg, n: nat, luck: Luck)
      modifies this`log
      ensures log == old(log) + HandleFailure(cfg, msg, n, luck)
    {
      if !luck.metadataFails && cfg.maxRetries > 0 && n >= cfg.maxRetries + 1 {
        if !cfg.hasDlq {
          Do(DlqAbsent(msg.id));
          Do(Settle(Term));
          return;
        }
        Do(if DlqRefuses(cfg, luck) then DlqFailed(msg.id) else DlqPublished(msg.id));
        Do(Settle(Term));
        return;
      }
      Do(Settle(Nak));
    }
  }

  // ------------------------------------------------------------------------ one delivery

  // A delivery that completes gives exactly one verdict, last. It acks only an event recorded or, without a
  // store, handled; it terms a parseable message only on its final delivery, once its handler has failed; and a
  // store or metadata error or a failed handler with deliveries left naks.
  lemma DeliveryVerdict(cfg: Config, seen: set<string>, msg: Msg, n: nat, luck: Luck)
    ensures var es := Effects(cfg, seen, msg, n, luck);
            && es[|es| - 1].Settle? && (forall i :: 0 <= i < |es| - 1 ==> !es[i].Settle?)
            && var verdict := es[|es| - 1].verdict;
               && (verdict == Ack && cfg.hasStore ==> msg.id in seen + Recorded(es))
               && (verdict == Ack && !cfg.hasStore ==> HandlerOk(msg.id) in es)
               && (verdict == Term && msg.parses ==>
                    HandlerErr(msg.id) in es && cfg.maxRetries > 0 && n >= cfg.maxRetries + 1)
               && (verdict == Nak ==>
                    CheckFailed in es || (exists stored :: MarkFailed(msg.id, stored) in es)
                    || (HandlerErr(msg.id) in es
                        && (luck.metadataFails || cfg.maxRetries <= 0 || n < cfg.maxRetries + 1)))
               && (!msg.parses ==> verdict == Term && HandlerOk(msg.id) !in es && HandlerErr(msg.id) !in es)
  {
    var es := Effects(cfg, seen, msg, n, luck);
    if msg.parses && cfg.hasStore && !luck.checkFails && msg.id !in seen && !luck.handlerFails {
      assert es[1] == if luck.markFails then MarkFailed(msg.id, luck.markStored) else Marked(msg.id);
    }
  }

  // ------------------------------------------------------------------- runs of the broker

  // One delivery in a run: the n-th of message `msg`, of which `effects` took place before it completed or its
  // process crashed. A verdict may be lost on its way to the broker.
  datatype Delivery = Delivery(msg: nat, n: nat, luck: Luck, effects: seq<Effect>, lost: bool)

  function SeenAfter(run: seq<Delivery>): set<string> {
    if run == [] then {} else SeenAfter(run[..|run| - 1]) + Recorded(run[|run| - 1].effects)
  }

  function Delivered(run: seq<Delivery>, i: nat): nat {
    if run == [] then 0 else Delivered(run[..|run| - 1], i) + if run[|run| - 1].msg == i then 1 else 0
  }

  // The broker was told to stop redelivering.
  predicate Stops(d: Delivery) { !d.lost && (Settle(Ack) in d.effects || Settle(Term) in d.effects) }

  predicate Stopped(run: seq<Delivery>, i: nat) { exists d <- run :: d.msg == i && Stops(d) }

  function Full(cfg: Config, msgs: seq<Msg>, before: seq<Delivery>, d: Delivery): seq<Effect>
    requires d.msg < |msgs|
  {
    Effects(cfg, SeenAfter(before), msgs[d.msg], d.n, d.luck)
  }

  // What the broker and the consumer can do next: redeliver an unsettled message while deliveries are left, and
  // run the handler on it to the end or to a crash.
  predicate CanFollow(cfg: Config, msgs: seq<Msg>, before: seq<Delivery>, d: Delivery) {
    && d.msg < |msgs| && !Stopped(before, d.msg)
    && d.n == Delivered(before, d.msg) + 1
    && (MaxDeliver(cfg) > 0 ==> d.n <= MaxDeliver(cfg))
    && d.effects <= Full(cfg, msgs, before, d)
  }

  // Runs of non-overlapping deliveries.
  predicate Possible(cfg: Config, msgs: seq<Msg>, run: seq<Delivery>) {
    run == [] || (Possible(cfg, msgs, run[..|run| - 1]) && CanFollow(cfg, msgs, run[..|run| - 1], run[|run| - 1]))
  }

  // ---------------------------------------------------------------- effects under redelivery

  // Times the handler succeeded on an event.
  function Successes(run: seq<Delivery>, id: string): nat {
    if run == [] then 0 else Successes(run[..|run| - 1], id) + if HandlerOk(id) in run[|run| - 1].effects then 1 else 0
  }

  // Times it succeeded and the record was lost: the mark failed unstored, or the process crashed before it.
  function Unrecorded(run: seq<Delivery>, id: string): nat {
    if run == [] then 0
    else
      var es := run[|run| - 1].effects;
      Unrecorded(run[..|run| - 1], id) + if HandlerOk(id) in es && id !in Recorded(es) then 1 else 0
  }

  // With a store, the handler succeeds on an event once if it is recorded, and once more for each time its record
  // was lost: at most one run more than there were failed marks and crashes before the mark.
  lemma {:induction false} EffectsUnderRedelivery(cfg: Config, msgs: seq<Msg>, run: seq<Delivery>, id: string)
    requires cfg.hasStore && Possible(cfg, msgs, run)
    ensures Successes(run, id) == Unrecorded(run, id) + if id in SeenAfter(run) then 1 else 0
    decreases |run|
  {
    if run != [] {
      var before, d := run[..|run| - 1], run[|run| - 1];
      EffectsUnderRedelivery(cfg, msgs, before, id);
      DeliveryRecords(cfg, SeenAfter(before), msgs[d.msg], d.n, d.luck, d.effects, id);
    }
  }

  // What any of a delivery's effects tells.
  lemma EffectsTell(cfg: Config, seen: set<string>, msg: Msg, n: nat, luck: Luck, e: Effect)
    requires e in Effects(cfg, seen, msg, n, luck)
    ensures (e.HandlerOk? || e.HandlerErr?) && cfg.hasStore ==> e.id == msg.id && e.id !in seen
    ensures Stores(e) ==> e.id == msg.id && Effects(cfg, seen, msg, n, luck)[0] == HandlerOk(e.id)
  {}

  // After a handler success comes the mark, before anything else.
  lemma SuccessThenMark(cfg: Config, seen: set<string>, msg: Msg, n: nat, luck: Luck, id: string)
    requires cfg.hasStore && HandlerOk(id) in Effects(cfg, seen, msg, n, luck)
    ensures var all := Effects(cfg, seen, msg, n, luck);
            && id == msg.id && |all| > 1 && all[0] == HandlerOk(id)
            && (all[1] == Marked(id) || all[1] == MarkFailed(id, luck.markStored))
  {}

  lemma DeliveryRecords(cfg: Config, seen: set<string>, msg: Msg, n: nat, luck: Luck, es: seq<Effect>, id: string)
    requires cfg.hasStore && es <= Effects(cfg, seen, msg, n, luck)
    ensures id in seen ==> HandlerOk(id) !in es && HandlerErr(id) !in es && id !in Recorded(es)
    ensures id in Recorded(es) ==> HandlerOk(id) in es
    ensures HandlerOk(id) in es && id !in Recorded(es) ==>
              |es| == 1 || MarkFailed(id, false) in es
  {
    var all := Effects(cfg, seen, msg, n, luck);
    forall e | e in es
      ensures e in all && ((e.HandlerOk? || e.HandlerErr?) ==> e.id !in seen)
      ensures Stores(e) ==> all[0] == HandlerOk(e.id)
    {
      EffectsTell(cfg, seen, msg, n, luck, e);
    }
    if id in Recorded(es) {
      var e :| e in es && Stores(e) && e.id == id;
      assert es[0] == HandlerOk(id);
      EffectsTell(cfg, seen, msg, n, luck, HandlerOk(id));
    }
    if HandlerOk(id) in es && |es| > 1 {
      SuccessThenMark(cfg, seen, msg, n, luck, id);
      if Stores(es[1]) { assert es[1].id in Recorded(es); }
    }
  }

  // Times the handler ran on an event, with success or without.
  function HandlerRuns(run: seq<Delivery>, id: string): nat {
    if run == [] then 0
    else
      var es := run[|run| - 1].effects;
      HandlerRuns(run[..|run| - 1], id) + if HandlerOk(id) in es || HandlerErr(id) in es then 1 else 0
  }

  // Once an event is recorded its handler never runs on it again, in any continuation of the run.
  lemma {:induction false} RecordedStaysHandled(
      cfg: Config, msgs: seq<Msg>, run: seq<Delivery>, more: seq<Delivery>, id: string)
    requires cfg.hasStore && Possible(cfg, msgs, run + more) && id in SeenAfter(run)
    ensures HandlerRuns(run + more, id) == HandlerRuns(run, id) && id in SeenAfter(run + more)
    decreases |more|
  {
    if more == [] {
      assert run + more == run;
    } else {
      var k := |more| - 1;
      var d := more[k];
      assert (run + more)[..|run + more| - 1] == run + more[..k];
      RecordedStaysHandled(cfg, msgs, run, more[..k], id);
      DeliveryRecords(cfg, SeenAfter(run + more[..k]), msgs[d.msg], d.n, d.luck, d.effects, id);
    }
  }

  // An event whose delivery is acked has been recorded.
  lemma {:induction false} AckedIsRecorded(cfg: Config, msgs: seq<Msg>, run: seq<Delivery>, k: nat)
    requires cfg.hasStore && Possible(cfg, msgs, run) && k < |run| && run[k].msg < |msgs|
    requires Settle(Ack) in run[k].effects
    ensures msgs[run[k].msg].id in SeenAfter(run[..k + 1])
    decreases |run|
  {
    if k + 1 < |run| {
      var shorter := run[..|run| - 1];
      AckedIsRecorded(cfg, msgs, shorter, k);
      assert shorter[..k + 1] == run[..k + 1];
    } else {
      var d, before := run[k], run[..k];
      var all := Full(cfg, msgs, before, d);
      assert run[..k + 1] == run;
      DeliveryVerdict(cfg, SeenAfter(before), msgs[d.msg], d.n, d.luck);
      VerdictCompletes(cfg, SeenAfter(before), msgs[d.msg], d.n, d.luck, d.effects, Ack);
    }
  }

  // A delivery that gave a verdict ran to the end.
  lemma VerdictCompletes(cfg: Config, seen: set<string>, msg: Msg, n: nat, luck: Luck, es: seq<Effect>, v: Verdict)
    requires es <= Effects(cfg, seen, msg, n, luck) && Settle(v) in es
    ensures es == Effects(cfg, seen, msg, n, luck) && es[|es| - 1] == Settle(v)
  {
    var all := Effects(cfg, seen, msg, n, luck);
    DeliveryVerdict(cfg, seen, msg, n, luck);
    var i :| 0 <= i < |es| && es[i] == Settle(v);
    assert all[i] == Settle(v);
  }

  // ------------------------------------------------------------- every outcome of a message

  function Handled(run: seq<Delivery>, i: nat, id: string): nat {
    if run == [] then 0
    else
      var d := run[|run| - 1];
      Handled(run[..|run| - 1], i, id) + if d.msg == i
          && (HandlerOk(id) in d.effects || HandlerErr(id) in d.effects) then 1 else 0
  }

  // With a retry cap no message is delivered, or handled, more than maxRetries + 1 times.
  lemma {:induction false} DeliveriesAreBounded(cfg: Config, msgs: seq<Msg>, run: seq<Delivery>, i: nat)
    requires Possible(cfg, msgs, run) && i < |msgs| && cfg.maxRetries > 0
    ensures Handled(run, i, msgs[i].id) <= Delivered(run, i) <= cfg.maxRetries + 1
    decreases |run|
  {
    if run != [] { DeliveriesAreBounded(cfg, msgs, run[..|run| - 1], i); }
  }

  // The broker delivers an unsettled message again exactly while retries are left, and for ever if they have no cap.
  lemma RedeliveredExactly(cfg: Config, msgs: seq<Msg>, run: seq<Delivery>, i: nat)
    requires i < |msgs| && !Stopped(run, i)
    ensures (exists d: Delivery :: d.msg == i && CanFollow(cfg, msgs, run, d))
       <==> cfg.maxRetries <= 0 || Delivered(run, i) <= cfg.maxRetries
  {
    if cfg.maxRetries <= 0 || Delivered(run, i) <= cfg.maxRetries {
      var luck := Luck(false, false, false, false, false, false, false);
      assert CanFollow(cfg, msgs, run, Delivery(i, Delivered(run, i) + 1, luck, [], false));
    }
  }

  // The last delivery of a message in a run.
  function LastOf(run: seq<Delivery>, i: nat): Delivery
    requires Delivered(run, i) > 0
  {
    if run[|run| - 1].msg == i then run[|run| - 1] else LastOf(run[..|run| - 1], i)
  }

  predicate Routed(d: Delivery, id: string) {
    DlqPublished(id) in d.effects || DlqFailed(id) in d.effects || DlqAbsent(id) in d.effects
  }

  // The delivery stopped before its verdict.
  predicate Crashed(d: Delivery) { forall v :: Settle(v) !in d.effects }

  // How the last of a message's deliveries ended.
  lemma {:induction false} LastDelivery(cfg: Config, msgs: seq<Msg>, run: seq<Delivery>, i: nat)
      returns (before: seq<Delivery>)
    requires Possible(cfg, msgs, run) && i < |msgs| && Delivered(run, i) > 0
    ensures Possible(cfg, msgs, before) && CanFollow(cfg, msgs, before, LastOf(run, i))
    ensures LastOf(run, i).msg == i && LastOf(run, i).n == Delivered(run, i)
    decreases |run|
  {
    if run[|run| - 1].msg == i {
      before := run[..|run| - 1];
    } else {
      before := LastDelivery(cfg, msgs, run[..|run| - 1], i);
    }
  }

  // A parseable message that has used up its deliveries was acked on its last one, or was routed to the DLQ, or
  // its last delivery crashed or ended in a NAK for a store or metadata error. In that last case nothing is left
  // of it: no delivery remains and it was not dead-lettered.
  lemma ExhaustedMessages(cfg: Config, msgs: seq<Msg>, run: seq<Delivery>, i: nat)
    requires Possible(cfg, msgs, run) && i < |msgs| && msgs[i].parses && cfg.maxRetries > 0
    requires Delivered(run, i) == MaxDeliver(cfg)
    ensures var d := LastOf(run, i);
            var id := msgs[i].id;
            || Settle(Ack) in d.effects
            || Routed(d, id)
            || Crashed(d)
            || (Settle(Nak) in d.effects
                && (CheckFailed in d.effects || (exists stored :: MarkFailed(id, stored) in d.effects)
                    || (HandlerErr(id) in d.effects && d.luck.metadataFails)))
  {
    var before := LastDelivery(cfg, msgs, run, i);
    var d := LastOf(run, i);
    var all := Full(cfg, msgs, before, d);
    DeliveryVerdict(cfg, SeenAfter(before), msgs[i], d.n, d.luck);
    if !Crashed(d) {
      var v :| Settle(v) in d.effects;
      VerdictCompletes(cfg, SeenAfter(before), msgs[i], d.n, d.luck, d.effects, v);
      if v == Term { assert all[1] in d.effects; }
    }
  }

  // Times a message was routed to the DLQ.
  function RoutedTimes(run: seq<Delivery>, i: nat, id: string): nat {
    if run == [] then 0
    else RoutedTimes(run[..|run| - 1], i, id) + if run[|run| - 1].msg == i && Routed(run[|run| - 1], id) then 1 else 0
  }

  // A message is routed to the DLQ at most once, and only on its final delivery.
  lemma {:induction false} RoutedOnce(cfg: Config, msgs: seq<Msg>, run: seq<Delivery>, i: nat)
    requires Possible(cfg, msgs, run) && i < |msgs|
    ensures RoutedTimes(run, i, msgs[i].id) <= 1
    ensures RoutedTimes(run, i, msgs[i].id) == 1 ==> cfg.maxRetries > 0 && Delivered(run, i) == cfg.maxRetries + 1
    decreases |run|
  {
    if run != [] {
      var before, d := run[..|run| - 1], run[|run| - 1];
      RoutedOnce(cfg, msgs, before, i);
      RoutingIsFinal(cfg, SeenAfter(before), msgs[d.msg], d.n, d.luck, d.effects);
    }
  }

  // Routing happens only on the final delivery, once the handler has failed there and its metadata is readable.
  lemma RoutingIsFinal(cfg: Config, seen: set<string>, msg: Msg, n: nat, luck: Luck, es: seq<Effect>)
    requires es <= Effects(cfg, seen, msg, n, luck)
    ensures DlqPublished(msg.id) in es || DlqFailed(msg.id) in es || DlqAbsent(msg.id) in es ==>
              cfg.maxRetries > 0 && n >= cfg.maxRetries + 1 && HandlerErr(msg.id) in es && !luck.metadataFails
  {
    var all := Effects(cfg, seen, msg, n, luck);
    assert forall e <- es :: e in all;
    if |es| > 0 { assert es[0] == all[0]; }
  }

  // ------------------------------------------------------- what is left of an exhausted message

  // A copy of the message is in the DLQ.
  predicate DeadLettered(run: seq<Delivery>, i: nat, id: string) {
    exists d <- run :: d.msg == i && DlqPublished(id) in d.effects
  }

  lemma {:induction false} LastFollows(cfg: Config, msgs: seq<Msg>, run: seq<Delivery>, more: seq<Delivery>)
    requires Possible(cfg, msgs, run + more) && more != []
    ensures var k := |more| - 1;
            Possible(cfg, msgs, run + more[..k]) && CanFollow(cfg, msgs, run + more[..k], more[k])
    ensures forall i :: Delivered(run + more, i) ==
              Delivered(run + more[..|more| - 1], i) + if more[|more| - 1].msg == i then 1 else 0
  {
    var k := |more| - 1;
    assert (run + more)[..|run + more| - 1] == run + more[..k] && (run + more)[|run + more| - 1] == more[k];
  }

  // A message out of deliveries is delivered no more.
  lemma {:induction false} ExhaustedStays(
      cfg: Config, msgs: seq<Msg>, run: seq<Delivery>, more: seq<Delivery>, i: nat)
    requires Possible(cfg, msgs, run + more) && i < |msgs| && cfg.maxRetries > 0
    requires Delivered(run, i) == MaxDeliver(cfg)
    ensures Possible(cfg, msgs, run) && Delivered(run + more, i) == MaxDeliver(cfg)
    ensures forall d <- more :: d.msg != i
    decreases |more|
  {
    if more == [] {
      assert run + more == run;
    } else {
      var k := |more| - 1;
      LastFollows(cfg, msgs, run, more);
      ExhaustedStays(cfg, msgs, run, more[..k], i);
      forall d | d in more ensures d.msg != i {
        if d !in more[..k] { assert d == more[k]; }
      }
    }
  }

  // Only the last of its deliveries can have dead-lettered it.
  lemma {:induction false} DeadLetteredByTheLast(cfg: Config, msgs: seq<Msg>, run: seq<Delivery>, i: nat)
    requires Possible(cfg, msgs, run) && i < |msgs| && cfg.maxRetries > 0 && Delivered(run, i) > 0
    ensures DeadLettered(run, i, msgs[i].id) <==> DlqPublished(msgs[i].id) in LastOf(run, i).effects
    decreases |run|
  {
    var before, d := run[..|run| - 1], run[|run| - 1];
    assert run == before + [d];
    if d.msg == i {
      if Delivered(before, i) > 0 {
        DeadLetteredByTheLast(cfg, msgs, before, i);
        var _ := EarlierIsNotFinal(cfg, msgs, before, d, i);
      } else {
        NeverDelivered(before, i);
      }
    } else {
      DeadLetteredByTheLast(cfg, msgs, before, i);
    }
  }

  lemma {:induction false} NeverDelivered(run: seq<Delivery>, i: nat)
    requires Delivered(run, i) == 0
    ensures forall d <- run :: d.msg != i
  {
    if run != [] {
      NeverDelivered(run[..|run| - 1], i);
      assert run == run[..|run| - 1] + [run[|run| - 1]];
    }
  }

  // A delivery that another one follows was not the final one, so it routed nothing.
  lemma EarlierIsNotFinal(cfg: Config, msgs: seq<Msg>, before: seq<Delivery>, d: Delivery, i: nat) returns (n: nat)
    requires Possible(cfg, msgs, before) && CanFollow(cfg, msgs, before, d) && d.msg == i && cfg.maxRetries > 0
    requires Delivered(before, i) > 0
    ensures n == LastOf(before, i).n < cfg.maxRetries + 1 && DlqPublished(msgs[i].id) !in LastOf(before, i).effects
  {
    var earlier := LastDelivery(cfg, msgs, before, i);
    var last := LastOf(before, i);
    n := last.n;
    RoutingIsFinal(cfg, SeenAfter(earlier), msgs[i], last.n, last.luck, last.effects);
  }

  // Over every run and every continuation of it: a message out of deliveries whose last one completed without
  // an ack is delivered no more, and the DLQ has a copy of it exactly when that delivery's store check was
  // answered, its handler failed before the message's deadline, its metadata was readable and the DLQ took it.
  // A NAK on that delivery leaves no copy, ever.
  lemma FinalDeliveryKeepsACopyExactly(
      cfg: Config, msgs: seq<Msg>, run: seq<Delivery>, more: seq<Delivery>, i: nat)
    requires Possible(cfg, msgs, run + more) && i < |msgs| && msgs[i].parses && cfg.maxRetries > 0
    requires Delivered(run, i) == MaxDeliver(cfg) && !Crashed(LastOf(run, i))
    requires Settle(Ack) !in LastOf(run, i).effects
    ensures Delivered(run + more, i) == Delivered(run, i)
    ensures var d := LastOf(run, i);
            && (DeadLettered(run + more, i, msgs[i].id) <==>
                 (cfg.hasStore ==> !d.luck.checkFails) && d.luck.handlerFails && !d.luck.metadataFails
                 && cfg.hasDlq && !DlqRefuses(cfg, d.luck))
            && (Settle(Nak) in d.effects ==> !DeadLettered(run + more, i, msgs[i].id))
  {
    ExhaustedStays(cfg, msgs, run, more, i);
    DeadLetteredByTheLast(cfg, msgs, run, i);
    LaterOnesAreOthers(run, more, i, msgs[i].id);
    var before := LastDelivery(cfg, msgs, run, i);
    var d, seen := LastOf(run, i), SeenAfter(before);
    var v :| Settle(v) in d.effects;
    VerdictCompletes(cfg, seen, msgs[i], d.n, d.luck, d.effects, v);
    LastDeliveryEffects(cfg, seen, msgs[i], d.luck);
  }

  lemma LaterOnesAreOthers(run: seq<Delivery>, more: seq<Delivery>, i: nat, id: string)
    requires forall d <- more :: d.msg != i
    ensures DeadLettered(run + more, i, id) <==> DeadLettered(run, i, id)
  {
    if DeadLettered(run, i, id) {
      var d :| d in run && d.msg == i && DlqPublished(id) in d.effects;
      assert d in run + more;
    }
  }

  lemma LastDeliveryEffects(cfg: Config, seen: set<string>, msg: Msg, luck: Luck)
    requires cfg.maxRetries > 0 && msg.parses
    ensures var es := Effects(cfg, seen, msg, cfg.maxRetries + 1, luck);
            Settle(Ack) !in es ==>
              && (DlqPublished(msg.id) in es <==>
                   (cfg.hasStore ==> !luck.checkFails) && luck.handlerFails && !luck.metadataFails
                   && cfg.hasDlq && !DlqRefuses(cfg, luck))
              && (Settle(Nak) in es ==> DlqPublished(msg.id) !in es)
  {
    var es := Effects(cfg, seen, msg, cfg.maxRetries + 1, luck);
    assert |es| > 1 ==> es[1] in es;
    if (cfg.hasStore ==> !luck.checkFails) && !(cfg.hasStore && msg.id in seen) && !luck.handlerFails
        && !luck.markFails {
      assert es[|es| - 1] == Settle(Ack);
    }
  }

  // A message whose last delivery ran out of time is never dead-lettered, however well the DLQ works.
  lemma TimedOutIsNotDeadLettered(
      cfg: Config, msgs: seq<Msg>, run: seq<Delivery>, more: seq<Delivery>, i: nat)
    requires Possible(cfg, msgs, run + more) && i < |msgs| && cfg.maxRetries > 0
    requires Delivered(run, i) == MaxDeliver(cfg) && Expired(cfg, LastOf(run, i).luck)
    ensures Delivered(run + more, i) == Delivered(run, i) && !DeadLettered(run + more, i, msgs[i].id)
  {
    ExhaustedStays(cfg, msgs, run, more, i);
    DeadLetteredByTheLast(cfg, msgs, run, i);
    LaterOnesAreOthers(run, more, i, msgs[i].id);
    var before := LastDelivery(cfg, msgs, run, i);
    var d := LastOf(run, i);
    TimedOutIsRefused(cfg, SeenAfter(before), msgs[i], d.n, d.luck, d.effects);
  }

  lemma TimedOutIsRefused(cfg: Config, seen: set<string>, msg: Msg, n: nat, luck: Luck, es: seq<Effect>)
    requires es <= Effects(cfg, seen, msg, n, luck) && Expired(cfg, luck)
    ensures DlqPublished(msg.id) !in es
  {
    assert forall e <- es :: e in Effects(cfg, seen, msg, n, luck);
  }

  // No continuation delivers the message again or dead-letters it, and no delivery of it was acked.
  ghost predicate LostForGood(cfg: Config, msgs: seq<Msg>, run: seq<Delivery>, i: nat)
    requires i < |msgs|
  {
    && (forall d <- run :: d.msg == i ==> Settle(Ack) !in d.effects)
    && (forall more :: Possible(cfg, msgs, run + more) ==>
         Delivered(run + more, i) == Delivered(run, i) && !DeadLettered(run + more, i, msgs[i].id))
  }

  // Such losses happen: while the store does not answer, every delivery is NAKed, the last one included.
  lemma OutageLosesMessage(cfg: Config, msgs: seq<Msg>, i: nat) returns (run: seq<Delivery>)
    requires cfg.maxRetries > 0 && cfg.hasStore && i < |msgs| && msgs[i].parses
    ensures Possible(cfg, msgs, run) && Delivered(run, i) == MaxDeliver(cfg) && LostForGood(cfg, msgs, run, i)
  {
    var n := cfg.maxRetries + 1;
    var nak := [CheckFailed, Settle(Nak)];
    run := Repeated(i, OUTAGE, nak, n);
    RepeatedIsPending(cfg, msgs, i, OUTAGE, nak, n);
    assert Settle(Nak) in nak && Settle(Ack) !in nak;
    forall more | Possible(cfg, msgs, run + more)
      ensures Delivered(run + more, i) == Delivered(run, i) && !DeadLettered(run + more, i, msgs[i].id)
    {
      FinalDeliveryKeepsACopyExactly(cfg, msgs, run, more, i);
    }
  }

  // And they happen with every store and the DLQ in good order, to a message whose handler is too slow each time.
  lemma SlownessLosesMessage(cfg: Config, msgs: seq<Msg>, i: nat) returns (run: seq<Delivery>)
    requires cfg.maxRetries > 0 && cfg.hasDlq && cfg.msgTimeout > 0 && i < |msgs| && msgs[i].parses
    ensures Possible(cfg, msgs, run) && Delivered(run, i) == MaxDeliver(cfg) && LostForGood(cfg, msgs, run, i)
    ensures forall d <- run :: d.luck == SLOW
  {
    var n, id := cfg.maxRetries + 1, msgs[i].id;
    run := Repeated(i, SLOW, [HandlerErr(id), Settle(Nak)], n - 1) + [Delivery(i, n, SLOW, LastSlow(id), false)];
    SlowIsPossible(cfg, msgs, i);
    forall more | Possible(cfg, msgs, run + more)
      ensures Delivered(run + more, i) == Delivered(run, i) && !DeadLettered(run + more, i, msgs[i].id)
    {
      TimedOutIsNotDeadLettered(cfg, msgs, run, more, i);
    }
  }

  const OUTAGE := Luck(true, false, false, false, false, false, false)
  const SLOW := Luck(false, true, true, false, false, false, false)

  function LastSlow(id: string): seq<Effect> { [HandlerErr(id), DlqFailed(id), Settle(Term)] }

  // The first n deliveries of a message, all alike.
  function Repeated(i: nat, luck: Luck, es: seq<Effect>, n: nat): seq<Delivery> {
    if n == 0 then [] else Repeated(i, luck, es, n - 1) + [Delivery(i, n, luck, es, false)]
  }

  lemma {:induction false} OneMoreDelivery(cfg: Config, msgs: seq<Msg>, before: seq<Delivery>, d: Delivery)
    requires Possible(cfg, msgs, before) && CanFollow(cfg, msgs, before, d)
    ensures var run := before + [d];
            && Possible(cfg, msgs, run) && Delivered(run, d.msg) == d.n && LastOf(run, d.msg) == d
            && SeenAfter(run) == SeenAfter(before) + Recorded(d.effects)
  {
    assert (before + [d])[..|before|] == before;
  }

  // The message was delivered n times, nothing was recorded, and the broker was not told to stop.
  predicate Pending(cfg: Config, msgs: seq<Msg>, run: seq<Delivery>, i: nat, n: nat) {
    Possible(cfg, msgs, run) && Delivered(run, i) == n && SeenAfter(run) == {} && !Stopped(run, i)
  }

  lemma {:induction false} StaysPending(
      cfg: Config, msgs: seq<Msg>, before: seq<Delivery>, i: nat, n: nat, d: Delivery)
    requires Pending(cfg, msgs, before, i, n) && CanFollow(cfg, msgs, before, d) && d.msg == i
    requires Recorded(d.effects) == {} && !Stops(d)
    ensures Pending(cfg, msgs, before + [d], i, n + 1) && LastOf(before + [d], i) == d
  {
    OneMoreDelivery(cfg, msgs, before, d);
  }

  // Nothing is recorded by such deliveries, so each can follow the others.
  lemma {:induction false} RepeatedIsPending(
      cfg: Config, msgs: seq<Msg>, i: nat, luck: Luck, es: seq<Effect>, n: nat)
    requires i < |msgs| && (MaxDeliver(cfg) > 0 ==> n <= MaxDeliver(cfg))
    requires Settle(Ack) !in es && Settle(Term) !in es && Recorded(es) == {}
    requires forall j: nat :: 0 < j <= n ==> es == Effects(cfg, {}, msgs[i], j, luck)
    ensures var run := Repeated(i, luck, es, n);
            && Pending(cfg, msgs, run, i, n) && (n > 0 ==> LastOf(run, i) == Delivery(i, n, luck, es, false))
            && forall d <- run :: d.msg == i && d.luck == luck && d.effects == es
  {
    if n > 0 {
      RepeatedIsPending(cfg, msgs, i, luck, es, n - 1);
      StaysPending(cfg, msgs, Repeated(i, luck, es, n - 1), i, n - 1, Delivery(i, n, luck, es, false));
    }
  }

  // The effects of a delivery whose handler is too slow.
  lemma {:induction false} SlowEffects(cfg: Config, msg: Msg, n: nat)
    requires cfg.maxRetries > 0 && cfg.hasDlq && cfg.msgTimeout > 0 && msg.parses && n <= cfg.maxRetries + 1
    ensures Effects(cfg, {}, msg, n, SLOW) ==
            if n <= cfg.maxRetries then [HandlerErr(msg.id), Settle(Nak)] else LastSlow(msg.id)
  {}

  lemma {:induction false} SlowIsPending(cfg: Config, msgs: seq<Msg>, i: nat)
    requires cfg.maxRetries > 0 && cfg.hasDlq && cfg.msgTimeout > 0 && i < |msgs| && msgs[i].parses
    ensures var run := Repeated(i, SLOW, [HandlerErr(msgs[i].id), Settle(Nak)], cfg.maxRetries);
            && Pending(cfg, msgs, run, i, cfg.maxRetries)
            && forall d <- run :: d.luck == SLOW && Settle(Ack) !in d.effects
  {
    var es := [HandlerErr(msgs[i].id), Settle(Nak)];
    forall j: nat | 0 < j <= cfg.maxRetries ensures es == Effects(cfg, {}, msgs[i], j, SLOW) {
      SlowEffects(cfg, msgs[i], j);
    }
    RepeatedIsPending(cfg, msgs, i, SLOW, es, cfg.maxRetries);
  }

  lemma {:induction false} SlowIsPossible(cfg: Config, msgs: seq<Msg>, i: nat)
    requires cfg.maxRetries > 0 && cfg.hasDlq && cfg.msgTimeout > 0 && i < |msgs| && msgs[i].parses
    ensures var n, id := cfg.maxRetries + 1, msgs[i].id;
            var last := Delivery(i, n, SLOW, LastSlow(id), false);
            var run := Repeated(i, SLOW, [HandlerErr(id), Settle(Nak)], n - 1) + [last];
            && Possible(cfg, msgs, run) && Delivered(run, i) == n && LastOf(run, i) == last
            && forall d <- run :: d.luck == SLOW && Settle(Ack) !in d.effects
  {
    var n, id := cfg.maxRetries + 1, msgs[i].id;
    var es := [HandlerErr(id), Settle(Nak)];
    SlowIsPending(cfg, msgs, i);
    SlowEffects(cfg, msgs[i], n);
    OneMoreDelivery(cfg, msgs, Repeated(i, SLOW, es, n - 1), Delivery(i, n, SLOW, LastSlow(id), false));
  }
}
