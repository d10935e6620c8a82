// Which calls are audited, and by which of the two interceptors around authentication.
module AuditInterceptors {
  import opened CanonicalRecord
  import opened Optional

  datatype Code = OK | Unauthenticated | PermissionDenied | Unknown | Other(number: nat)

  type ErrorCode = c: Code | c != OK witness Unknown

  // What a call returns for an error: nothing, a gRPC status, or an error that is not one.
  datatype Failure = Nil | Status(code: ErrorCode, message: Text) | Plainly

  function CodeOf(e: Failure): Code {
    match e
    case Nil => OK
    case Status(code, _) => code
    case Plainly => Unknown
  }

  predicate IsDenyCode(c: Code) { c == Unauthenticated || c == PermissionDenied }

  datatype Claims = Claims(userId: Text, email: Text, team: Text, role: Text)

  datatype Bearer = NoToken(message: Text) | Token(token: Text)

  // What the token validator says. Its errors are gRPC statuses, or not.
  datatype Verdict = Accepted(claims: Option<Claims>) | Rejected(code: ErrorCode, message: Text) | BadToken

  type Identity = Option<Claims>

  // One RPC. A streaming one carries no request; the two times are read when a record is built.
  datatype Call = Call(
    method_: Text, request: Option<Text>, skipped: bool, bearer: Bearer, correlationId: Text,
    handler: Identity -> Failure, innerAt: Text, outerAt: Text)

  datatype Options = Options(
    source: Text, securityRelevant: Text -> bool, extractor: Option<(Text, Text) -> Text>, nameOf: Code -> Text)

  // How a server is wired: whether it has a validator, and which interceptors are installed.
  datatype Wiring = Wiring(validator: Option<Text -> Verdict>, outer: bool, inner: bool)

  const ANONYMOUS := Plain("anonymous")
  const INVALID_TOKEN := Plain("invalid token")
  const AUTH_SERVICE_ERROR := Plain("authentication service error")
  const NON_STATUS_ERROR := Plain("non-status error")

  datatype Decision = Allow | Deny | Error

  function DecisionFor(c: Code): Decision {
    match c
    case OK => Allow
    case Unauthenticated => Deny
    case PermissionDenied => Deny
    case Unknown => Error
    case Other(_) => Error
  }

  function Spelled(d: Decision): Text {
    match d
    case Allow => Plain("ALLOW")
    case Deny => Plain("DENY")
    case Error => Plain("ERROR")
  }

  function ActorFromContext(who: Identity): (a: Actor)
    ensures a.userId != []
  {
    match who
    case None => Actor(ANONYMOUS, [], [], [])
    case Some(c) => Actor(if c.userId == [] then ANONYMOUS else c.userId, c.email, c.team, c.role)
  }

  function SanitizeErr(o: Options, e: Failure): Text {
    match e
    case Nil => []
    case Status(code, message) => if message != [] then message else o.nameOf(code)
    case Plainly => NON_STATUS_ERROR
  }

  function ResourceOf(o: Options, call: Call): Text {
    if o.extractor.Some? && call.request.Some? then o.extractor.value(call.method_, call.request.value) else []
  }

  // The record of a call that ended in `e`, as seen by `who` at `at`.
  function RecordOf(o: Options, call: Call, who: Identity, e: Failure, at: Text): Record {
    Record(
      ActorFromContext(who), call.method_, ResourceOf(o, call), Spelled(DecisionFor(CodeOf(e))),
      o.nameOf(CodeOf(e)), SanitizeErr(o, e), call.correlationId, at, o.source)
  }

  // ---------------------------------------------------------------- the interceptors

  class Marker {
    var audited: bool

    constructor ()
      ensures !audited
    {
      audited := false;
    }
  }

  class Sink {
    var received: seq<Record>

    // A failure to publish is logged and goes no further.
    method Emit(r: Record)
      modifies this
      ensures received == old(received) + [r]
    {
      received := received + [r];
    }
  }

  // What is carried inward: the claims, and the marker if the outer interceptor put one there.
  datatype Context = Context(who: Identity, marker: Option<Marker>)

  ghost function MarkerOf(ctx: Context): set<object> { if ctx.marker.Some? then {ctx.marker.value} else {} }

  method BuildRecord(o: Options, ctx: Context, call: Call, e: Failure, at: Text) returns (r: Option<Record>)
    ensures r == if IsDenyCode(CodeOf(e)) || o.securityRelevant(call.method_)
                 then Some(RecordOf(o, call, ctx.who, e, at)) else None
  {
    var code := CodeOf(e);
    var decision := DecisionFor(code);
    if decision != Deny && !o.securityRelevant(call.method_) { return None; }
    var actor, err, resource := ActorFromContext(ctx.who), [], ResourceOf(o, call);
    if e != Nil { err := SanitizeErr(o, e); }
    r := Some(Record(
      actor, call.method_, resource, Spelled(decision), o.nameOf(code), err, call.correlationId, at, o.source));
  }

  method MarkAudited(ctx: Context)
    modifies MarkerOf(ctx)
    ensures ctx.marker.Some? ==> ctx.marker.value.audited
  {
    if ctx.marker.Some? { ctx.marker.value.audited := true; }
  }

  // The inner interceptor, around the handler.
  method Inner(w: Wiring, o: Options, ctx: Context, call: Call, sink: Sink) returns (e: Failure)
    modifies sink, MarkerOf(ctx)
    ensures e == call.handler(ctx.who)
    ensures var records := w.inner && (IsDenyCode(CodeOf(e)) || o.securityRelevant(call.method_));
            && sink.received == old(sink.received) +
                 (if records then [RecordOf(o, call, ctx.who, e, call.innerAt)] else [])
            && (ctx.marker.Some? ==> ctx.marker.value.audited == (records || old(ctx.marker.value.audited)))
  {
    e := call.handler(ctx.who);
    if !w.inner { return; }
    var r := BuildRecord(o, ctx, call, e, call.innerAt);
    if r.Some? {
      MarkAudited(ctx);
      sink.Emit(r.value);
    }
  }

  datatype Authenticated = Passed(who: Identity) | Refused(error: Failure)

  function Authenticate(validator: Text -> Verdict, call: Call): Authenticated {
    match call.bearer
    case NoToken(message) => Refused(Status(Unauthenticated, message))
    case Token(token) =>
      match validator(token)
      case Accepted(claims) => Passed(claims)
      case BadToken => Refused(Status(Unauthenticated, INVALID_TOKEN))
      case Rejected(code, message) => Refused(Status(code, if IsDenyCode(code) then message else AUTH_SERVICE_ERROR))
  }

  // Who a call is let through as, or why it is not.
  function Admission(w: Wiring, call: Call): Authenticated {
    if w.validator.None? || call.skipped then Passed(None) else Authenticate(w.validator.value, call)
  }

  method Auth(w: Wiring, o: Options, ctx: Context, call: Call, sink: Sink) returns (e: Failure)
    requires ctx.who == None
    modifies sink, MarkerOf(ctx)
    ensures match Admission(w, call)
            case Refused(error) => e == error && sink.received == old(sink.received) && unchanged(MarkerOf(ctx))
            case Passed(who) =>
              && e == call.handler(who)
              && var records := w.inner && (IsDenyCode(CodeOf(e)) || o.securityRelevant(call.method_));
              && sink.received == old(sink.received) +
                   (if records then [RecordOf(o, call, who, e, call.innerAt)] else [])
              && (ctx.marker.Some? ==> ctx.marker.value.audited == (records || old(ctx.marker.value.audited)))
  {
    if w.validator.None? || call.skipped {
      e := Inner(w, o, ctx, call, sink);
      return;
    }
    match Authenticate(w.validator.value, call)
    case Refused(error) => e := error;
    case Passed(who) => e := Inner(w, o, ctx.(who := who), call, sink);
  }

  // ------------------------------------------------------------- exactly once

  // What the caller gets: auth's refusal, or what the handler returned.
  function Final(w: Wiring, call: Call): Failure {
    match Admission(w, call)
    case Refused(error) => error
    case Passed(who) => call.handler(who)
  }

  // What a call leaves in the audit trail.
  function Trail(w: Wiring, o: Options, call: Call): seq<Record> {
    var admission, e := Admission(w, call), Final(w, call);
    var denied := IsDenyCode(CodeOf(e));
    if w.inner && admission.Passed? && (denied || o.securityRelevant(call.method_))
      then [RecordOf(o, call, admission.who, e, call.innerAt)]
    else if w.outer && denied then [RecordOf(o, call, None, e, call.outerAt)]
    else []
  }

  // The outer interceptor, around all the rest.
  method Serve(w: Wiring, o: Options, call: Call, sink: Sink) returns (e: Failure)
    modifies sink
    ensures e == Final(w, call)
    ensures sink.received == old(sink.received) + Trail(w, o, call)
  {
    if !w.outer {
      e := Auth(w, o, Context(None, None), call, sink);
      return;
    }
    var flag := new Marker();
    var marked := Context(None, Some(flag));
    e := Auth(w, o, marked, call, sink);
    if IsDenyCode(CodeOf(e)) && !flag.audited {
      var r := BuildRecord(o, marked, call, e, call.outerAt);
      if r.Some? { sink.Emit(r.value); }
    }
  }

  // The calls worth auditing: every denial, and what the predicate picks of the calls let through.
  predicate Notable(w: Wiring, o: Options, call: Call) {
    || IsDenyCode(CodeOf(Final(w, call)))
    || (Admission(w, call).Passed? && o.securityRelevant(call.method_))
  }

  predicate RecordedOnce(w: Wiring, o: Options, call: Call) {
    |Trail(w, o, call)| == if Notable(w, o, call) then 1 else 0
  }

  // Every call is recorded exactly as often as it should be, just when the inner interceptor is
  // installed and the outer one is wherever there is authentication to wrap.
  lemma RecordedOnceExactly(w: Wiring, o: Options, m: Text)
    requires o.securityRelevant(m)
    ensures (forall call :: RecordedOnce(w, o, call)) <==> w.inner && (w.outer || w.validator.None?)
  {
    var succeeds := Call(m, None, true, NoToken([]), [], who => Nil, [], []);
    var refused := Call(m, None, false, NoToken([]), [], who => Nil, [], []);
    if !w.inner {
      assert !RecordedOnce(w, o, succeeds);
    } else if !w.outer && w.validator.Some? {
      assert !RecordedOnce(w, o, refused);
    }
  }

  // Who a call is let through as, if it is.
  function IdentityOf(w: Wiring, call: Call): Identity {
    match Admission(w, call)
    case Passed(who) => who
    case Refused(_) => None
  }

  // A call's record names who it was let through as, just when the inner interceptor is installed or
  // that is nobody anyway: the outer one alone calls even an authenticated caller anonymous.
  lemma AttributionExactly(w: Wiring, o: Options, call: Call)
    requires Trail(w, o, call) != []
    ensures Trail(w, o, call)[0].actor == ActorFromContext(IdentityOf(w, call))
       <==> w.inner || ActorFromContext(IdentityOf(w, call)) == ActorFromContext(None)
  {}

  // What the text spells, character by character.
  predicate Says(t: Text, s: string) { |t| == |s| && forall i :: 0 <= i < |s| ==> t[i] == Rune(s[i]) }

  // What the record of a call states: its decision by the code that the caller gets, the method called, that code's
  // name, and an error text just when there was an error.
  predicate Attests(o: Options, call: Call, e: Failure, r: Record) {
    && (Says(r.decision, "ALLOW") <==> e.Nil?)
    && (Says(r.decision, "DENY") <==> e.Status? && (e.code == Unauthenticated || e.code == PermissionDenied))
    && (Says(r.decision, "ERROR") <==>
         e.Plainly? || (e.Status? && e.code != Unauthenticated && e.code != PermissionDenied))
    && r.action == call.method_ && r.correlationId == call.correlationId && r.sourceService == o.source
    && r.grpcCode == o.nameOf(if e.Nil? then OK else if e.Status? then e.code else Unknown)
    && (r.err == [] <==> e.Nil?) && (e.Status? && e.message != [] ==> r.err == e.message)
    && (e.Plainly? ==> Says(r.err, "non-status error"))
    && (o.extractor.None? || call.request.None? ==> r.resource == [])
    && (o.extractor.Some? && call.request.Some? ==>
         r.resource == o.extractor.value(call.method_, call.request.value))
  }

  // Every record that a call leaves attests to how the call ended, at the time at which the interceptor that built it
  // read the clock.
  lemma TrailAttests(w: Wiring, o: Options, call: Call)
    requires forall c :: o.nameOf(c) != []
    ensures forall r <- Trail(w, o, call) ::
              && Attests(o, call, Final(w, call), r)
              && r.occurredAt == if w.inner && Admission(w, call).Passed? then call.innerAt else call.outerAt
  {
    var e, admission := Final(w, call), Admission(w, call);
    if admission.Passed? { RecordAttests(o, call, admission.who, e, call.innerAt); }
    RecordAttests(o, call, None, e, call.outerAt);
  }

  lemma RecordAttests(o: Options, call: Call, who: Identity, e: Failure, at: Text)
    requires forall c :: o.nameOf(c) != []
    ensures Attests(o, call, e, RecordOf(o, call, who, e, at))
  {
    SpelledSays(DecisionFor(CodeOf(e)));
    PlainSays("non-status error");
  }

  lemma SpelledSays(d: Decision)
    ensures Says(Spelled(d), "ALLOW") <==> d.Allow?
    ensures Says(Spelled(d), "DENY") <==> d.Deny?
    ensures Says(Spelled(d), "ERROR") <==> d.Error?
  {
    PlainSays("ALLOW");
    PlainSays("DENY");
    PlainSays("ERROR");
    assert "ALLOW"[0] == 'A' && "ERROR"[0] == 'E' && |"DENY"| == 4;
  }

  lemma PlainSays(s: string)
    ensures Says(Plain(s), s)
  {
    PlainIs(s, |s|);
  }

  // Who gets through authentication, and as whom: everyone as nobody where there is none or the method is skipped;
  // otherwise whoever's token the validator accepts, with the claims it gave.
  lemma AdmittedExactly(w: Wiring, call: Call)
    ensures w.validator.None? || call.skipped ==> Admission(w, call) == Passed(None)
    ensures w.validator.Some? && !call.skipped ==>
              var t := call.bearer;
              && (Admission(w, call).Passed? <==> t.Token? && w.validator.value(t.token).Accepted?)
              && (Admission(w, call).Passed? ==> Admission(w, call).who == w.validator.value(t.token).claims)
  {}

  // A refusal is UNAUTHENTICATED without a token or with a bad one; a status the validator gives keeps its code, and
  // its message only where the code is a denial.
  lemma RefusalSays(w: Wiring, call: Call)
    requires Admission(w, call).Refused?
    ensures Final(w, call).Status?
    ensures var e, t := Final(w, call), call.bearer;
            if t.NoToken? then e == Status(Unauthenticated, t.message)
            else
              var v := w.validator.value(t.token);
              if v.BadToken? then e.code == Unauthenticated && Says(e.message, "invalid token")
              else
                && v.Rejected? && e.code == v.code
                && (if v.code == Unauthenticated || v.code == PermissionDenied then e.message == v.message
                    else Says(e.message, "authentication service error"))
  {
    PlainSays("invalid token");
    PlainSays("authentication service error");
  }

  // An authenticated caller's own record carries the claims; an empty user id, or no claims, reads anonymous.
  lemma ActorSays(who: Identity)
    ensures var a := ActorFromContext(who);
            match who
            case None => Says(a.userId, "anonymous") && a.email == a.team == a.role == []
            case Some(c) =>
              && (if c.userId == [] then Says(a.userId, "anonymous") else a.userId == c.userId)
              && a.email == c.email && a.team == c.team && a.role == c.role
  {
    PlainSays("anonymous");
  }

  // ---------------------------------------------------- calls in flight together

  datatype Progress =
    | Entered
    | Handled(who: Identity, e: Failure)
    | Flagged(who: Identity, e: Failure)
    | Returned(e: Failure, flag: bool)
    | Finished(e: Failure)

  datatype Entry = Entry(call: nat, record: Record)

  datatype World = World(progress: seq<Progress>, trail: seq<Entry>)

  // One step of one call: its next stage, and what it hands the sink.
  function Advanced(w: Wiring, o: Options, call: Call, p: Progress): (Progress, seq<Record>) {
    match p
    case Entered =>
      (match Admission(w, call)
       case Refused(e) => (Returned(e, false), [])
       case Passed(who) => (Handled(who, call.handler(who)), []))
    case Handled(who, e) =>
      if w.inner && (IsDenyCode(CodeOf(e)) || o.securityRelevant(call.method_)) then (Flagged(who, e), [])
      else (Returned(e, false), [])
    case Flagged(who, e) => (Returned(e, true), [RecordOf(o, call, who, e, call.innerAt)])
    case Returned(e, flag) =>
      var denied := w.outer && IsDenyCode(CodeOf(e)) && !flag;
      (Finished(e), if denied then [RecordOf(o, call, None, e, call.outerAt)] else [])
    case Finished(e) => (p, [])
  }

  function Tagged(i: nat, rs: seq<Record>): seq<Entry> { seq(|rs|, k requires 0 <= k < |rs| => Entry(i, rs[k])) }

  function Stepped(w: Wiring, o: Options, calls: seq<Call>, s: World, i: nat): World
    requires |s.progress| == |calls|
  {
    if i >= |calls| then s
    else
      var (p, rs) := Advanced(w, o, calls[i], s.progress[i]);
      World(s.progress[i := p], s.trail + Tagged(i, rs))
  }

  function AllEntered(n: nat): World { World(seq(n, i requires 0 <= i < n => Entered), []) }

  // The world after the calls have taken turns as the schedule says.
  function Scheduled(w: Wiring, o: Options, calls: seq<Call>, schedule: seq<nat>): (s: World)
    ensures |s.progress| == |calls|
  {
    if schedule == [] then AllEntered(|calls|)
    else Stepped(w, o, calls, Scheduled(w, o, calls, schedule[..|schedule| - 1]), schedule[|schedule| - 1])
  }

  // The records of one call, in order.
  function Of(trail: seq<Entry>, i: nat): seq<Record> {
    if trail == [] then []
    else
      var before, last := Of(trail[..|trail| - 1], i), trail[|trail| - 1];
      if last.call == i then before + [last.record] else before
  }

  // How far a call has got decides what it has left so far.
  predicate LeftSoFar(w: Wiring, o: Options, call: Call, p: Progress, left: seq<Record>) {
    match p
    case Entered => left == []
    case Handled(who, e) => left == [] && Admission(w, call) == Passed(who) && e == call.handler(who)
    case Flagged(who, e) =>
      && left == [] && Admission(w, call) == Passed(who) && e == call.handler(who)
      && w.inner && (IsDenyCode(CodeOf(e)) || o.securityRelevant(call.method_))
    case Returned(e, flag) =>
      && e == Final(w, call) && flag == (left != [])
      && (if flag then w.inner && left == Trail(w, o, call)
          else !(w.inner && Admission(w, call).Passed? && (IsDenyCode(CodeOf(e)) || o.securityRelevant(call.method_))))
    case Finished(e) => e == Final(w, call) && left == Trail(w, o, call)
  }

  lemma AdvancedLeaves(w: Wiring, o: Options, call: Call, p: Progress, left: seq<Record>)
    requires LeftSoFar(w, o, call, p, left)
    ensures var (p', rs) := Advanced(w, o, call, p); |rs| <= 1 && LeftSoFar(w, o, call, p', left + rs)
  {
    var (p', rs) := Advanced(w, o, call, p);
    assert rs == [] ==> left + rs == left;
    assert left == [] ==> left + rs == rs;
  }

  lemma OfTagged(trail: seq<Entry>, rs: seq<Record>, i: nat, j: nat)
    requires |rs| <= 1
    ensures Of(trail + Tagged(j, rs), i) == if i == j then Of(trail, i) + rs else Of(trail, i)
  {
    if rs == [] {
      assert trail + Tagged(j, rs) == trail;
      assert Of(trail, i) + rs == Of(trail, i);
    } else {
      assert trail + Tagged(j, rs) == trail + [Entry(j, rs[0])];
      assert (trail + [Entry(j, rs[0])])[..|trail|] == trail;
    }
  }

  lemma {:induction false} InterleavedCalls(w: Wiring, o: Options, calls: seq<Call>, schedule: seq<nat>, i: nat)
    requires i < |calls|
    ensures var s := Scheduled(w, o, calls, schedule); LeftSoFar(w, o, calls[i], s.progress[i], Of(s.trail, i))
  {
    if schedule != [] {
      var j := schedule[|schedule| - 1];
      var s := Scheduled(w, o, calls, schedule[..|schedule| - 1]);
      InterleavedCalls(w, o, calls, schedule[..|schedule| - 1], i);
      if j < |calls| {
        var (p, rs) := Advanced(w, o, calls[j], s.progress[j]);
        InterleavedCalls(w, o, calls, schedule[..|schedule| - 1], j);
        AdvancedLeaves(w, o, calls[j], s.progress[j], Of(s.trail, j));
        OfTagged(s.trail, rs, i, j);
      }
    }
  }

  // However calls interleave, a finished one has left its own trail, and the sink holds nothing else of it.
  lemma FinishedCallsLeaveTheirTrail(w: Wiring, o: Options, calls: seq<Call>, schedule: seq<nat>, i: nat)
    requires i < |calls| && Scheduled(w, o, calls, schedule).progress[i].Finished?
    ensures var s := Scheduled(w, o, calls, schedule);
            s.progress[i].e == Final(w, calls[i]) && Of(s.trail, i) == Trail(w, o, calls[i])
  {
    InterleavedCalls(w, o, calls, schedule, i);
  }
}
