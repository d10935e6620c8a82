// The execution-watch hook: snapshots streamed into the component's state, and the retry loop around it.
module ExecutionWatch {
  import opened Optional
  import opened SseReader

  datatype Execution = Execution(status: string, body: string)

  predicate Terminal(e: Execution) {
    e.status in ["EXECUTION_STATUS_COMPLETED", "EXECUTION_STATUS_FAILED", "EXECUTION_STATUS_CANCELLED"]
  }

  datatype Frame = Frame(execution: Option<Execution>, changedStep: string)

  // JSON.parse of a record's data; a null is skipped like a malformed frame.
  datatype Json = Malformed | Parsed(frame: Frame)

  // JSON.parse, what String.trim removes, and the message for a refused status.
  datatype Env = Env(parse: string -> Json, space: char -> bool, refused: int -> string)

  datatype Conn = Connecting | Open | Reconnecting | Closed | Failed

  datatype View = View(execution: Option<Execution>, lastChanged: string, conn: Conn, error: Option<string>)

  datatype Ending = Eof | Dropped

  datatype Response =
    | NetworkError
    | Answer(status: int, hasBody: bool, chunks: seq<string>, ending: Ending)

  const SERVER_ERROR := "Stream error from server"
  const SESSION_EXPIRED := "Session expired"
  const GAVE_UP := "Stream disconnected after multiple reconnect attempts"

  function Fails(v: View, message: string): View { v.(conn := Failed, error := Some(message)) }

  function Framed(v: View, f: Frame): (View, Signal) {
    var v' := if f.execution.Some? then v.(execution := f.execution) else v;
    if f.execution.Some? && Terminal(f.execution.value) then (v'.(conn := Closed), Stop)
    else (if f.changedStep != "" then v'.(lastChanged := f.changedStep) else v', Go)
  }

  function Reacts(env: Env, v: View, event: string, data: string): (View, Signal) {
    if event == "end" then (v.(conn := Closed), Stop)
    else if event == "error" then (Fails(v, SERVER_ERROR), Stop)
    else
      match env.parse(data)
      case Malformed => (v, Go)
      case Parsed(f) => Framed(v, f)
  }

  function Reaction(env: Env): SseReader.Reaction<View> { (v, event, data) => Reacts(env, v, event, data) }

  function RecordHandler(env: Env): Handler<View> { HandlerOf(env.space, Reaction(env)) }

  // What reading a body shows, and whether it ended for good.
  function ReadOut(env: Env, v: View, chunks: seq<string>, ending: Ending): (View, bool) {
    var l := FeedAll(RecordHandler(env), Loop(v, "", Go), chunks);
    if l.signal != Go then (l.state, true)
    else if ending == Dropped then (l.state, false)
    else (l.state.(conn := Reconnecting), false)
  }

  function Opened(env: Env, v: View, r: Response): (View, bool) {
    match r
    case NetworkError => (v, false)
    case Answer(status, hasBody, chunks, ending) =>
      if status == 401 then (Fails(v, SESSION_EXPIRED), true)
      else if !(200 <= status < 300) || !hasBody then
        (if 400 <= status < 500 then (Fails(v, env.refused(status)), true) else (v, false))
      else ReadOut(env, v.(conn := Open), chunks, ending)
  }

  // The state after a transient end: a snapshot fetched anew, if there is one, then another attempt.
  function Reseeded(v: View, reseed: Option<Execution>): View {
    match reseed
    case None => v.(conn := Connecting)
    case Some(e) => v.(execution := Some(e), conn := Connecting)
  }

  const BACKOFF_MS: seq<int> := [1_000, 2_000, 4_000, 8_000, 15_000]

  const MAX_ATTEMPTS := 5

  // The surroundings of a watch: how each attempt to open the stream goes, and each snapshot fetched.
  datatype World = World(opens: nat -> Response, reseeds: nat -> Option<Execution>)

  function Watched(env: Env, w: World, v: View, attempt: nat): (View, nat)
    requires attempt < MAX_ATTEMPTS
    decreases MAX_ATTEMPTS - attempt
  {
    var (v', done) := Opened(env, v, w.opens(attempt));
    if done then (v', attempt + 1)
    else if attempt + 1 >= MAX_ATTEMPTS then (Fails(v', GAVE_UP), attempt + 1)
    else Watched(env, w, Reseeded(v', w.reseeds(attempt)), attempt + 1)
  }

  class Watch {
    const env: Env
    var execution: Option<Execution>
    var lastChanged: string
    var conn: Conn
    var error: Option<string>
    var delays: seq<int>

    constructor (env: Env)
      ensures this.env == env && Shown() == View(None, "", Connecting, None) && delays == []
    {
      this.env := env;
      execution, lastChanged, conn, error, delays := None, "", Connecting, None, [];
    }

    ghost function Shown(): View
      reads this
    {
      View(execution, lastChanged, conn, error)
    }

    method Fail(message: string)
      modifies this`conn, this`error
      ensures Shown() == Fails(old(Shown()), message)
    {
      conn, error := Failed, Some(message);
    }

    method OnFrame(frame: Frame) returns (signal: Signal)
      modifies this`execution, this`lastChanged, this`conn
      ensures (Shown(), signal) == Framed(old(Shown()), frame)
    {
      if frame.execution.Some? {
        execution := frame.execution;
        if Terminal(frame.execution.value) {
          conn := Closed;
          return Stop;
        }
      }
      if frame.changedStep != "" { lastChanged := frame.changedStep; }
      signal := Go;
    }

    method HandleRecord(record: string) returns (signal: Signal)
      modifies this`execution, this`lastChanged, this`conn, this`error
      ensures (Shown(), signal) == RecordHandler(env)(old(Shown()), record)
    {
      var event, data := ParseRecord(env.space, record);
      if |data| == 0 { return Go; }
      if event == "end" {
        conn := Closed;
        return Stop;
      }
      if event == "error" {
        Fail(SERVER_ERROR);
        return Stop;
      }
      match env.parse(Joined(data))
      case Malformed => signal := Go;
      case Parsed(frame) => signal := OnFrame(frame);
    }

    // The records a chunk completes.
    method Records(chunk: string, buffer: string) returns (rest: string, signal: Signal)
      modifies this`execution, this`lastChanged, this`conn, this`error
      ensures Loop(Shown(), rest, signal) == Feed(RecordHandler(env), Loop(old(Shown()), buffer, Go), chunk)
    {
      rest, signal := buffer + chunk, Go;
      var sep := IndexOfDelimiter(rest);
      while sep != -1
        invariant sep == IndexOfDelimiter(rest) && signal == Go
        invariant Drain(RecordHandler(env), Shown(), rest) == Drain(RecordHandler(env), old(Shown()), buffer + chunk)
        decreases |rest|
      {
        var record := rest[..sep];
        rest := rest[sep + 2..];
        signal := HandleRecord(record);
        if signal != Go { return; }
        sep := IndexOfDelimiter(rest);
      }
    }

    method Read(chunks: seq<string>, ending: Ending) returns (done: bool)
      modifies this`execution, this`lastChanged, this`conn, this`error
      ensures (Shown(), done) == ReadOut(env, old(Shown()), chunks, ending)
    {
      var buffer, signal := "", Go;
      for i := 0 to |chunks|
        invariant signal == Go
        invariant FeedAll(RecordHandler(env), Loop(Shown(), buffer, Go), chunks[i..])
               == FeedAll(RecordHandler(env), Loop(old(Shown()), "", Go), chunks)
      {
        assert chunks[i..][0] == chunks[i] && chunks[i..][1..] == chunks[i + 1..];
        buffer, signal := Records(chunks[i], buffer);
        if signal != Go {
          StoppedStays(RecordHandler(env), Loop(Shown(), buffer, signal), chunks[i + 1..]);
          return true;
        }
      }
      if ending == Dropped { return false; }
      conn := Reconnecting;
      done := false;
    }

    method OpenStream(r: Response) returns (done: bool)
      modifies this`execution, this`lastChanged, this`conn, this`error
      ensures (Shown(), done) == Opened(env, old(Shown()), r)
    {
      match r
      case NetworkError => done := false;
      case Answer(status, hasBody, chunks, ending) =>
        if status == 401 {
          Fail(SESSION_EXPIRED);
          return true;
        }
        if !(200 <= status < 300) || !hasBody {
          if 400 <= status < 500 {
            Fail(env.refused(status));
            return true;
          }
          return false;
        }
        conn := Open;
        done := Read(chunks, ending);
    }

    method Reseed(result: Option<Execution>)
      modifies this`execution, this`conn
      ensures execution == if result.Some? then result else old(execution)
      ensures conn == if result.Some? && Terminal(result.value) then Closed else old(conn)
    {
      if result.Some? {
        execution := result;
        if Terminal(result.value) { conn := Closed; }
      }
    }

    method RunWithRetry(w: World) returns (calls: nat)
      modifies this
      ensures (Shown(), calls) == Watched(env, w, old(Shown()), 0)
      ensures 1 <= calls <= MAX_ATTEMPTS && delays == old(delays) + BACKOFF_MS[..calls - 1]
    {
      calls := 0;
      var attempt := 0;
      while true
        invariant calls == attempt < MAX_ATTEMPTS
        invariant Watched(env, w, Shown(), attempt) == Watched(env, w, old(Shown()), 0)
        invariant delays == old(delays) + BACKOFF_MS[..attempt]
        decreases MAX_ATTEMPTS - attempt
      {
        calls := calls + 1;
        var isDone := OpenStream(w.opens(attempt));
        if isDone { return; }
        attempt := attempt + 1;
        if attempt >= MAX_ATTEMPTS {
          Fail(GAVE_UP);
          return;
        }
        conn := Reconnecting;
        Reseed(w.reseeds(attempt - 1));
        var k := if attempt - 1 < |BACKOFF_MS| - 1 then attempt - 1 else |BACKOFF_MS| - 1;
        delays := delays + [BACKOFF_MS[k]];
        assert BACKOFF_MS[..k] + [BACKOFF_MS[k]] == BACKOFF_MS[..k + 1];
        conn := Connecting;
      }
    }
  }

  // ------------------------------------------------------------------ properties

  // What is read depends on the text, not on how it is cut into chunks.
  lemma SameTextSameReadOut(env: Env, v: View, chunks: seq<string>, chunks': seq<string>, ending: Ending)
    requires Concat(chunks) == Concat(chunks')
    ensures ReadOut(env, v, chunks, ending) == ReadOut(env, v, chunks', ending)
  {
    ChunkingDoesNotMatter(RecordHandler(env), v, "", chunks);
    ChunkingDoesNotMatter(RecordHandler(env), v, "", chunks');
  }

  // So an attempt shows the same and is final or transient alike.
  lemma SameTextSameAttempt(env: Env, v: View, r: Response, chunks: seq<string>)
    requires r.Answer? && Concat(chunks) == Concat(r.chunks)
    ensures Opened(env, v, r.(chunks := chunks)) == Opened(env, v, r)
  {
    SameTextSameReadOut(env, v.(conn := Open), chunks, r.chunks, r.ending);
  }

  // An attempt that is not worth repeating, whatever is on show.
  predicate Lasting(env: Env, r: Response) {
    match r
    case NetworkError => false
    case Answer(status, hasBody, chunks, ending) =>
      if !(200 <= status < 300) || !hasBody then 400 <= status < 500
      else FeedAll(RecordHandler(env), Loop(View(None, "", Open, None), "", Go), chunks).signal != Go
  }

  lemma LastingIsDone(env: Env, v: View, r: Response)
    ensures Opened(env, v, r).1 <==> Lasting(env, r)
  {
    if r.Answer? && 200 <= r.status < 300 && r.hasBody {
      var here, blank := Loop(v.(conn := Open), "", Go), Loop(View(None, "", Open, None), "", Go);
      SignalIgnoresState(RecordHandler(env), here, blank, r.chunks);
    }
  }

  // The stream is opened until an attempt lasts, five times at most; a stream that worked for a while
  // before it broke counts as much as one that never opened.
  lemma {:induction false} OpenedUntilLasting(env: Env, w: World, v: View, attempt: nat)
    requires attempt < MAX_ATTEMPTS
    ensures var (v', calls) := Watched(env, w, v, attempt);
            && attempt < calls <= MAX_ATTEMPTS
            && (forall i :: attempt <= i < calls - 1 ==> !Lasting(env, w.opens(i)))
            && (Lasting(env, w.opens(calls - 1)) || (calls == MAX_ATTEMPTS && v'.conn == Failed
                && v'.error == Some(GAVE_UP)))
    decreases MAX_ATTEMPTS - attempt
  {
    LastingIsDone(env, v, w.opens(attempt));
    var (v', done) := Opened(env, v, w.opens(attempt));
    if !done && attempt + 1 < MAX_ATTEMPTS {
      OpenedUntilLasting(env, w, Reseeded(v', w.reseeds(attempt)), attempt + 1);
    }
  }

  // The longest backoff is never waited for: there are four gaps between five attempts.
  lemma LongestBackoffIsUnused(env: Env, w: World, v: View)
    ensures BACKOFF_MS[4] !in BACKOFF_MS[..Watched(env, w, v, 0).1 - 1]
  {
    OpenedUntilLasting(env, w, v, 0);
  }

  // The delays waited double from one second.
  lemma DelaysDouble(env: Env, w: World, v: View)
    ensures var delays := BACKOFF_MS[..Watched(env, w, v, 0).1 - 1];
            forall i :: 0 <= i < |delays| ==> delays[i] == if i == 0 then 1_000 else 2 * delays[i - 1]
  {
    OpenedUntilLasting(env, w, v, 0);
  }

  // ------------------------------------------------------------ snapshots, end to end

  // The relay writes each frame as an unnamed event, then one that ends the stream.
  function Relayed(json: Frame -> string, frames: seq<Frame>): seq<Item> {
    if frames == [] then [Event("end", "{\"reason\":\"complete\"}")]
    else [Event("", json(frames[0]))] + Relayed(json, frames[1..])
  }

  // The frames up to the first that shows a terminal execution.
  function Effective(frames: seq<Frame>): seq<Frame> {
    if frames == [] then []
    else if frames[0].execution.Some? && Terminal(frames[0].execution.value) then [frames[0]]
    else [frames[0]] + Effective(frames[1..])
  }

  function LastExecution(shown: Option<Execution>, frames: seq<Frame>): Option<Execution> {
    if frames == [] then shown
    else if frames[|frames| - 1].execution.Some? then frames[|frames| - 1].execution
    else LastExecution(shown, frames[..|frames| - 1])
  }

  // The frames before the first that shows a terminal execution: a terminal frame's step is not shown.
  function Running(frames: seq<Frame>): seq<Frame> {
    if frames == [] || (frames[0].execution.Some? && Terminal(frames[0].execution.value)) then []
    else [frames[0]] + Running(frames[1..])
  }

  function LastStep(shown: string, frames: seq<Frame>): string {
    if frames == [] then shown
    else if frames[|frames| - 1].changedStep != "" then frames[|frames| - 1].changedStep
    else LastStep(shown, frames[..|frames| - 1])
  }

  lemma {:induction false} LastStepFromFirst(shown: string, f: Frame, frames: seq<Frame>)
    ensures LastStep(shown, [f] + frames) == LastStep(if f.changedStep != "" then f.changedStep else shown, frames)
    decreases |frames|
  {
    var all := [f] + frames;
    if frames == [] {
      assert all[..0] == [];
      assert LastStep(shown, all[..0]) == shown;
    } else {
      assert all[..|all| - 1] == [f] + frames[..|frames| - 1];
      LastStepFromFirst(shown, f, frames[..|frames| - 1]);
    }
  }

  lemma {:induction false} LastExecutionFromFirst(shown: Option<Execution>, f: Frame, frames: seq<Frame>)
    ensures LastExecution(shown, [f] + frames)
         == LastExecution(if f.execution.Some? then f.execution else shown, frames)
    decreases |frames|
  {
    var all := [f] + frames;
    if frames == [] {
      assert all[..0] == [];
      assert LastExecution(shown, all[..0]) == shown;
    } else {
      assert all[..|all| - 1] == [f] + frames[..|frames| - 1];
      LastExecutionFromFirst(shown, f, frames[..|frames| - 1]);
    }
  }

  lemma FrameReacts(env: Env, v: View, f: Frame, data: string, rest: seq<Item>)
    requires env.parse(data) == Parsed(f)
    ensures var (v', signal) := Framed(v, f);
            React(Reaction(env), v, [Event("", data)] + rest)
            == if signal == Go then React(Reaction(env), v', rest) else (v', signal)
  {
    assert ([Event("", data)] + rest)[1..] == rest;
  }

  lemma {:induction false} RelayedReacts(env: Env, json: Frame -> string, v: View, frames: seq<Frame>)
    requires forall f :: env.parse(json(f)) == Parsed(f)
    ensures var (v', signal) := React(Reaction(env), v, Relayed(json, frames));
            && signal == Stop && v'.conn == Closed && v'.error == v.error
            && v'.execution == LastExecution(v.execution, Effective(frames))
            && v'.lastChanged == LastStep(v.lastChanged, Running(frames))
    decreases frames
  {
    if frames != [] {
      var f := frames[0];
      FrameReacts(env, v, f, json(f), Relayed(json, frames[1..]));
      LastExecutionFromFirst(v.execution, f, []);
      assert [f] + [] == [f];
      if !(f.execution.Some? && Terminal(f.execution.value)) {
        LastStepFromFirst(v.lastChanged, f, Running(frames[1..]));
        RelayedReacts(env, json, Framed(v, f).0, frames[1..]);
        LastExecutionFromFirst(v.execution, f, Effective(frames[1..]));
      }
    }
  }

  lemma StreamIsRelayed(
      env: Env, json: Frame -> string, v: View, frames: seq<Frame>, items: seq<Item>, chunks: seq<string>,
      ending: Ending)
    requires (forall f :: env.parse(json(f)) == Parsed(f)) && env.space(' ')
    requires Unpinged(items) == Relayed(json, frames) && forall item :: item in items ==> Writable(env.space, item)
    requires Concat(chunks) == Written(items)
    ensures var (v', done) := ReadOut(env, v, chunks, ending);
            && done && v'.conn == Closed && v'.error == v.error
            && v'.execution == LastExecution(v.execution, Effective(frames))
            && v'.lastChanged == LastStep(v.lastChanged, Running(frames))
  {
    assert Written(items) + "" == Written(items);
    StreamDelivers(env.space, Reaction(env), v, items, "", chunks);
    PingsAreInvisible(Reaction(env), v, items);
    RelayedReacts(env, json, v, frames);
  }

  // A watch whose stream is relayed whole shows the last snapshot up to the first terminal one, closed,
  // after a single call, however the bytes are cut up.
  lemma RelayedWatch(
      env: Env, json: Frame -> string, v: View, frames: seq<Frame>, items: seq<Item>, chunks: seq<string>,
      w: World, status: int, ending: Ending)
    requires (forall f :: env.parse(json(f)) == Parsed(f)) && env.space(' ')
    requires Unpinged(items) == Relayed(json, frames) && forall item :: item in items ==> Writable(env.space, item)
    requires Concat(chunks) == Written(items)
    requires 200 <= status < 300 && w.opens(0) == Answer(status, true, chunks, ending)
    ensures var (v', calls) := Watched(env, w, v, 0);
            && calls == 1 && v'.conn == Closed && v'.error == v.error
            && v'.execution == LastExecution(v.execution, Effective(frames))
            && v'.lastChanged == LastStep(v.lastChanged, Running(frames))
  {
    StreamIsRelayed(env, json, v.(conn := Open), frames, items, chunks, ending);
  }

  // ------------------------------------------------------------ what ends a watch

  // A frame ends it exactly when it shows an execution that is completed, failed or cancelled.
  lemma FrameEndsExactly(v: View, f: Frame)
    ensures Framed(v, f).1.Stop? <==>
            f.execution.Some? &&
            (f.execution.value.status == "EXECUTION_STATUS_COMPLETED"
             || f.execution.value.status == "EXECUTION_STATUS_FAILED"
             || f.execution.value.status == "EXECUTION_STATUS_CANCELLED")
    ensures Framed(v, f).1.Stop? ==> Framed(v, f).0.conn == Closed
  {}

  // A server's error event ends it for good, with what was shown still on show; data that is no JSON is skipped.
  lemma ErrorEnds(env: Env, v: View, items: seq<Item>, data: string, rest: seq<Item>)
    requires React(Reaction(env), v, items).1.Go?
    ensures var shown := React(Reaction(env), v, items).0;
            React(Reaction(env), v, items + ([Event("error", data)] + rest))
            == (shown.(conn := Failed, error := Some("Stream error from server")), Stop)
  {
    var shown := React(Reaction(env), v, items).0;
    ReactAppend(Reaction(env), v, items, [Event("error", data)] + rest);
    ReactAppend(Reaction(env), shown, [Event("error", data)], rest);
    ReactOne(Reaction(env), shown, Event("error", data));
  }

  lemma MalformedIsSkipped(env: Env, v: View, a: seq<Item>, data: string, b: seq<Item>)
    requires env.parse(data).Malformed?
    ensures React(Reaction(env), v, a + ([Event("", data)] + b)) == React(Reaction(env), v, a + b)
  {
    var v' := React(Reaction(env), v, a).0;
    ReactAppend(Reaction(env), v, a, [Event("", data)] + b);
    ReactAppend(Reaction(env), v, a, b);
    ReactAppend(Reaction(env), v', [Event("", data)], b);
    ReactOne(Reaction(env), v', Event("", data));
  }

  // An attempt that gets no stream is final if the session has ended or the request is at fault, and otherwise worth
  // another one, with nothing changed.
  lemma AttemptsWithoutStream(env: Env, v: View, r: Response)
    requires r.NetworkError? || r.status < 200 || r.status >= 300 || !r.hasBody
    ensures Opened(env, v, r) ==
            if r.Answer? && r.status == 401 then (v.(conn := Failed, error := Some("Session expired")), true)
            else if r.Answer? && 400 <= r.status < 500 then
              (v.(conn := Failed, error := Some(env.refused(r.status))), true)
            else (v, false)
  {}

  // A stream that breaks off or ends early is worth another attempt, and shows what it brought.
  lemma BrokenStreamIsRetried(env: Env, v: View, items: seq<Item>, partial: string, chunks: seq<string>, r: Response)
    requires env.space(' ') && (forall item :: item in items ==> Writable(env.space, item))
    requires IndexOfDelimiter(partial) < 0 && Concat(chunks) == Written(items) + partial
    requires r.Answer? && 200 <= r.status < 300 && r.hasBody && r.chunks == chunks
    requires React(Reaction(env), v.(conn := Open), items).1.Go?
    ensures var shown := React(Reaction(env), v.(conn := Open), items).0;
            Opened(env, v, r) == (if r.ending.Dropped? then shown else shown.(conn := Reconnecting), false)
  {
    StreamDelivers(env.space, Reaction(env), v.(conn := Open), items, partial, chunks);
  }

  // The last snapshot fetched, if any was.
  function LastFetched(shown: Option<Execution>, reseeds: nat -> Option<Execution>, n: nat): Option<Execution> {
    if n == 0 then shown
    else if reseeds(n - 1).Some? then reseeds(n - 1)
    else LastFetched(shown, reseeds, n - 1)
  }

  // While every attempt fails, what is on show is the last snapshot fetched between them; after the fifth it gives up.
  lemma {:induction false} OutageShowsSnapshots(env: Env, w: World, shown: Option<Execution>, v: View, attempt: nat)
    requires attempt < 5 && (forall i :: attempt <= i < 5 ==> w.opens(i).NetworkError?)
    requires v.execution == LastFetched(shown, w.reseeds, attempt)
    ensures Watched(env, w, v, attempt)
         == (View(LastFetched(shown, w.reseeds, 4), v.lastChanged, Failed,
                  Some("Stream disconnected after multiple reconnect attempts")), 5)
    decreases 5 - attempt
  {
    if attempt < 4 {
      OutageShowsSnapshots(env, w, shown, Reseeded(v, w.reseeds(attempt)), attempt + 1);
    }
  }
}
