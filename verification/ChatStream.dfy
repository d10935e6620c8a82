// The chat hook: one completion streamed into the component's state.
module ChatStream {
  import opened Optional
  import opened SseReader

  datatype Usage = Usage(promptTokens: int, completionTokens: int)

  // A frame's fields; an empty string is an absent one.
  datatype Frame = Frame(
    delta: string, done: bool, finishReason: string, usage: Option<Usage>,
    servedBy: string, cacheHit: Option<bool>, requestId: string)

  // JSON.parse of a record's data. Reading a field of null throws.
  datatype Json = Malformed | Null | Parsed(frame: Frame)

  datatype Meta = Meta(
    finishReason: string, usage: Option<Usage>, servedBy: string, cacheHit: Option<bool>, requestId: string)

  const NOTHING := Meta("", None, "", None, "")

  datatype Status = Idle | Streaming | Done | Failed

  // What the component shows, with the metadata gathered so far.
  datatype View = View(assistant: string, status: Status, meta: Option<Meta>, error: Option<string>, acc: Meta)

  datatype Env = Env(parse: string -> Json, space: char -> bool)

  datatype Ending = Eof | Dropped

  datatype Response =
    | NetworkError
    | Answer(status: int, message: string, hasBody: bool, chunks: seq<string>, ending: Ending)

  const STREAM_FAILED := "The model stream failed."
  const DROPPED := "The connection dropped mid-stream."
  const UNREACHABLE := "Network error — is the BFF reachable?"

  function Fails(v: View, message: string): View { v.(status := Failed, error := Some(message)) }

  // The metadata any frame may carry.
  function Noted(acc: Meta, f: Frame): Meta {
    acc.(servedBy := if f.servedBy != "" then f.servedBy else acc.servedBy,
         cacheHit := if f.cacheHit.Some? then f.cacheHit else acc.cacheHit,
         requestId := if f.requestId != "" then f.requestId else acc.requestId)
  }

  function Concluded(acc: Meta, f: Frame): Meta {
    acc.(usage := if f.usage.Some? then f.usage else acc.usage,
         finishReason := if f.finishReason != "" then f.finishReason else acc.finishReason)
  }

  function Framed(v: View, event: string, f: Frame): (View, Signal) {
    var v' := v.(acc := Noted(v.acc, f), assistant := v.assistant + f.delta);
    if event == "done" || f.done then
      var acc := Concluded(v'.acc, f);
      (v'.(acc := acc, meta := Some(acc), status := Done), Stop)
    else (v', Go)
  }

  function Reacts(env: Env, v: View, event: string, data: string): (View, Signal) {
    if event == "error" then (Fails(v, STREAM_FAILED), Stop)
    else
      match env.parse(data)
      case Malformed => (v, Go)
      case Null => (v, Throw)
      case Parsed(f) => Framed(v, event, f)
  }

  function Reaction(env: Env): SseReader.Reaction<View> { (v, event, data) => Reacts(env, v, event, data) }

  function RecordHandler(env: Env): Handler<View> { HandlerOf(env.space, Reaction(env)) }

  // After the read loop: a stopped stream stays as it is, a throw or a drop is an error, an end settles.
  function Settled(l: Loop<View>, ending: Ending): View {
    if l.signal.Stop? then l.state
    else if l.signal.Throw? || ending.Dropped? then Fails(l.state, DROPPED)
    else l.state.(meta := if l.state.meta.None? then Some(l.state.acc) else l.state.meta,
                  status := if l.state.status.Streaming? then Done else l.state.status)
  }

  function ReadOut(env: Env, v: View, chunks: seq<string>, ending: Ending): View {
    Settled(FeedAll(RecordHandler(env), Loop(v, "", Go), chunks), ending)
  }

  const STARTED := View("", Streaming, None, None, NOTHING)

  // The state a turn leads to.
  function Sent(env: Env, r: Response): View {
    match r
    case NetworkError => Fails(STARTED, UNREACHABLE)
    case Answer(status, message, hasBody, chunks, ending) =>
      if status == 401 then STARTED
      else if !(200 <= status < 300) || !hasBody then Fails(STARTED, message)
      else ReadOut(env, STARTED, chunks, ending)
  }

  class Chat {
    const env: Env
    var assistant: string
    var status: Status
    var meta: Option<Meta>
    var error: Option<string>
    var acc: Meta
    var signedOut: bool

    constructor (env: Env)
      ensures this.env == env && Shown() == View("", Idle, None, None, NOTHING) && !signedOut
    {
      this.env := env;
      assistant, status, meta, error, acc, signedOut := "", Idle, None, None, NOTHING, false;
    }

    ghost function Shown(): View
      reads this
    {
      View(assistant, status, meta, error, acc)
    }

    method Fail(message: string)
      modifies this
      ensures Shown() == Fails(old(Shown()), message) && signedOut == old(signedOut)
    {
      status, error := Failed, Some(message);
    }

    method Note(frame: Frame)
      modifies this`acc
      ensures acc == Noted(old(acc), frame)
    {
      if frame.servedBy != "" { acc := acc.(servedBy := frame.servedBy); }
      if frame.cacheHit.Some? { acc := acc.(cacheHit := frame.cacheHit); }
      if frame.requestId != "" { acc := acc.(requestId := frame.requestId); }
    }

    method Append(delta: string)
      modifies this`assistant
      ensures assistant == old(assistant) + delta
    {
      if delta != "" { assistant := assistant + delta; }
    }

    method Conclude(frame: Frame)
      modifies this`acc, this`meta, this`status
      ensures acc == Concluded(old(acc), frame) && meta == Some(acc) && status == Done
    {
      if frame.usage.Some? { acc := acc.(usage := frame.usage); }
      if frame.finishReason != "" { acc := acc.(finishReason := frame.finishReason); }
      meta, status := Some(acc), Done;
    }

    method OnFrame(event: string, frame: Frame) returns (signal: Signal)
      modifies this
      ensures (Shown(), signal) == Framed(old(Shown()), event, frame)
      ensures signedOut == old(signedOut)
    {
      Note(frame);
      Append(frame.delta);
      if event == "done" || frame.done {
        Conclude(frame);
        return Stop;
      }
      signal := Go;
    }

    method HandleRecord(record: string) returns (signal: Signal)
      modifies this
      ensures (Shown(), signal) == RecordHandler(env)(old(Shown()), record)
      ensures signedOut == old(signedOut)
    {
      var event, data := ParseRecord(env.space, record);
      if |data| == 0 { return Go; }
      if event == "error" {
        Fail(STREAM_FAILED);
        return Stop;
      }
      match env.parse(Joined(data))
      case Malformed => signal := Go;
      case Null => signal := Throw;
      case Parsed(frame) => signal := OnFrame(event, frame);
    }

    // The records a chunk completes.
    method Records(chunk: string, buffer: string) returns (rest: string, signal: Signal)
      modifies this
      ensures Loop(Shown(), rest, signal) == Feed(RecordHandler(env), Loop(old(Shown()), buffer, Go), chunk)
      ensures signedOut == old(signedOut)
    {
      rest, signal := buffer + chunk, Go;
      var sep := IndexOfDelimiter(rest);
      while sep != -1
        invariant sep == IndexOfDelimiter(rest) && signal == Go && signedOut == old(signedOut)
        invariant Drain(RecordHandler(env), Shown(), rest) == Drain(RecordHandler(env), old(Shown()), buffer + chunk)
        decreases |rest|
      {
        var record := rest[..sep];
        rest := rest[sep + 2..];
        signal := HandleRecord(record);
        if signal != Go { return; }
        sep := IndexOfDelimiter(rest);
      }
    }

    method Read(chunks: seq<string>, ending: Ending)
      modifies this
      ensures Shown() == ReadOut(env, old(Shown()), chunks, ending)
      ensures signedOut == old(signedOut)
    {
      var buffer, signal := "", Go;
      for i := 0 to |chunks|
        invariant signal == Go && signedOut == old(signedOut)
        invariant FeedAll(RecordHandler(env), Loop(Shown(), buffer, Go), chunks[i..])
               == FeedAll(RecordHandler(env), Loop(old(Shown()), "", Go), chunks)
      {
        assert chunks[i..][0] == chunks[i] && chunks[i..][1..] == chunks[i + 1..];
        buffer, signal := Records(chunks[i], buffer);
        if signal != Go {
          StoppedStays(RecordHandler(env), Loop(Shown(), buffer, signal), chunks[i + 1..]);
          if signal == Throw { Fail(DROPPED); }
          return;
        }
      }
      if ending == Dropped {
        Fail(DROPPED);
        return;
      }
      if meta == None { meta := Some(acc); }
      if status == Streaming { status := Done; }
    }

    method Send(r: Response)
      modifies this
      ensures Shown() == Sent(env, r)
      ensures signedOut == (old(signedOut) || (r.Answer? && r.status == 401))
    {
      assistant, meta, error, status, acc := "", None, None, Streaming, NOTHING;
      match r
      case NetworkError => Fail(UNREACHABLE);
      case Answer(code, message, hasBody, chunks, ending) =>
        if code == 401 {
          signedOut := true;
        } else if !(200 <= code < 300) || !hasBody {
          Fail(message);
        } else {
          Read(chunks, ending);
        }
    }
  }

  // ------------------------------------------------------------ chunks and turns

  // Two ways of cutting the same text into chunks show the same thing.
  lemma SameTextSameView(env: Env, v: View, chunks: seq<string>, chunks': seq<string>, ending: Ending)
    requires Concat(chunks) == Concat(chunks')
    ensures ReadOut(env, v, chunks, ending) == ReadOut(env, v, chunks', ending)
  {
    ChunkingDoesNotMatter(RecordHandler(env), v, "", chunks);
    ChunkingDoesNotMatter(RecordHandler(env), v, "", chunks');
  }

  // ------------------------------------------------------- what the relay writes

  const DONE_FRAME := Frame("", true, "", None, "", None, "")
  const DONE_JSON := "{\"done\":true}"

  // The events of a completion: its frames up to the terminal one, or a terminal event of its own.
  function Relayed(json: Frame -> string, frames: seq<Frame>): seq<Item> {
    if frames == [] then [Event("done", DONE_JSON)]
    else if frames[0].done then [Event("done", json(frames[0]))]
    else [Event("delta", json(frames[0]))] + Relayed(json, frames[1..])
  }

  // The frames that count: up to the terminal one, or the relay's own after them.
  function Effective(frames: seq<Frame>): (fs: seq<Frame>)
    ensures fs != []
  {
    if frames == [] then [DONE_FRAME]
    else if frames[0].done then [frames[0]]
    else [frames[0]] + Effective(frames[1..])
  }

  function Deltas(frames: seq<Frame>): string {
    if frames == [] then "" else frames[0].delta + Deltas(frames[1..])
  }

  function AllNoted(acc: Meta, frames: seq<Frame>): Meta
    decreases frames
  {
    if frames == [] then acc else AllNoted(Noted(acc, frames[0]), frames[1..])
  }

  ghost predicate RoundTrips(env: Env, json: Frame -> string) {
    && (forall f :: env.parse(json(f)) == Parsed(f))
    && env.parse(DONE_JSON) == Parsed(DONE_FRAME)
  }

  // A delta event moves the loop on.
  lemma DeltaReacts(env: Env, json: Frame -> string, v: View, f: Frame, rest: seq<Item>)
    requires RoundTrips(env, json) && !f.done
    ensures React(Reaction(env), v, [Event("delta", json(f))] + rest)
         == React(Reaction(env), v.(acc := Noted(v.acc, f), assistant := v.assistant + f.delta), rest)
  {
    var items := [Event("delta", json(f))] + rest;
    assert items[1..] == rest;
    assert env.parse(json(f)) == Parsed(f);
  }

  // What frames ending in a terminal one make of a view.
  function Completed(v: View, fs: seq<Frame>): View
    requires fs != []
  {
    var acc := Concluded(AllNoted(v.acc, fs), fs[|fs| - 1]);
    View(v.assistant + Deltas(fs), Done, Some(acc), v.error, acc)
  }

  lemma CompletedStep(v: View, f: Frame, fs: seq<Frame>)
    requires fs != []
    ensures Completed(v, [f] + fs) == Completed(v.(acc := Noted(v.acc, f), assistant := v.assistant + f.delta), fs)
  {
    assert ([f] + fs)[1..] == fs;
    assert v.assistant + f.delta + Deltas(fs) == v.assistant + Deltas([f] + fs);
  }

  // A done event ends it.
  lemma DoneReacts(env: Env, v: View, data: string, f: Frame)
    requires env.parse(data) == Parsed(f)
    ensures React(Reaction(env), v, [Event("done", data)]) == (Completed(v, [f]), Stop)
  {
    assert Deltas([f]) == f.delta;
    assert [f][1..] == [];
    assert AllNoted(v.acc, [f]) == Noted(v.acc, f);
  }

  lemma {:induction false} RelayedReacts(env: Env, json: Frame -> string, v: View, frames: seq<Frame>)
    requires RoundTrips(env, json)
    ensures React(Reaction(env), v, Relayed(json, frames)) == (Completed(v, Effective(frames)), Stop)
    decreases frames
  {
    if frames == [] {
      DoneReacts(env, v, DONE_JSON, DONE_FRAME);
    } else if frames[0].done {
      DoneReacts(env, v, json(frames[0]), frames[0]);
    } else {
      var f := frames[0];
      DeltaReacts(env, json, v, f, Relayed(json, frames[1..]));
      RelayedReacts(env, json, v.(acc := Noted(v.acc, f), assistant := v.assistant + f.delta), frames[1..]);
      CompletedStep(v, f, Effective(frames[1..]));
    }
  }

  // End to end: whatever heartbeats come between and however the bytes are cut up, the chat shows the
  // deltas in order, done, with the metadata of the frames that count.
  lemma RelayedChat(
      env: Env, json: Frame -> string, frames: seq<Frame>, items: seq<Item>, partial: string,
      chunks: seq<string>, ending: Ending)
    requires RoundTrips(env, json) && env.space(' ')
    requires Unpinged(items) == Relayed(json, frames) && forall item :: item in items ==> Writable(env.space, item)
    requires IndexOfDelimiter(partial) < 0 && Concat(chunks) == Written(items) + partial
    ensures var fs, v := Effective(frames), ReadOut(env, STARTED, chunks, ending);
            && v.assistant == Deltas(fs) && v.status == Done && v.error == None
            && v.meta == Some(Concluded(AllNoted(NOTHING, fs), fs[|fs| - 1]))
  {
    StreamDelivers(env.space, Reaction(env), STARTED, items, partial, chunks);
    PingsAreInvisible(Reaction(env), STARTED, items);
    RelayedReacts(env, json, STARTED, frames);
    assert "" + Deltas(Effective(frames)) == Deltas(Effective(frames));
  }

  // Cut off before its terminal event, a completion shows the deltas that came through whole, and says so.
  lemma DroppedChat(
      env: Env, json: Frame -> string, frames: seq<Frame>, items: seq<Item>, partial: string, chunks: seq<string>)
    requires RoundTrips(env, json) && env.space(' ')
    requires Unpinged(items) == DeltaEvents(json, frames)
    requires (forall f :: f in frames ==> !f.done) && forall item :: item in items ==> Writable(env.space, item)
    requires IndexOfDelimiter(partial) < 0 && Concat(chunks) == Written(items) + partial
    ensures ReadOut(env, STARTED, chunks, Dropped)
         == Fails(STARTED.(assistant := Deltas(frames), acc := AllNoted(NOTHING, frames)), DROPPED)
  {
    StreamDelivers(env.space, Reaction(env), STARTED, items, partial, chunks);
    PingsAreInvisible(Reaction(env), STARTED, items);
    DeltasReact(env, json, STARTED, frames);
    assert "" + Deltas(frames) == Deltas(frames);
  }

  function DeltaEvents(json: Frame -> string, frames: seq<Frame>): seq<Item> {
    if frames == [] then [] else [Event("delta", json(frames[0]))] + DeltaEvents(json, frames[1..])
  }

  lemma {:induction false} DeltasReact(env: Env, json: Frame -> string, v: View, frames: seq<Frame>)
    requires RoundTrips(env, json) && forall f :: f in frames ==> !f.done
    ensures React(Reaction(env), v, DeltaEvents(json, frames))
         == (v.(assistant := v.assistant + Deltas(frames), acc := AllNoted(v.acc, frames)), Go)
    decreases frames
  {
    if frames == [] {
      assert v.assistant + Deltas(frames) == v.assistant;
    } else {
      var f := frames[0];
      var v' := v.(acc := Noted(v.acc, f), assistant := v.assistant + f.delta);
      DeltaReacts(env, json, v, f, DeltaEvents(json, frames[1..]));
      DeltasReact(env, json, v', frames[1..]);
      assert v'.assistant + Deltas(frames[1..]) == v.assistant + Deltas(frames);
    }
  }

  // What came through whole, and the event after it: `items` are the deltas of `frames`, then `last`.
  ghost predicate Brought(
      env: Env, json: Frame -> string, frames: seq<Frame>, last: seq<Item>, items: seq<Item>, partial: string,
      chunks: seq<string>)
  {
    && RoundTrips(env, json) && env.space(' ') && (forall f :: f in frames ==> !f.done)
    && Unpinged(items) == DeltaEvents(json, frames) + last
    && (forall item :: item in items ==> Writable(env.space, item))
    && IndexOfDelimiter(partial) < 0 && Concat(chunks) == Written(items) + partial
  }

  lemma BroughtReacts(
      env: Env, json: Frame -> string, frames: seq<Frame>, last: seq<Item>, items: seq<Item>, partial: string,
      chunks: seq<string>)
    requires Brought(env, json, frames, last, items, partial, chunks)
    ensures var l := FeedAll(RecordHandler(env), Loop(STARTED, "", Go), chunks);
            var v := STARTED.(assistant := Deltas(frames), acc := AllNoted(NOTHING, frames));
            (l.state, l.signal) == React(Reaction(env), v, last)
  {
    StreamDelivers(env.space, Reaction(env), STARTED, items, partial, chunks);
    PingsAreInvisible(Reaction(env), STARTED, items);
    DeltasReact(env, json, STARTED, frames);
    ReactAppend(Reaction(env), STARTED, DeltaEvents(json, frames), last);
    assert "" + Deltas(frames) == Deltas(frames);
  }

  // An error event fails the turn, with what came before it still on show; so does a drop, or a null frame, with
  // another message. A stream that ends without a terminal event counts as done.
  lemma UnfinishedChat(
      env: Env, json: Frame -> string, frames: seq<Frame>, last: seq<Item>, items: seq<Item>, partial: string,
      chunks: seq<string>, ending: Ending)
    requires Brought(env, json, frames, last, items, partial, chunks)
    ensures var v := ReadOut(env, STARTED, chunks, ending);
            && (last == [] && ending.Dropped? ==> Unfinished(v, frames, "The connection dropped mid-stream."))
            && (last == [] && ending.Eof? ==>
                 v == View(Deltas(frames), Done, Some(AllNoted(NOTHING, frames)), None, AllNoted(NOTHING, frames)))
            && (|last| == 1 && last[0].Event? && last[0].event == "error" ==>
                 Unfinished(v, frames, "The model stream failed."))
            && (|last| == 1 && last[0].Event? && last[0].event == "delta" && env.parse(last[0].data).Null? ==>
                 Unfinished(v, frames, "The connection dropped mid-stream."))
  {
    BroughtReacts(env, json, frames, last, items, partial, chunks);
    if |last| == 1 {
      var v := STARTED.(assistant := Deltas(frames), acc := AllNoted(NOTHING, frames));
      assert last == [last[0]];
      ReactOne(Reaction(env), v, last[0]);
    }
  }

  // The deltas are on show, and why there are no more of them.
  predicate Unfinished(v: View, frames: seq<Frame>, message: string) {
    v.assistant == Deltas(frames) && v.status == Failed && v.meta == None && v.error == Some(message)
  }

  // Data that is no JSON is skipped, wherever it comes.
  lemma MalformedIsSkipped(env: Env, v: View, a: seq<Item>, event: string, data: string, b: seq<Item>)
    requires event != "error" && env.parse(data).Malformed?
    ensures React(Reaction(env), v, a + ([Event(event, data)] + b)) == React(Reaction(env), v, a + b)
  {
    var v' := React(Reaction(env), v, a).0;
    ReactAppend(Reaction(env), v, a, [Event(event, data)] + b);
    ReactAppend(Reaction(env), v, a, b);
    ReactAppend(Reaction(env), v', [Event(event, data)], b);
    ReactOne(Reaction(env), v', Event(event, data));
  }

  // A frame ends the turn exactly if its event or the frame itself says that it is the last one; the turn is then done,
  // with metadata.
  lemma FrameEndsExactly(env: Env, v: View, event: string, data: string)
    requires event != "error" && env.parse(data).Parsed?
    ensures var (v', signal) := Reacts(env, v, event, data);
            && (signal.Stop? <==> event == "done" || env.parse(data).frame.done)
            && (if signal.Stop? then v'.status == Done && v'.meta == Some(v'.acc)
                else signal.Go? && v'.status == v.status && v'.meta == v.meta)
  {}

  // A turn that gets no stream: nothing is shown but why, or nothing at all if the session has ended.
  lemma TurnsWithoutStream(env: Env, r: Response)
    ensures r.NetworkError? ==>
              Sent(env, r) == View("", Failed, None, Some("Network error — is the BFF reachable?"), NOTHING)
    ensures r.Answer? && r.status == 401 ==> Sent(env, r) == View("", Streaming, None, None, NOTHING)
    ensures r.Answer? && r.status != 401 && (r.status < 200 || r.status >= 300 || !r.hasBody) ==>
              Sent(env, r) == View("", Failed, None, Some(r.message), NOTHING)
  {}

  // -------------------------------------------------------------------- metadata

  // The last of these that is given, if any is.
  predicate Latest<T(==)>(x: T, none: T, xs: seq<T>) {
    || (x == none && forall i :: 0 <= i < |xs| ==> xs[i] == none)
    || (x != none && exists i :: 0 <= i < |xs| && xs[i] == x && forall j :: i < j < |xs| ==> xs[j] == none)
  }

  lemma LatestOneMore<T>(x: T, none: T, xs: seq<T>, last: T)
    requires Latest(x, none, xs)
    ensures Latest(if last != none then last else x, none, xs + [last])
  {
    var xs' := xs + [last];
    if last != none {
      assert xs'[|xs|] == last;
    } else if x != none {
      var i :| 0 <= i < |xs| && xs[i] == x && forall j :: i < j < |xs| ==> xs[j] == none;
      assert xs'[i] == x;
    }
  }

  lemma {:induction false} NotedLast(acc: Meta, fs: seq<Frame>)
    requires fs != []
    ensures var n := |fs| - 1; AllNoted(acc, fs) == Noted(AllNoted(acc, fs[..n]), fs[n])
    decreases |fs|
  {
    var n := |fs| - 1;
    if n > 0 {
      assert fs[..n][1..] == fs[1..][..n - 1];
      NotedLast(Noted(acc, fs[0]), fs[1..]);
    }
  }

  function Servers(fs: seq<Frame>): seq<string> { seq(|fs|, i requires 0 <= i < |fs| => fs[i].servedBy) }

  function Requests(fs: seq<Frame>): seq<string> { seq(|fs|, i requires 0 <= i < |fs| => fs[i].requestId) }

  function Hits(fs: seq<Frame>): seq<Option<bool>> { seq(|fs|, i requires 0 <= i < |fs| => fs[i].cacheHit) }

  // The provider, the request and whether the cache answered are the last ones that any frame named.
  predicate AllLatest(m: Meta, fs: seq<Frame>) {
    Latest(m.servedBy, "", Servers(fs)) && Latest(m.requestId, "", Requests(fs)) && Latest(m.cacheHit, None, Hits(fs))
  }

  lemma NotedKeepsLatest(m: Meta, fs: seq<Frame>, f: Frame)
    requires AllLatest(m, fs)
    ensures AllLatest(Noted(m, f), fs + [f])
  {
    LatestOneMore(m.servedBy, "", Servers(fs), f.servedBy);
    LatestOneMore(m.requestId, "", Requests(fs), f.requestId);
    LatestOneMore(m.cacheHit, None, Hits(fs), f.cacheHit);
    assert Servers(fs + [f]) == Servers(fs) + [f.servedBy];
    assert Requests(fs + [f]) == Requests(fs) + [f.requestId];
    assert Hits(fs + [f]) == Hits(fs) + [f.cacheHit];
  }

  lemma {:induction false} NotedIsLatest(fs: seq<Frame>)
    ensures AllLatest(AllNoted(NOTHING, fs), fs)
    decreases |fs|
  {
    if fs != [] {
      var n := |fs| - 1;
      var before, last := fs[..n], fs[n];
      NotedIsLatest(before);
      NotedKeepsLatest(AllNoted(NOTHING, before), before, last);
      NotedLast(NOTHING, fs);
      assert before + [last] == fs;
    }
  }

  lemma {:induction false} NotedConcludesNothing(acc: Meta, fs: seq<Frame>)
    ensures var m := AllNoted(acc, fs); m.usage == acc.usage && m.finishReason == acc.finishReason
    decreases fs
  {
    if fs != [] { NotedConcludesNothing(Noted(acc, fs[0]), fs[1..]); }
  }

  // So it is in what a completed chat shows; the usage and the reason to stop are the terminal frame's.
  lemma MetadataIsLatest(fs: seq<Frame>)
    requires fs != []
    ensures var m, last := Concluded(AllNoted(NOTHING, fs), fs[|fs| - 1]), fs[|fs| - 1];
            AllLatest(m, fs) && m.usage == last.usage && m.finishReason == last.finishReason
  {
    NotedIsLatest(fs);
    NotedConcludesNothing(NOTHING, fs);
  }
}
