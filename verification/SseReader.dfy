// The incremental reader of server-sent events that both hooks use, and the writer on the other side:
// a subset of sections 9.2.5 and 9.2.6 of the WHATWG HTML standard.
module SseReader {

  // --------------------------------------------------------------- the buffer

  predicate DelimiterAt(s: string, i: int) { 0 <= i && i + 1 < |s| && s[i] == '\n' && s[i + 1] == '\n' }

  // The position of the first blank line, or -1.
  function IndexOfDelimiter(s: string): (i: int)
    ensures i == -1 || DelimiterAt(s, i)
    ensures forall j :: DelimiterAt(s, j) ==> 0 <= i <= j
  {
    if |s| < 2 then -1
    else if s[0] == '\n' && s[1] == '\n' then 0
    else
      var i := IndexOfDelimiter(s[1..]);
      assert forall j :: DelimiterAt(s, j) ==> DelimiterAt(s[1..], j - 1);
      if i < 0 then -1 else i + 1
  }

  // What handling a record tells the read loop.
  datatype Signal = Go | Stop | Throw

  type Handler<!S> = (S, string) -> (S, Signal)

  datatype Loop<+S> = Loop(state: S, buffer: string, signal: Signal)

  // Handle the complete records of a buffer.
  function Drain<S>(h: Handler<S>, state: S, buffer: string): Loop<S>
    decreases |buffer|
  {
    var sep := IndexOfDelimiter(buffer);
    if sep < 0 then Loop(state, buffer, Go)
    else
      var (state', signal) := h(state, buffer[..sep]);
      if signal.Go? then Drain(h, state', buffer[sep + 2..]) else Loop(state', buffer[sep + 2..], signal)
  }

  function Feed<S>(h: Handler<S>, l: Loop<S>, chunk: string): Loop<S> {
    if l.signal.Go? then Drain(h, l.state, l.buffer + chunk) else l
  }

  function FeedAll<S>(h: Handler<S>, l: Loop<S>, chunks: seq<string>): Loop<S>
    decreases chunks
  {
    if chunks == [] then l else FeedAll(h, Feed(h, l, chunks[0]), chunks[1..])
  }

  function Concat(chunks: seq<string>): string { if chunks == [] then "" else chunks[0] + Concat(chunks[1..]) }

  // -------------------------------------------------- chunking does not matter

  lemma SplitInPrefix(a: string, b: string)
    requires IndexOfDelimiter(a) >= 0
    ensures var sep := IndexOfDelimiter(a);
            && IndexOfDelimiter(a + b) == sep
            && (a + b)[..sep] == a[..sep] && (a + b)[sep + 2..] == a[sep + 2..] + b
  {
    var i, j := IndexOfDelimiter(a), IndexOfDelimiter(a + b);
    assert DelimiterAt(a + b, i);
    assert DelimiterAt(a, j);
  }

  // Draining a longer text picks up where draining a shorter one left off.
  lemma {:induction false} DrainMore<S>(h: Handler<S>, state: S, a: string, b: string)
    ensures var l := Drain(h, state, a);
            Drain(h, state, a + b) ==
            if l.signal.Go? then Drain(h, l.state, l.buffer + b) else Loop(l.state, l.buffer + b, l.signal)
    decreases |a|
  {
    var sep := IndexOfDelimiter(a);
    if sep >= 0 {
      SplitInPrefix(a, b);
      var (state', signal) := h(state, a[..sep]);
      if signal.Go? { DrainMore(h, state', a[sep + 2..], b); }
    }
  }

  // The state reached, and whether and why the loop stopped, depend on the text alone; what is left in the
  // buffer is what the whole text would leave, less the chunks not read after a stop.
  lemma {:induction false} ChunkingDoesNotMatter<S>(h: Handler<S>, state: S, buffer: string, chunks: seq<string>)
    requires IndexOfDelimiter(buffer) < 0
    ensures var l, whole := FeedAll(h, Loop(state, buffer, Go), chunks), Drain(h, state, buffer + Concat(chunks));
            && l.state == whole.state && l.signal == whole.signal && l.buffer <= whole.buffer
            && (l.signal.Go? ==> l.buffer == whole.buffer && IndexOfDelimiter(l.buffer) < 0)
    decreases chunks
  {
    if chunks == [] {
      assert buffer + Concat(chunks) == buffer;
    } else {
      var rest := Concat(chunks[1..]);
      assert buffer + Concat(chunks) == buffer + chunks[0] + rest;
      DrainMore(h, state, buffer + chunks[0], rest);
      var l := Drain(h, state, buffer + chunks[0]);
      if l.signal.Go? {
        DrainedBuffer(h, state, buffer + chunks[0]);
        ChunkingDoesNotMatter(h, l.state, l.buffer, chunks[1..]);
      } else {
        StoppedStays(h, l, chunks[1..]);
      }
    }
  }

  lemma {:induction false} DrainedBuffer<S>(h: Handler<S>, state: S, buffer: string)
    ensures var l := Drain(h, state, buffer); l.signal.Go? ==> IndexOfDelimiter(l.buffer) < 0
    decreases |buffer|
  {
    var sep := IndexOfDelimiter(buffer);
    if sep >= 0 { DrainedBuffer(h, h(state, buffer[..sep]).0, buffer[sep + 2..]); }
  }

  lemma {:induction false} StoppedStays<S>(h: Handler<S>, l: Loop<S>, chunks: seq<string>)
    requires !l.signal.Go?
    ensures FeedAll(h, l, chunks) == l
    decreases chunks
  {
    if chunks != [] { StoppedStays(h, l, chunks[1..]); }
  }

  // ---------------------------------------------------------------- one record

  function Lines(s: string): (ls: seq<string>)
    ensures ls != []
  {
    if s == "" then [""]
    else
      var rest := Lines(s[1..]);
      if s[0] == '\n' then [""] + rest else [[s[0]] + rest[0]] + rest[1..]
  }

  function TrimStart(space: char -> bool, s: string): string {
    if s != "" && space(s[0]) then TrimStart(space, s[1..]) else s
  }

  function TrimEnd(space: char -> bool, s: string): string {
    if s != "" && space(s[|s| - 1]) then TrimEnd(space, s[..|s| - 1]) else s
  }

  // `space` are the characters that String.trim removes.
  function Trim(space: char -> bool, s: string): string { TrimEnd(space, TrimStart(space, s)) }

  const EVENT := "event:"
  const DATA := "data:"

  datatype Fields = Fields(event: string, data: seq<string>)

  function WithLine(space: char -> bool, f: Fields, line: string): Fields {
    if line != "" && line[0] == ':' then f
    else if EVENT <= line then f.(event := Trim(space, line[6..]))
    else if DATA <= line then f.(data := f.data + [Trim(space, line[5..])])
    else f
  }

  function WithLines(space: char -> bool, f: Fields, lines: seq<string>): Fields
    decreases lines
  {
    if lines == [] then f else WithLines(space, WithLine(space, f, lines[0]), lines[1..])
  }

  function FieldsOf(space: char -> bool, record: string): Fields {
    WithLines(space, Fields("message", []), Lines(record))
  }

  // The loop over a record's lines.
  method ParseRecord(space: char -> bool, record: string) returns (event: string, data: seq<string>)
    ensures Fields(event, data) == FieldsOf(space, record)
  {
    event, data := "message", [];
    var lines := Lines(record);
    for i := 0 to |lines|
      invariant WithLines(space, Fields(event, data), lines[i..]) == FieldsOf(space, record)
    {
      var line := lines[i];
      assert lines[i..][0] == line && lines[i..][1..] == lines[i + 1..];
      if line != "" && line[0] == ':' { continue; }
      if EVENT <= line {
        event := Trim(space, line[6..]);
      } else if DATA <= line {
        data := data + [Trim(space, line[5..])];
      }
    }
  }

  function Joined(ls: seq<string>): string {
    if ls == [] then "" else if |ls| == 1 then ls[0] else ls[0] + "\n" + Joined(ls[1..])
  }

  // Several data lines make one text, of those lines: joining undoes splitting.
  lemma {:induction false} LinesOfJoined(ls: seq<string>)
    requires ls != [] && forall l <- ls :: '\n' !in l
    ensures Lines(Joined(ls)) == ls
    decreases |ls|
  {
    if |ls| == 1 {
      OneLine(ls[0]);
    } else {
      LinesOfJoined(ls[1..]);
      LineThenMore(ls[0], Joined(ls[1..]));
      assert Joined(ls) == ls[0] + "\n" + Joined(ls[1..]);
      assert ls == [ls[0]] + ls[1..];
    }
  }

  // Trimming takes what is to be trimmed off both ends, and nothing else.
  lemma {:induction false} TrimmedExactly(space: char -> bool, s: string) returns (before: string, after: string)
    ensures s == before + Trim(space, s) + after
    ensures (forall c <- before :: space(c)) && forall c <- after :: space(c)
    ensures var t := Trim(space, s); t != "" ==> !space(t[0]) && !space(t[|t| - 1])
  {
    before := TrimmedStart(space, s);
    after := TrimmedEnd(space, TrimStart(space, s));
  }

  lemma {:induction false} TrimmedStart(space: char -> bool, s: string) returns (before: string)
    ensures s == before + TrimStart(space, s) && forall c <- before :: space(c)
    ensures TrimStart(space, s) != "" ==> !space(TrimStart(space, s)[0])
    decreases |s|
  {
    before := "";
    if s != "" && space(s[0]) {
      var rest := TrimmedStart(space, s[1..]);
      before := [s[0]] + rest;
      assert s == [s[0]] + s[1..];
    }
  }

  lemma {:induction false} TrimmedEnd(space: char -> bool, s: string) returns (after: string)
    ensures s == TrimEnd(space, s) + after && forall c <- after :: space(c)
    ensures TrimEnd(space, s) != "" ==> !space(TrimEnd(space, s)[|TrimEnd(space, s)| - 1])
    ensures TrimEnd(space, s) != "" ==> TrimEnd(space, s)[0] == s[0]
    decreases |s|
  {
    after := "";
    if s != "" && space(s[|s| - 1]) {
      var rest := TrimmedEnd(space, s[..|s| - 1]);
      after := rest + [s[|s| - 1]];
      assert s == s[..|s| - 1] + [s[|s| - 1]];
    }
  }

  // The lines that begin with a field's name, less the name, trimmed.
  function Given(space: char -> bool, name: string, lines: seq<string>): seq<string> {
    if lines == [] then []
    else
      var l := lines[0];
      (if |l| >= |name| && l[..|name|] == name then [Trim(space, l[|name|..])] else []) + Given(space, name, lines[1..])
  }

  // What a record says: its data lines in order, and its last event line. Comments and lines of no known field say
  // nothing, wherever they come.
  lemma RecordSays(space: char -> bool, f: Fields, lines: seq<string>)
    ensures var g, events := WithLines(space, f, lines), Given(space, "event:", lines);
            && g.data == f.data + Given(space, "data:", lines)
            && g.event == if events == [] then f.event else events[|events| - 1]
  {
    DataSays(space, f, lines);
    EventSays(space, f, lines);
  }

  lemma {:induction false} DataSays(space: char -> bool, f: Fields, lines: seq<string>)
    ensures WithLines(space, f, lines).data == f.data + Given(space, "data:", lines)
    decreases |lines|
  {
    if lines != [] {
      LineSays(space, f, lines[0]);
      DataSays(space, WithLine(space, f, lines[0]), lines[1..]);
    }
  }

  lemma {:induction false} EventSays(space: char -> bool, f: Fields, lines: seq<string>)
    ensures var events := Given(space, "event:", lines);
            WithLines(space, f, lines).event == if events == [] then f.event else events[|events| - 1]
    decreases |lines|
  {
    if lines != [] {
      LineSays(space, f, lines[0]);
      EventSays(space, WithLine(space, f, lines[0]), lines[1..]);
    }
  }

  lemma LineSays(space: char -> bool, f: Fields, l: string)
    ensures var g := WithLine(space, f, l);
            && g.event == (if |l| >= 6 && l[..6] == "event:" then Trim(space, l[6..]) else f.event)
            && g.data == f.data + if |l| >= 5 && l[..5] == "data:" then [Trim(space, l[5..])] else []
  {
    assert f.data + [] == f.data;
    if EVENT <= l || DATA <= l { assert l[0] == 'e' || l[0] == 'd'; }
  }

  // What a hook does with an event and its data.
  type Reaction<!S> = (S, string, string) -> (S, Signal)

  function HandleRecord<S>(space: char -> bool, on: Reaction<S>, state: S, record: string): (S, Signal) {
    var f := FieldsOf(space, record);
    if f.data == [] then (state, Go) else on(state, f.event, Joined(f.data))
  }

  function HandlerOf<S>(space: char -> bool, on: Reaction<S>): Handler<S> {
    (state, record) => HandleRecord(space, on, state, record)
  }

  // ---------------------------------------------------------------- the writer

  datatype Item = Ping | Event(event: string, data: string)

  // An item as it is written, less the blank line after it.
  function RecordOf(item: Item): string {
    match item
    case Ping => ": ping"
    case Event(event, data) => (if event == "" then "" else "event: " + event + "\n") + "data: " + data
  }

  function Written(items: seq<Item>): string {
    if items == [] then "" else RecordOf(items[0]) + "\n\n" + Written(items[1..])
  }

  // On one line, with nothing at either end for the reader to trim.
  predicate Plain(space: char -> bool, s: string) {
    '\n' !in s && (s != "" ==> !space(s[0]) && !space(s[|s| - 1]))
  }

  predicate Writable(space: char -> bool, item: Item) {
    item.Event? ==> Plain(space, item.event) && Plain(space, item.data)
  }

  // The items handled one by one, with no text between.
  function React<S>(on: Reaction<S>, state: S, items: seq<Item>): (S, Signal)
    decreases items
  {
    if items == [] then (state, Go)
    else if items[0].Ping? then React(on, state, items[1..])
    else
      var (state', signal) := on(state, if items[0].event == "" then "message" else items[0].event, items[0].data);
      if signal.Go? then React(on, state', items[1..]) else (state', signal)
  }

  lemma {:induction false} OneLine(s: string)
    requires '\n' !in s
    ensures Lines(s) == [s]
  {
    if s != "" {
      assert '\n' !in s[1..];
      OneLine(s[1..]);
      assert [s[0]] + s[1..] == s;
    }
  }

  lemma {:induction false} LineThenMore(s: string, rest: string)
    requires '\n' !in s
    ensures Lines(s + "\n" + rest) == [s] + Lines(rest)
  {
    var t := s + "\n" + rest;
    if s == "" {
      assert t[1..] == rest;
    } else {
      assert t[1..] == s[1..] + "\n" + rest;
      LineThenMore(s[1..], rest);
      assert [s[0]] + s[1..] == s;
    }
  }

  lemma TrimmedBack(space: char -> bool, s: string)
    requires space(' ') && Plain(space, s)
    ensures Trim(space, " " + s) == s
  {
    assert (" " + s)[1..] == s;
    assert TrimStart(space, " " + s) == TrimStart(space, s) == s;
  }

  lemma DataLine(space: char -> bool, f: Fields, data: string)
    requires space(' ') && Plain(space, data)
    ensures WithLine(space, f, "data: " + data) == f.(data := f.data + [data])
  {
    var line := "data: " + data;
    TrimmedBack(space, data);
    assert line[..5] == DATA && line[5..] == " " + data;
    assert line[0] == 'd' && EVENT[0] == 'e';
  }

  lemma EventLine(space: char -> bool, f: Fields, event: string)
    requires space(' ') && Plain(space, event)
    ensures WithLine(space, f, "event: " + event) == f.(event := event)
  {
    var line := "event: " + event;
    TrimmedBack(space, event);
    assert line[..6] == EVENT && line[6..] == " " + event;
    assert line[0] == 'e';
  }

  lemma OneAndTwoLines(space: char -> bool, f: Fields, a: string, b: string)
    ensures WithLines(space, f, [a]) == WithLine(space, f, a)
    ensures WithLines(space, f, [a] + [b]) == WithLine(space, WithLine(space, f, a), b)
  {
    assert ([a] + [b])[1..] == [b];
    assert WithLines(space, WithLine(space, f, a), [b]) == WithLine(space, WithLine(space, f, a), b);
  }

  // Every item is read back as it was written.
  lemma ItemReadsBack(space: char -> bool, item: Item)
    requires space(' ') && Writable(space, item)
    ensures FieldsOf(space, RecordOf(item)) ==
            if item.Ping? then Fields("message", [])
            else Fields(if item.event == "" then "message" else item.event, [item.data])
  {
    var f := Fields("message", []);
    if item.Ping? {
      OneLine(": ping");
      OneAndTwoLines(space, f, ": ping", "");
    } else {
      var data, event := "data: " + item.data, "event: " + item.event;
      OneLine(data);
      DataLine(space, f, item.data);
      OneAndTwoLines(space, f, data, "");
      if item.event == "" {
        assert RecordOf(item) == data;
      } else {
        assert RecordOf(item) == event + "\n" + data;
        LineThenMore(event, data);
        EventLine(space, f, item.event);
        DataLine(space, f.(event := item.event), item.data);
        OneAndTwoLines(space, f, event, data);
      }
    }
  }

  ghost predicate Unbroken(s: string) { forall i :: !DelimiterAt(s, i) }

  lemma TwoLinesUnbroken(a: string, b: string)
    requires '\n' !in a && '\n' !in b && b != ""
    ensures Unbroken(b + "\n") && Unbroken(a + "\n" + b + "\n")
  {
    var s := a + "\n" + b + "\n";
    forall i | 0 <= i < |s| - 1
      ensures s[i] != '\n' || s[i + 1] != '\n'
    {
      if i < |a| {
        assert s[i] == a[i];
      } else if i == |a| {
        assert s[i + 1] == b[0];
      } else {
        assert s[i] == b[i - |a| - 1];
      }
    }
  }

  lemma RecordsAreUnbroken(space: char -> bool, item: Item)
    requires Writable(space, item)
    ensures Unbroken(RecordOf(item) + "\n")
  {
    if item.Ping? {
      TwoLinesUnbroken("", ": ping");
    } else {
      var data, event := "data: " + item.data, "event: " + item.event;
      TwoLinesUnbroken(event, data);
      assert RecordOf(item) == if item.event == "" then data else event + "\n" + data;
    }
  }

  lemma FirstRecord(record: string, tail: string)
    requires Unbroken(record + "\n")
    ensures var s := record + "\n\n" + tail;
            IndexOfDelimiter(s) == |record| && s[..|record|] == record && s[|record| + 2..] == tail
  {
    var s := record + "\n\n" + tail;
    assert DelimiterAt(s, |record|);
    forall i | 0 <= i < |record|
      ensures !DelimiterAt(s, i)
    {
      assert s[i] == (record + "\n")[i] && s[i + 1] == (record + "\n")[i + 1];
      assert !DelimiterAt(record + "\n", i);
    }
  }

  // The buffer's first record is an item; the rest is drained after it.
  lemma DrainItem<S>(space: char -> bool, on: Reaction<S>, state: S, item: Item, tail: string)
    requires space(' ') && Writable(space, item)
    ensures var h := HandlerOf(space, on);
            var (state', signal) := React(on, state, [item]);
            Drain(h, state, RecordOf(item) + "\n\n" + tail)
            == if signal.Go? then Drain(h, state', tail) else Loop(state', tail, signal)
  {
    RecordsAreUnbroken(space, item);
    FirstRecord(RecordOf(item), tail);
    ItemReadsBack(space, item);
    ReactOne(on, state, item);
  }

  lemma ReactOne<S>(on: Reaction<S>, state: S, item: Item)
    ensures React(on, state, [item]) ==
            if item.Ping? then (state, Go)
            else on(state, if item.event == "" then "message" else item.event, item.data)
  {
    assert [item][1..] == [];
  }

  lemma ReactFirst<S>(on: Reaction<S>, state: S, items: seq<Item>)
    requires items != []
    ensures var (state', signal) := React(on, state, [items[0]]);
            React(on, state, items) == if signal.Go? then React(on, state', items[1..]) else (state', signal)
  {
    ReactOne(on, state, items[0]);
  }

  lemma Regroup(a: string, b: string, c: string)
    ensures a + b + c == a + (b + c)
  {}

  // What is written, and cut off anywhere, is read as the items that got through whole.
  lemma {:induction false} WrittenIsRead<S>(
      space: char -> bool, on: Reaction<S>, state: S, items: seq<Item>, partial: string)
    requires space(' ') && (forall item :: item in items ==> Writable(space, item))
    requires IndexOfDelimiter(partial) < 0
    ensures var l := Drain(HandlerOf(space, on), state, Written(items) + partial);
            (l.state, l.signal) == React(on, state, items) && (l.signal.Go? ==> l.buffer == partial)
    decreases items
  {
    if items == [] {
      assert Written(items) + partial == partial;
    } else {
      var tail := Written(items[1..]) + partial;
      Regroup(RecordOf(items[0]) + "\n\n", Written(items[1..]), partial);
      DrainItem(space, on, state, items[0], tail);
      ReactFirst(on, state, items);
      WrittenIsRead(space, on, React(on, state, [items[0]]).0, items[1..], partial);
    }
  }

  // A frame cut short has no delimiter in it, so nothing of it is handled.
  lemma CutFrameHasNoDelimiter(space: char -> bool, item: Item, partial: string)
    requires Writable(space, item) && partial < RecordOf(item) + "\n\n"
    ensures IndexOfDelimiter(partial) < 0
  {
    RecordsAreUnbroken(space, item);
    var s := RecordOf(item) + "\n";
    assert s + "\n" == RecordOf(item) + "\n\n";
    forall i | 0 <= i < |partial| - 1
      ensures !DelimiterAt(partial, i)
    {
      assert partial[i] == s[i] && partial[i + 1] == s[i + 1];
      assert !DelimiterAt(s, i);
    }
  }

  // However the text arrives, the hook reacts to the items themselves.
  lemma StreamDelivers<S>(
      space: char -> bool, on: Reaction<S>, state: S, items: seq<Item>, partial: string, chunks: seq<string>)
    requires space(' ') && (forall item :: item in items ==> Writable(space, item))
    requires IndexOfDelimiter(partial) < 0 && Concat(chunks) == Written(items) + partial
    ensures var l := FeedAll(HandlerOf(space, on), Loop(state, "", Go), chunks);
            (l.state, l.signal) == React(on, state, items) && (l.signal.Go? ==> l.buffer == partial)
  {
    WrittenIsRead(space, on, state, items, partial);
    ChunkingDoesNotMatter(HandlerOf(space, on), state, "", chunks);
    assert "" + Concat(chunks) == Concat(chunks);
  }

  // Reacting to items and then to more.
  lemma {:induction false} ReactAppend<S>(on: Reaction<S>, state: S, a: seq<Item>, b: seq<Item>)
    ensures var (state', signal) := React(on, state, a);
            React(on, state, a + b) == if signal.Go? then React(on, state', b) else (state', signal)
    decreases a
  {
    if a == [] {
      assert a + b == b;
    } else {
      assert (a + b)[0] == a[0] && (a + b)[1..] == a[1..] + b;
      ReactFirst(on, state, a);
      ReactFirst(on, state, a + b);
      ReactAppend(on, React(on, state, [a[0]]).0, a[1..], b);
    }
  }

  function Unpinged(items: seq<Item>): seq<Item> {
    if items == [] then [] else (if items[0].Ping? then [] else [items[0]]) + Unpinged(items[1..])
  }

  lemma {:induction false} PingsAreInvisible<S>(on: Reaction<S>, state: S, items: seq<Item>)
    ensures React(on, state, Unpinged(items)) == React(on, state, items)
    decreases items
  {
    if items != [] {
      var rest := Unpinged(items[1..]);
      if items[0].Ping? {
        assert Unpinged(items) == rest;
        PingsAreInvisible(on, state, items[1..]);
      } else {
        assert Unpinged(items) == [items[0]] + rest;
        var (state', signal) := on(state, if items[0].event == "" then "message" else items[0].event, items[0].data);
        if signal.Go? { PingsAreInvisible(on, state', items[1..]); }
      }
    }
  }

  // Whether a stream stops the loop does not depend on what the hook shows, if no record's answer does.
  lemma {:induction false} SignalIgnoresState<S(!new)>(h: Handler<S>, l: Loop<S>, l': Loop<S>, chunks: seq<string>)
    requires forall s, s', record :: h(s, record).1 == h(s', record).1
    requires l.buffer == l'.buffer && l.signal == l'.signal
    ensures FeedAll(h, l, chunks).signal == FeedAll(h, l', chunks).signal
    decreases chunks
  {
    if chunks != [] {
      DrainIgnoresState(h, l.state, l'.state, l.buffer + chunks[0]);
      SignalIgnoresState(h, Feed(h, l, chunks[0]), Feed(h, l', chunks[0]), chunks[1..]);
    }
  }

  lemma {:induction false} DrainIgnoresState<S(!new)>(h: Handler<S>, s: S, s': S, buffer: string)
    requires forall s, s', record :: h(s, record).1 == h(s', record).1
    ensures var l, l' := Drain(h, s, buffer), Drain(h, s', buffer); l.buffer == l'.buffer && l.signal == l'.signal
    decreases |buffer|
  {
    var sep := IndexOfDelimiter(buffer);
    if sep >= 0 {
      var record := buffer[..sep];
      assert h(s, record).1 == h(s', record).1;
      DrainIgnoresState(h, h(s, record).0, h(s', record).0, buffer[sep + 2..]);
    }
  }
}
