/**
 * The incremental reader of a server-sent event stream: a buffer cut at blank lines, and a fold over the events.
 * Chunks are the decoded strings; `parse` stands for the JSON parser.
 */
module SseReader {
  import opened Sequences
  import opened Text

  datatype Citation = Citation(kind: Option<string>, source: Option<string>)
  datatype ToolRun = ToolRun(tool: string, status: string)
  datatype Failure = Failure(code: string, message: string)

  /** What the parser makes of a data string: a failure, the literal null, or a value with the fields read from it. */
  datatype Json =
    | Malformed
    | Null
    | Payload(content: Option<string>, tool: Option<string>, status: Option<string>,
              citations: Option<seq<Citation>>, code: Option<string>, message: Option<string>)

  /** The result so far; reading a field of null throws, and the exception ends the read. */
  datatype State =
    | Open(answer: string, citations: seq<Citation>, toolRuns: seq<ToolRun>, error: Option<Failure>)
    | Thrown

  const START := Open("", [], [], None)

  function OrElse(o: Option<string>, default: string): string {
    match o case Some(v) => v case None => default
  }

  /** The status of the last run of a tool, replaced. */
  function MarkLast(runs: seq<ToolRun>, tool: string, status: string): (r: seq<ToolRun>)
    ensures |r| == |runs|
  {
    if runs == [] then []
    else if runs[|runs| - 1].tool == tool then runs[..|runs| - 1] + [ToolRun(tool, status)]
    else MarkLast(runs[..|runs| - 1], tool, status) + [runs[|runs| - 1]]
  }

  function OnPayload(st: State, event: string, p: Json): State
    requires st.Open? && p.Payload?
  {
    if event == "token" then
      if p.content.Some? then st.(answer := st.answer + p.content.value) else st
    else if event == "tool_start" then
      if OrElse(p.tool, "") !in ["", "CHAT"]
      then st.(toolRuns := st.toolRuns + [ToolRun(p.tool.value, "running")]) else st
    else if event == "tool_end" then
      if p.tool.Some? && OrElse(p.status, "") != ""
      then st.(toolRuns := MarkLast(st.toolRuns, p.tool.value, p.status.value))
      else st
    else if event == "answer" then
      st.(answer := if p.content.Some? && |p.content.value| > |st.answer| then p.content.value else st.answer,
          citations := if p.citations.Some? then p.citations.value else st.citations)
    else if event == "error" then
      st.(error := Some(Failure(OrElse(p.code, "UNKNOWN"), OrElse(p.message, "Unknown error"))))
    else st
  }

  function OnEvent(parse: string -> Json, st: State, event: string, data: string): State {
    if st.Thrown? || Trim(data) == "" then st
    else
      match parse(data)
      case Malformed => st
      case Null => if event in ["token", "tool_start", "tool_end", "answer", "error"] then Thrown else st
      case p => OnPayload(st, event, p)
  }

  // ----- framing -----

  predicate IsBreak(s: string, i: nat) {
    i + 2 <= |s| && s[i] == '\n' && s[i + 1] == '\n'
  }

  /** Where the first blank line starts. */
  function FirstBreak(s: string): (r: Option<nat>)
    ensures r.Some? ==> r.value + 2 <= |s|
  {
    if |s| < 2 then None
    else if IsBreak(s, 0) then Some(0)
    else
      match FirstBreak(s[1..])
      case None => None
      case Some(i) => Some(i + 1)
  }

  lemma {:induction false} FirstBreakIsFirst(s: string)
    ensures FirstBreak(s).Some? ==>
              IsBreak(s, FirstBreak(s).value) && forall i: nat :: i < FirstBreak(s).value ==> !IsBreak(s, i)
    ensures FirstBreak(s).None? ==> forall i: nat :: !IsBreak(s, i)
  {
    if |s| >= 2 && !IsBreak(s, 0) {
      FirstBreakIsFirst(s[1..]);
      match FirstBreak(s[1..])
      case None => NoBreakBefore(s, |s|);
      case Some(i) => NoBreakBefore(s, i);
    }
  }

  lemma NoBreakBefore(s: string, n: nat)
    requires |s| >= 2 && !IsBreak(s, 0) && forall i: nat :: i < n ==> !IsBreak(s[1..], i)
    ensures forall i: nat :: i < n + 1 ==> !IsBreak(s, i)
  {
    forall i: nat | i < n + 1 ensures !IsBreak(s, i) {
      if i > 0 {
        assert IsBreak(s, i) == IsBreak(s[1..], i - 1);
      }
    }
  }

  function Blocks(s: string): seq<string>
    decreases |s|
  {
    match FirstBreak(s)
    case None => []
    case Some(i) => [s[..i]] + Blocks(s[i + 2..])
  }

  /** What stays in the buffer once every complete block is cut off. */
  function Rest(s: string): string
    decreases |s|
  {
    match FirstBreak(s)
    case None => s
    case Some(i) => Rest(s[i + 2..])
  }

  function Lines(s: string): (r: seq<string>)
    ensures |r| > 0
  {
    if s == "" then [""]
    else if s[0] == '\n' then [""] + Lines(s[1..])
    else
      var rest := Lines(s[1..]);
      [[s[0]] + rest[0]] + rest[1..]
  }

  datatype Frame = Frame(event: string, data: seq<string>)

  function Scan(lines: seq<string>): Frame {
    if lines == [] then Frame("", [])
    else AddLine(Scan(lines[..|lines| - 1]), lines[|lines| - 1])
  }

  function AddLine(f: Frame, line: string): Frame {
    if StartsWith(line, "event:") then f.(event := Trim(line[6..]))
    else if StartsWith(line, "data:") then f.(data := f.data + [TrimStart(line[5..])])
    else f
  }

  predicate Dispatched(f: Frame) {
    f.event != "" && f.data != []
  }

  function OnBlock(parse: string -> Json, st: State, block: string): State {
    var f := Scan(Lines(block));
    if Dispatched(f) then OnEvent(parse, st, f.event, Join(f.data, "\n")) else st
  }

  function OnBlocks(parse: string -> Json, st: State, blocks: seq<string>): State
    decreases |blocks|
  {
    if blocks == [] then st else OnBlocks(parse, OnBlock(parse, st, blocks[0]), blocks[1..])
  }

  /** The reader between two reads. */
  datatype Reader = Reader(buffer: string, state: State)

  function Feed(parse: string -> Json, r: Reader, chunk: string): Reader {
    Reader(Rest(r.buffer + chunk), OnBlocks(parse, r.state, Blocks(r.buffer + chunk)))
  }

  function FeedAll(parse: string -> Json, r: Reader, chunks: seq<string>): Reader
    decreases |chunks|
  {
    if chunks == [] then r else FeedAll(parse, Feed(parse, r, chunks[0]), chunks[1..])
  }

  /** The result of a stream; an unfinished block at the end is dropped. */
  function Consume(parse: string -> Json, chunks: seq<string>): State {
    FeedAll(parse, Reader("", START), chunks).state
  }

  function Flat(chunks: seq<string>): string {
    if chunks == [] then "" else chunks[0] + Flat(chunks[1..])
  }

  // ----- the split points do not matter -----

  lemma {:induction false} SplitConcat(a: string, b: string)
    ensures Blocks(a + b) == Blocks(a) + Blocks(Rest(a) + b)
    ensures Rest(a + b) == Rest(Rest(a) + b)
    decreases |a|
  {
    match FirstBreak(a)
    case None =>
    case Some(i) =>
      FirstBreakExtends(a, b);
      assert (a + b)[..i] == a[..i] && (a + b)[i + 2..] == a[i + 2..] + b;
      SplitConcat(a[i + 2..], b);
  }

  lemma {:induction false} FirstBreakExtends(a: string, b: string)
    requires FirstBreak(a).Some?
    ensures FirstBreak(a + b) == FirstBreak(a)
  {
    FirstBreakIsFirst(a);
    FirstBreakIsFirst(a + b);
    var i := FirstBreak(a).value;
    assert IsBreak(a + b, i);
    assert forall j: nat :: j < i ==> IsBreak(a + b, j) == IsBreak(a, j);
  }

  /** After a read the buffer holds no blank line: no complete block is ever left waiting. */
  lemma {:induction false} RestHasNoBreak(s: string)
    ensures FirstBreak(Rest(s)).None?
    decreases |s|
  {
    if FirstBreak(s).Some? {
      RestHasNoBreak(s[FirstBreak(s).value + 2..]);
    }
  }

  lemma {:induction false} OnBlocksConcat(parse: string -> Json, st: State, a: seq<string>, b: seq<string>)
    ensures OnBlocks(parse, st, a + b) == OnBlocks(parse, OnBlocks(parse, st, a), b)
    decreases |a|
  {
    if a == [] {
      assert a + b == b;
    } else {
      assert (a + b)[1..] == a[1..] + b;
      OnBlocksConcat(parse, OnBlock(parse, st, a[0]), a[1..], b);
    }
  }

  lemma ConcatAssociates(a: string, b: string, c: string)
    ensures (a + b) + c == a + (b + c)
  {
  }

  lemma {:induction false} HandledInTwoParts(parse: string -> Json, st: State, text: string, b: string)
    ensures OnBlocks(parse, st, Blocks(text + b))
            == OnBlocks(parse, OnBlocks(parse, st, Blocks(text)), Blocks(Rest(text) + b))
    ensures Rest(text + b) == Rest(Rest(text) + b)
  {
    SplitConcat(text, b);
    OnBlocksConcat(parse, st, Blocks(text), Blocks(Rest(text) + b));
  }

  lemma FeedConcat(parse: string -> Json, r: Reader, a: string, b: string)
    ensures Feed(parse, Feed(parse, r, a), b) == Feed(parse, r, a + b)
  {
    ConcatAssociates(r.buffer, a, b);
    HandledInTwoParts(parse, r.state, r.buffer + a, b);
  }

  lemma {:induction false} FeedAllIsFeed(parse: string -> Json, r: Reader, chunks: seq<string>)
    requires FirstBreak(r.buffer).None?
    ensures FeedAll(parse, r, chunks) == Feed(parse, r, Flat(chunks))
    decreases |chunks|
  {
    if chunks == [] {
      assert r.buffer + "" == r.buffer;
    } else {
      RestHasNoBreak(r.buffer + chunks[0]);
      FeedAllIsFeed(parse, Feed(parse, r, chunks[0]), chunks[1..]);
      FeedConcat(parse, r, chunks[0], Flat(chunks[1..]));
    }
  }

  /** However the same text is cut into chunks, the result is the same. */
  lemma {:induction false} ChunkingIsIrrelevant(parse: string -> Json, a: seq<string>, b: seq<string>)
    requires Flat(a) == Flat(b)
    ensures Consume(parse, a) == Consume(parse, b)
  {
    FeedAllIsFeed(parse, Reader("", START), a);
    FeedAllIsFeed(parse, Reader("", START), b);
  }

  // ----- what an event can change -----

  /** The answer and the list of tool runs only ever grow, and a run never changes its tool. */
  ghost predicate Grows(a: State, b: State) {
    a.Open? && b.Open? ==>
      && |a.answer| <= |b.answer| && |a.toolRuns| <= |b.toolRuns| && (a.error.Some? ==> b.error.Some?)
      && forall i :: 0 <= i < |a.toolRuns| ==> a.toolRuns[i].tool == b.toolRuns[i].tool
  }

  /** Exactly one run changes: the last one of that tool, if there is one. */
  lemma {:induction false} MarkLastLaws(runs: seq<ToolRun>, tool: string, status: string)
    ensures var r := MarkLast(runs, tool, status);
            forall i :: 0 <= i < |runs| ==>
              r[i] == if runs[i].tool == tool && (forall j :: i < j < |runs| ==> runs[j].tool != tool)
                      then ToolRun(tool, status) else runs[i]
  {
    if runs != [] && runs[|runs| - 1].tool != tool {
      MarkLastLaws(runs[..|runs| - 1], tool, status);
    }
  }

  lemma OnEventGrows(parse: string -> Json, st: State, event: string, data: string)
    ensures Grows(st, OnEvent(parse, st, event, data))
    ensures st.Thrown? ==> OnEvent(parse, st, event, data).Thrown?
  {
    if st.Open? && parse(data).Payload? {
      var p := parse(data);
      if p.tool.Some? && p.status.Some? {
        MarkLastLaws(st.toolRuns, p.tool.value, p.status.value);
      }
    }
  }

  lemma {:induction false} OnBlocksGrows(parse: string -> Json, st: State, blocks: seq<string>)
    ensures Grows(st, OnBlocks(parse, st, blocks))
    ensures st.Thrown? ==> OnBlocks(parse, st, blocks).Thrown?
    decreases |blocks|
  {
    if blocks != [] {
      var f := Scan(Lines(blocks[0]));
      OnEventGrows(parse, st, f.event, Join(f.data, "\n"));
      OnBlocksGrows(parse, OnBlock(parse, st, blocks[0]), blocks[1..]);
    }
  }

  /** More text never shortens the answer, drops a tool run, clears an error, or undoes an exception. */
  lemma LongerStreamsGrow(parse: string -> Json, chunks: seq<string>, more: seq<string>)
    ensures Grows(Consume(parse, chunks), Consume(parse, chunks + more))
    ensures Consume(parse, chunks).Thrown? ==> Consume(parse, chunks + more).Thrown?
  {
    var r := Reader("", START);
    FeedAllIsFeed(parse, r, chunks);
    FeedAllIsFeed(parse, r, chunks + more);
    FlatConcat(chunks, more);
    FeedConcat(parse, r, Flat(chunks), Flat(more));
    var mid := Feed(parse, r, Flat(chunks));
    OnBlocksGrows(parse, mid.state, Blocks(mid.buffer + Flat(more)));
  }

  lemma {:induction false} FlatConcat(a: seq<string>, b: seq<string>)
    ensures Flat(a + b) == Flat(a) + Flat(b)
    decreases |a|
  {
    if a == [] {
      assert a + b == b;
    } else {
      assert (a + b)[1..] == a[1..] + b;
      FlatConcat(a[1..], b);
    }
  }

  // ----- round trip -----

  function DataLines(data: seq<string>): seq<string> {
    if data == [] then [] else DataLines(data[..|data| - 1]) + ["data: " + data[|data| - 1]]
  }

  function FrameLines(f: Frame): seq<string> {
    ["event: " + f.event] + DataLines(f.data)
  }

  /** A frame as the server writes it. */
  function Encode(f: Frame): string {
    Join(FrameLines(f), "\n") + "\n\n"
  }

  function EncodeAll(frames: seq<Frame>): string {
    if frames == [] then "" else Encode(frames[0]) + EncodeAll(frames[1..])
  }

  function DecodeBlocks(blocks: seq<string>): seq<Frame> {
    if blocks == [] then []
    else
      var f := Scan(Lines(blocks[0]));
      (if Dispatched(f) then [f] else []) + DecodeBlocks(blocks[1..])
  }

  function Decode(s: string): seq<Frame> {
    DecodeBlocks(Blocks(s))
  }

  predicate Plain(line: string) {
    '\n' !in line
  }

  /** What the line rules can carry: a trimmed one-line event name, and data lines without leading white space. */
  predicate WellFormed(f: Frame) {
    && Dispatched(f) && Plain(f.event) && Trim(f.event) == f.event
    && forall i :: 0 <= i < |f.data| ==> Plain(f.data[i]) && TrimStart(f.data[i]) == f.data[i]
  }

  ghost predicate AllWellFormed(frames: seq<Frame>) {
    forall i :: 0 <= i < |frames| ==> WellFormed(frames[i])
  }

  predicate AllPlain(lines: seq<string>) {
    forall i :: 0 <= i < |lines| ==> Plain(lines[i])
  }

  lemma {:induction false} LinesArePlain(s: string)
    ensures AllPlain(Lines(s))
  {
    if s != "" {
      LinesArePlain(s[1..]);
    }
  }

  lemma {:induction false} PlainLine(s: string)
    requires Plain(s)
    ensures Lines(s) == [s]
  {
    if s != "" {
      PlainLine(s[1..]);
      assert [s[0]] + s[1..] == s;
    }
  }

  lemma {:induction false} LinesOfLine(line: string, rest: string)
    requires Plain(line)
    ensures Lines(line + "\n" + rest) == [line] + Lines(rest)
  {
    var s := line + "\n" + rest;
    if line == "" {
      assert s[1..] == rest;
    } else {
      assert s[1..] == line[1..] + "\n" + rest;
      LinesOfLine(line[1..], rest);
      assert [line[0]] + line[1..] == line;
      assert ([line[1..]] + Lines(rest))[1..] == Lines(rest);
    }
  }

  lemma {:induction false} LinesOfJoined(lines: seq<string>)
    requires lines != [] && AllPlain(lines)
    ensures Lines(Join(lines, "\n")) == lines
  {
    if |lines| == 1 {
      PlainLine(lines[0]);
    } else {
      LinesOfJoined(lines[1..]);
      LinesOfLine(lines[0], Join(lines[1..], "\n"));
    }
  }

  /** Joined non-empty lines hold no blank line, and neither start nor end with a newline. */
  lemma {:induction false} JoinedHasNoBreak(lines: seq<string>)
    requires lines != [] && AllPlain(lines) && forall i :: 0 <= i < |lines| ==> lines[i] != ""
    ensures var s := Join(lines, "\n");
            s != "" && s[0] != '\n' && s[|s| - 1] != '\n' && forall i: nat :: !IsBreak(s, i)
  {
    if |lines| > 1 {
      JoinedHasNoBreak(lines[1..]);
      var s, rest, n := Join(lines, "\n"), Join(lines[1..], "\n"), |lines[0]|;
      assert s[n + 1..] == rest;
      forall i: nat ensures !IsBreak(s, i) {
        assert i > n ==> IsBreak(s, i) == IsBreak(rest, i - n - 1);
      }
    }
  }

  lemma {:induction false} BlocksOfBlock(block: string, rest: string)
    requires block != "" && block[|block| - 1] != '\n' && forall i: nat :: !IsBreak(block, i)
    ensures Blocks(block + "\n\n" + rest) == [block] + Blocks(rest)
    ensures Rest(block + "\n\n" + rest) == Rest(rest)
  {
    var s := block + "\n\n" + rest;
    FirstBreakIsFirst(s);
    assert IsBreak(s, |block|);
    assert forall i: nat :: i < |block| ==> IsBreak(s, i) == IsBreak(block, i);
    assert FirstBreak(s) == Some(|block|);
    assert s[..|block|] == block && s[|block| + 2..] == rest;
  }

  lemma {:induction false} DataLinesLaws(data: seq<string>)
    requires AllPlain(data)
    ensures AllPlain(DataLines(data)) && forall i :: 0 <= i < |DataLines(data)| ==> DataLines(data)[i] != ""
  {
    if data != [] {
      DataLinesLaws(data[..|data| - 1]);
    }
  }

  lemma {:induction false} SkipSpace(s: string)
    ensures TrimStart(" " + s) == TrimStart(s)
  {
    assert (" " + s)[1..] == s;
  }

  lemma EventLine(f: Frame, event: string)
    ensures AddLine(f, "event: " + event) == f.(event := Trim(event))
  {
    assert ("event: " + event)[..6] == "event:";
    assert ("event: " + event)[6..] == " " + event;
    SkipSpace(event);
  }

  lemma {:induction false} DataLine(f: Frame, line: string)
    ensures AddLine(f, "data: " + line) == f.(data := f.data + [TrimStart(line)])
  {
    assert ("data: " + line)[..5] == "data:" && ("data: " + line)[0] == 'd';
    assert ("data: " + line)[5..] == " " + line;
    SkipSpace(line);
  }

  lemma {:induction false} ScanSnoc(lines: seq<string>, line: string)
    ensures Scan(lines + [line]) == AddLine(Scan(lines), line)
  {
    assert (lines + [line])[..|lines|] == lines;
  }

  lemma ScanOfEvent(event: string)
    requires Trim(event) == event
    ensures Scan(["event: " + event]) == Frame(event, [])
  {
    EventLine(Frame("", []), event);
    assert ["event: " + event][..0] == [];
  }

  lemma {:induction false} ScanOfDataLines(event: string, data: seq<string>)
    requires Trim(event) == event && forall i :: 0 <= i < |data| ==> TrimStart(data[i]) == data[i]
    ensures Scan(["event: " + event] + DataLines(data)) == Frame(event, data)
  {
    hide Scan, AddLine, Trim, TrimStart;
    if data == [] {
      ScanOfEvent(event);
      assert ["event: " + event] + DataLines(data) == ["event: " + event];
    } else {
      var front, line := data[..|data| - 1], data[|data| - 1];
      ScanOfDataLines(event, front);
      var before := ["event: " + event] + DataLines(front);
      ScanSnoc(before, "data: " + line);
      assert ["event: " + event] + DataLines(data) == before + ["data: " + line];
      DataLine(Frame(event, front), line);
      assert data == front + [line];
    }
  }

  lemma {:induction false} EncodedBlock(f: Frame, rest: string)
    requires WellFormed(f)
    ensures Scan(Lines(Join(FrameLines(f), "\n"))) == f
    ensures Blocks(Encode(f) + rest) == [Join(FrameLines(f), "\n")] + Blocks(rest)
  {
    DataLinesLaws(f.data);
    LinesOfJoined(FrameLines(f));
    ScanOfDataLines(f.event, f.data);
    JoinedHasNoBreak(FrameLines(f));
    BlocksOfBlock(Join(FrameLines(f), "\n"), rest);
    assert Encode(f) + rest == Join(FrameLines(f), "\n") + "\n\n" + rest;
  }

  /** An encoded frame in front of a stream is the first frame decoded. */
  lemma DecodeFirst(f: Frame, rest: string)
    requires WellFormed(f)
    ensures Decode(Encode(f) + rest) == [f] + Decode(rest)
  {
    EncodedBlock(f, rest);
    assert ([Join(FrameLines(f), "\n")] + Blocks(rest))[1..] == Blocks(rest);
  }

  lemma {:induction false} ScanIsWellFormed(lines: seq<string>)
    requires AllPlain(lines)
    ensures Dispatched(Scan(lines)) ==> WellFormed(Scan(lines))
    ensures Plain(Scan(lines).event) && Trim(Scan(lines).event) == Scan(lines).event
    ensures forall d :: d in Scan(lines).data ==> Plain(d) && TrimStart(d) == d
  {
    if lines != [] {
      var line := lines[|lines| - 1];
      ScanIsWellFormed(lines[..|lines| - 1]);
      if StartsWith(line, "event:") {
        TrimIdempotent(line[6..]);
        TrimKeeps(line[6..], '\n');
      } else if StartsWith(line, "data:") {
        TrimStartStops(line[5..]);
        TrimKeeps(line[5..], '\n');
      }
    }
  }

  /** Only well-formed frames ever come out of the reader. */
  lemma {:induction false} DecodedAreWellFormed(blocks: seq<string>)
    ensures AllWellFormed(DecodeBlocks(blocks))
  {
    if blocks != [] {
      LinesArePlain(blocks[0]);
      ScanIsWellFormed(Lines(blocks[0]));
      DecodedAreWellFormed(blocks[1..]);
    }
  }

  lemma {:induction false} DecodeEncoded(frames: seq<Frame>, tail: string)
    requires AllWellFormed(frames) && FirstBreak(tail).None?
    ensures Decode(EncodeAll(frames) + tail) == frames
  {
    if frames == [] {
      assert EncodeAll(frames) + tail == tail;
    } else {
      DecodeEncoded(frames[1..], tail);
      DecodeFirst(frames[0], EncodeAll(frames[1..]) + tail);
      ConcatAssociates(Encode(frames[0]), EncodeAll(frames[1..]), tail);
      assert [frames[0]] + frames[1..] == frames;
    }
  }

  /** Frames survive the trip exactly when all of them are well formed. */
  lemma {:induction false} RoundTrip(frames: seq<Frame>)
    ensures Decode(EncodeAll(frames)) == frames <==> AllWellFormed(frames)
  {
    DecodedAreWellFormed(Blocks(EncodeAll(frames)));
    if AllWellFormed(frames) {
      DecodeEncoded(frames, "");
      assert EncodeAll(frames) + "" == EncodeAll(frames);
    }
  }

  function OnFrames(parse: string -> Json, st: State, frames: seq<Frame>): State
    decreases |frames|
  {
    if frames == [] then st
    else OnFrames(parse, OnEvent(parse, st, frames[0].event, Join(frames[0].data, "\n")), frames[1..])
  }

  lemma {:induction false} BlocksAreFrames(parse: string -> Json, st: State, blocks: seq<string>)
    ensures OnBlocks(parse, st, blocks) == OnFrames(parse, st, DecodeBlocks(blocks))
    decreases |blocks|
  {
    if blocks != [] {
      BlocksAreFrames(parse, OnBlock(parse, st, blocks[0]), blocks[1..]);
      var f := Scan(Lines(blocks[0]));
      assert Dispatched(f) ==> ([f] + DecodeBlocks(blocks[1..]))[1..] == DecodeBlocks(blocks[1..]);
      assert !Dispatched(f) ==> [] + DecodeBlocks(blocks[1..]) == DecodeBlocks(blocks[1..]);
    }
  }

  /**
   * The events the server encoded, in whatever chunks they arrive and whatever unfinished block follows them, are the
   * events handled.
   */
  lemma {:induction false} EncodedEventsAreHandled(
      parse: string -> Json, frames: seq<Frame>, tail: string, chunks: seq<string>)
    requires AllWellFormed(frames) && FirstBreak(tail).None? && Flat(chunks) == EncodeAll(frames) + tail
    ensures Consume(parse, chunks) == OnFrames(parse, START, frames)
  {
    FeedAllIsFeed(parse, Reader("", START), chunks);
    assert "" + Flat(chunks) == Flat(chunks);
    BlocksAreFrames(parse, START, Blocks(Flat(chunks)));
    DecodeEncoded(frames, tail);
  }

  /** A line that ends in CR LF, as the standard allows. */
  function CrlfText(lines: seq<string>): string {
    if lines == [] then "" else lines[0] + "\r\n" + CrlfText(lines[1..])
  }

  lemma {:induction false} CrlfHasNoBreak(lines: seq<string>)
    requires AllPlain(lines)
    ensures forall i: nat :: !IsBreak(CrlfText(lines), i)
    ensures CrlfText(lines) == "" || CrlfText(lines)[0] != '\n'
  {
    if lines != [] {
      CrlfHasNoBreak(lines[1..]);
      var s, rest, n := CrlfText(lines), CrlfText(lines[1..]), |lines[0]|;
      assert s[n + 2..] == rest;
      forall i: nat ensures !IsBreak(s, i) {
        assert i > n + 1 ==> IsBreak(s, i) == IsBreak(rest, i - n - 2);
      }
    }
  }

  /** The reader knows only the bare newline: a stream whose lines end in CR LF yields an empty result. */
  lemma {:induction false} CrlfStreamIsIgnored(parse: string -> Json, lines: seq<string>, chunks: seq<string>)
    requires AllPlain(lines) && Flat(chunks) == CrlfText(lines)
    ensures Consume(parse, chunks) == START
  {
    CrlfHasNoBreak(lines);
    FirstBreakIsFirst(CrlfText(lines));
    FeedAllIsFeed(parse, Reader("", START), chunks);
    assert "" + Flat(chunks) == Flat(chunks);
  }

  // ----- the loops -----

  method IndexOfBreak(s: string) returns (r: Option<nat>)
    ensures r == FirstBreak(s)
  {
    FirstBreakIsFirst(s);
    for i := 0 to |s|
      invariant forall j: nat :: j < i ==> !IsBreak(s, j)
    {
      if IsBreak(s, i) {
        return Some(i);
      }
    }
    return None;
  }

  method ReadBlock(block: string) returns (event: string, data: seq<string>)
    ensures Frame(event, data) == Scan(Lines(block))
  {
    event, data := "", [];
    var lines := Lines(block);
    for i := 0 to |lines|
      invariant Frame(event, data) == Scan(lines[..i])
    {
      assert lines[..i + 1][..i] == lines[..i];
      if StartsWith(lines[i], "event:") {
        event := Trim(lines[i][6..]);
      } else if StartsWith(lines[i], "data:") {
        data := data + [TrimStart(lines[i][5..])];
      }
    }
    assert lines[..|lines|] == lines;
  }

  /** The framing loop after one read; an exception leaves it at once. */
  method Drain(parse: string -> Json, text: string, st: State) returns (rest: string, st': State)
    ensures st' == OnBlocks(parse, st, Blocks(text))
    ensures st'.Open? ==> rest == Rest(text)
  {
    rest, st' := text, st;
    var idx := IndexOfBreak(rest);
    while idx.Some?
      invariant idx == FirstBreak(rest) && Rest(rest) == Rest(text)
      invariant OnBlocks(parse, st', Blocks(rest)) == OnBlocks(parse, st, Blocks(text))
      decreases |rest|
    {
      var block := rest[..idx.value];
      rest := rest[idx.value + 2..];
      var event, data := ReadBlock(block);
      if event != "" && data != [] {
        st' := OnEvent(parse, st', event, Join(data, "\n"));
        if st'.Thrown? {
          OnBlocksGrows(parse, st', Blocks(rest));
          return;
        }
      }
      idx := IndexOfBreak(rest);
    }
  }

  method ConsumeSse(parse: string -> Json, chunks: seq<string>) returns (result: State)
    ensures result == Consume(parse, chunks)
  {
    result := START;
    var buffer := "";
    for i := 0 to |chunks|
      invariant FeedAll(parse, Reader(buffer, result), chunks[i..]) == FeedAll(parse, Reader("", START), chunks)
    {
      assert chunks[i..][1..] == chunks[i + 1..];
      ghost var r := Reader(buffer, result);
      buffer, result := Drain(parse, buffer + chunks[i], result);
      if result.Thrown? {
        ThrownStays(parse, Feed(parse, r, chunks[i]), chunks[i + 1..]);
        return;
      }
    }
  }

  lemma {:induction false} ThrownStays(parse: string -> Json, r: Reader, chunks: seq<string>)
    requires r.state.Thrown?
    ensures FeedAll(parse, r, chunks).state.Thrown?
    decreases |chunks|
  {
    if chunks != [] {
      OnBlocksGrows(parse, r.state, Blocks(r.buffer + chunks[0]));
      ThrownStays(parse, Feed(parse, r, chunks[0]), chunks[1..]);
    }
  }
}
