/**
 * The event reader against its documentation, which says that it reads until a done or error event. It does not stop
 * there; this module says exactly when that makes no difference.
 */
module SseStopping {
  import opened Sequences
  import opened Text
  import opened SseReader

  type Parser = string -> Json

  predicate IsStop(f: Frame) {
    f.event in ["done", "error"]
  }

  /** The frames up to the first done or error event, that one included. */
  function Until(frames: seq<Frame>): (r: seq<Frame>)
    ensures |r| <= |frames| && r == frames[..|r|]
  {
    if frames == [] then []
    else if IsStop(frames[0]) then [frames[0]]
    else [frames[0]] + Until(frames[1..])
  }

  function After(frames: seq<Frame>): seq<Frame> {
    frames[|Until(frames)|..]
  }

  // ----- what one frame does -----

  function Handle(parse: Parser, st: State, f: Frame): State {
    OnEvent(parse, st, f.event, Join(f.data, "\n"))
  }

  /** What is read from a frame; one without data counts as unreadable. */
  function Read(parse: Parser, f: Frame): Json {
    var data := Join(f.data, "\n");
    if Trim(data) == "" then Malformed else parse(data)
  }

  predicate Throws(parse: Parser, f: Frame) {
    Read(parse, f).Null? && f.event in ["token", "tool_start", "tool_end", "answer", "error"]
  }

  /** A token that is not empty, or an answer longer than this one. */
  predicate Adds(parse: Parser, f: Frame, answer: string) {
    var p := Read(parse, f);
    && p.Payload? && p.content.Some?
    && ((f.event == "token" && p.content.value != "") || (f.event == "answer" && |p.content.value| > |answer|))
  }

  predicate Starts(parse: Parser, f: Frame) {
    var p := Read(parse, f);
    p.Payload? && f.event == "tool_start" && OrElse(p.tool, "") !in ["", "CHAT"]
  }

  function Mark(parse: Parser, tool: string): Frame -> Option<string> {
    (f: Frame) =>
      var p := Read(parse, f);
      if p.Payload? && f.event == "tool_end" && p.tool == Some(tool) && OrElse(p.status, "") != ""
      then p.status else None
  }

  function Citing(parse: Parser): Frame -> Option<seq<Citation>> {
    (f: Frame) =>
      var p := Read(parse, f);
      if p.Payload? && f.event == "answer" then p.citations else None
  }

  function Failing(parse: Parser): Frame -> Option<Failure> {
    (f: Frame) =>
      var p := Read(parse, f);
      if p.Payload? && f.event == "error"
      then Some(Failure(OrElse(p.code, "UNKNOWN"), OrElse(p.message, "Unknown error"))) else None
  }

  /** The last thing the frames write, if any writes one. */
  function Last<T>(frames: seq<Frame>, written: Frame -> Option<T>): Option<T> {
    if frames == [] then None
    else
      match Last(frames[1..], written)
      case Some(v) => Some(v)
      case None => written(frames[0])
  }

  lemma LastOfOne<T>(f: Frame, written: Frame -> Option<T>)
    ensures Last([f], written) == written(f)
  {
    assert [f][1..] == [];
  }

  function Over<T>(was: T, now: Option<T>): T {
    match now case Some(v) => v case None => was
  }

  /** No later run of the same tool. */
  predicate IsLastOfTool(runs: seq<ToolRun>, i: nat)
    requires i < |runs|
  {
    forall j :: i < j < |runs| ==> runs[j].tool != runs[i].tool
  }

  function Marked(parse: Parser, runs: seq<ToolRun>, frames: seq<Frame>, i: nat): ToolRun
    requires i < |runs|
  {
    if IsLastOfTool(runs, i)
    then ToolRun(runs[i].tool, Over(runs[i].status, Last(frames, Mark(parse, runs[i].tool)))) else runs[i]
  }

  lemma HandleWrites(parse: Parser, st: State, f: Frame)
    requires st.Open?
    ensures Handle(parse, st, f).Thrown? <==> Throws(parse, f)
    ensures !Throws(parse, f) ==>
              && Handle(parse, st, f).citations == Over(st.citations, Citing(parse)(f))
              && Handle(parse, st, f).error == (if Failing(parse)(f).Some? then Failing(parse)(f) else st.error)
  {
  }

  lemma HandleAnswers(parse: Parser, st: State, f: Frame)
    requires st.Open? && !Throws(parse, f)
    ensures var r := Handle(parse, st, f);
            if Adds(parse, f, st.answer) then |r.answer| > |st.answer| else r.answer == st.answer
  {
  }

  lemma HandleRuns(parse: Parser, st: State, f: Frame)
    requires st.Open? && !Throws(parse, f)
    ensures var r := Handle(parse, st, f).toolRuns;
            if Starts(parse, f) then |r| == |st.toolRuns| + 1
            else |r| == |st.toolRuns| && forall i :: 0 <= i < |r| ==> r[i] == Marked(parse, st.toolRuns, [f], i)
  {
    var p, r := Read(parse, f), Handle(parse, st, f).toolRuns;
    if p.Payload? && f.event == "tool_end" && p.tool.Some? && p.status.Some? {
      MarkLastLaws(st.toolRuns, p.tool.value, p.status.value);
    }
    if !Starts(parse, f) {
      forall i | 0 <= i < |r| ensures r[i] == Marked(parse, st.toolRuns, [f], i) {
        LastOfOne(f, Mark(parse, st.toolRuns[i].tool));
      }
    }
  }

  lemma {:induction false} OnFramesGrows(parse: Parser, st: State, frames: seq<Frame>)
    ensures Grows(st, OnFrames(parse, st, frames))
    ensures st.Thrown? ==> OnFrames(parse, st, frames).Thrown?
    decreases |frames|
  {
    if frames != [] {
      OnEventGrows(parse, st, frames[0].event, Join(frames[0].data, "\n"));
      OnFramesGrows(parse, Handle(parse, st, frames[0]), frames[1..]);
    }
  }

  // ----- what all later frames together do -----

  lemma {:induction false} ThrowsExactly(parse: Parser, st: State, frames: seq<Frame>)
    requires st.Open?
    ensures OnFrames(parse, st, frames).Open? <==> forall i :: 0 <= i < |frames| ==> !Throws(parse, frames[i])
    decreases |frames|
  {
    if frames != [] {
      hide OnEvent, Throws;
      var f, rest := frames[0], frames[1..];
      HandleWrites(parse, st, f);
      OnFramesGrows(parse, Handle(parse, st, f), rest);
      if !Throws(parse, f) {
        ThrowsExactly(parse, Handle(parse, st, f), rest);
      }
      assert forall i :: 0 <= i < |rest| ==> rest[i] == frames[i + 1];
      assert forall i :: 0 < i < |frames| ==> frames[i] == rest[i - 1];
    }
  }

  /** The answer stays what it is exactly when no later frame is a non-empty token or a longer answer. */
  lemma {:induction false} AnswerStaysExactly(parse: Parser, st: State, frames: seq<Frame>)
    requires st.Open? && OnFrames(parse, st, frames).Open?
    ensures OnFrames(parse, st, frames).answer == st.answer
            <==> forall i :: 0 <= i < |frames| ==> !Adds(parse, frames[i], st.answer)
    decreases |frames|
  {
    if frames != [] {
      hide OnEvent, Adds, Throws;
      var f, rest := frames[0], frames[1..];
      var st' := Handle(parse, st, f);
      OnFramesGrows(parse, st', rest);
      HandleWrites(parse, st, f);
      HandleAnswers(parse, st, f);
      AnswerStaysExactly(parse, st', rest);
      assert forall i :: 0 <= i < |rest| ==> rest[i] == frames[i + 1];
      assert forall i :: 0 < i < |frames| ==> frames[i] == rest[i - 1];
    }
  }

  lemma {:induction false} LastWrites(parse: Parser, st: State, frames: seq<Frame>)
    requires st.Open? && OnFrames(parse, st, frames).Open?
    ensures OnFrames(parse, st, frames).citations == Over(st.citations, Last(frames, Citing(parse)))
    ensures OnFrames(parse, st, frames).error
         == if Last(frames, Failing(parse)).Some? then Last(frames, Failing(parse)) else st.error
    decreases |frames|
  {
    if frames != [] {
      hide OnEvent, Throws;
      OnFramesGrows(parse, Handle(parse, st, frames[0]), frames[1..]);
      HandleWrites(parse, st, frames[0]);
      LastWrites(parse, Handle(parse, st, frames[0]), frames[1..]);
    }
  }

  lemma {:induction false} RunsAfter(parse: Parser, st: State, frames: seq<Frame>)
    requires st.Open? && OnFrames(parse, st, frames).Open?
    ensures var r := OnFrames(parse, st, frames).toolRuns;
            if exists i :: 0 <= i < |frames| && Starts(parse, frames[i]) then |r| > |st.toolRuns|
            else |r| == |st.toolRuns| && forall i :: 0 <= i < |r| ==> r[i] == Marked(parse, st.toolRuns, frames, i)
    decreases |frames|
  {
    if frames != [] {
      hide OnEvent, Starts, Throws, Marked;
      var f, rest := frames[0], frames[1..];
      var st' := Handle(parse, st, f);
      OnFramesGrows(parse, st', rest);
      HandleWrites(parse, st, f);
      HandleRuns(parse, st, f);
      RunsAfter(parse, st', rest);
      StartsInRest(parse, frames);
      if !Starts(parse, f) {
        forall i | 0 <= i < |st.toolRuns|
          ensures Marked(parse, st'.toolRuns, rest, i) == Marked(parse, st.toolRuns, frames, i)
        {
          MarkedInTwoParts(parse, st.toolRuns, st'.toolRuns, frames, i);
        }
      }
    } else {
      assert forall i :: 0 <= i < |st.toolRuns| ==> Marked(parse, st.toolRuns, frames, i) == st.toolRuns[i];
    }
  }

  lemma StartsInRest(parse: Parser, frames: seq<Frame>)
    requires frames != []
    ensures (exists i :: 0 <= i < |frames| && Starts(parse, frames[i]))
            <==> Starts(parse, frames[0]) || exists i :: 0 <= i < |frames[1..]| && Starts(parse, frames[1..][i])
  {
    hide Starts;
    var rest := frames[1..];
    assert forall i :: 0 <= i < |rest| ==> rest[i] == frames[i + 1];
    assert forall i :: 0 < i < |frames| ==> frames[i] == rest[i - 1];
  }

  lemma MarkedInTwoParts(parse: Parser, runs: seq<ToolRun>, runs': seq<ToolRun>, frames: seq<Frame>, i: nat)
    requires frames != [] && i < |runs| == |runs'|
    requires forall j :: 0 <= j < |runs| ==> runs'[j] == Marked(parse, runs, [frames[0]], j)
    ensures Marked(parse, runs', frames[1..], i) == Marked(parse, runs, frames, i)
  {
    assert forall j :: 0 <= j < |runs| ==> runs'[j].tool == runs[j].tool;
    assert IsLastOfTool(runs', i) == IsLastOfTool(runs, i);
    LastOfOne(frames[0], Mark(parse, runs[i].tool));
  }

  // ----- the exact condition -----

  /** No later frame changes the result for good. */
  ghost predicate IsHarmless(parse: Parser, st: State, frames: seq<Frame>)
    requires st.Open?
  {
    && (forall i :: 0 <= i < |frames| ==> !Throws(parse, frames[i]))
    && (forall i :: 0 <= i < |frames| ==> !Adds(parse, frames[i], st.answer))
    && (forall i :: 0 <= i < |frames| ==> !Starts(parse, frames[i]))
    && Last(frames, Citing(parse)) in [None, Some(st.citations)]
    && Last(frames, Failing(parse)) in [None, st.error]
    && forall i :: 0 <= i < |st.toolRuns| && IsLastOfTool(st.toolRuns, i) ==>
         Last(frames, Mark(parse, st.toolRuns[i].tool)) in [None, Some(st.toolRuns[i].status)]
  }

  lemma {:induction false} RunsStayExactly(parse: Parser, st: State, frames: seq<Frame>)
    requires st.Open? && OnFrames(parse, st, frames).Open?
    ensures OnFrames(parse, st, frames).toolRuns == st.toolRuns
            <==> && (forall i :: 0 <= i < |frames| ==> !Starts(parse, frames[i]))
                 && forall i :: 0 <= i < |st.toolRuns| && IsLastOfTool(st.toolRuns, i) ==>
                      Last(frames, Mark(parse, st.toolRuns[i].tool)) in [None, Some(st.toolRuns[i].status)]
  {
    hide OnFrames, Starts;
    RunsAfter(parse, st, frames);
    MarksStay(parse, st.toolRuns, frames);
  }

  lemma MarksStay(parse: Parser, runs: seq<ToolRun>, frames: seq<Frame>)
    ensures (forall i :: 0 <= i < |runs| ==> Marked(parse, runs, frames, i) == runs[i])
            <==> forall i :: 0 <= i < |runs| && IsLastOfTool(runs, i) ==>
                   Last(frames, Mark(parse, runs[i].tool)) in [None, Some(runs[i].status)]
  {
    hide Last;
    forall i | 0 <= i < |runs|
      ensures Marked(parse, runs, frames, i) == runs[i]
              <==> (IsLastOfTool(runs, i) ==> Last(frames, Mark(parse, runs[i].tool)) in [None, Some(runs[i].status)])
    {
    }
  }

  /** Later frames leave the whole result as it is exactly when they are harmless. */
  lemma {:induction false} ResultStaysExactly(parse: Parser, st: State, frames: seq<Frame>)
    requires st.Open?
    ensures OnFrames(parse, st, frames) == st <==> IsHarmless(parse, st, frames)
  {
    ThrowsExactly(parse, st, frames);
    if OnFrames(parse, st, frames).Open? {
      hide OnFrames, Starts, Adds, Throws, Last;
      AnswerStaysExactly(parse, st, frames);
      LastWrites(parse, st, frames);
      RunsStayExactly(parse, st, frames);
    }
  }

  lemma {:induction false} OnFramesConcat(parse: Parser, st: State, a: seq<Frame>, b: seq<Frame>)
    ensures OnFrames(parse, st, a + b) == OnFrames(parse, OnFrames(parse, st, a), b)
    decreases |a|
  {
    if a == [] {
      assert a + b == b;
    } else {
      assert (a + b)[1..] == a[1..] + b;
      OnFramesConcat(parse, Handle(parse, st, a[0]), a[1..], b);
    }
  }

  /** Any text is handled as the frames decoded from it. */
  lemma {:induction false} ConsumeIsOnFrames(parse: Parser, chunks: seq<string>)
    ensures Consume(parse, chunks) == OnFrames(parse, START, Decode(Flat(chunks)))
  {
    FeedAllIsFeed(parse, Reader("", START), chunks);
    assert "" + Flat(chunks) == Flat(chunks);
    BlocksAreFrames(parse, START, Blocks(Flat(chunks)));
  }

  /** What the documentation promises: the result of the events up to the first done or error event. */
  function Promised(parse: Parser, chunks: seq<string>): State {
    OnFrames(parse, START, Until(Decode(Flat(chunks))))
  }

  /** The events after it. */
  function Late(chunks: seq<string>): seq<Frame> {
    After(Decode(Flat(chunks)))
  }

  lemma ConsumeInTwoParts(parse: Parser, chunks: seq<string>)
    ensures Consume(parse, chunks) == OnFrames(parse, Promised(parse, chunks), Late(chunks))
  {
    var frames := Decode(Flat(chunks));
    ConsumeIsOnFrames(parse, chunks);
    assert frames == Until(frames) + After(frames);
    OnFramesConcat(parse, START, Until(frames), After(frames));
  }

  /**
   * For every stream: the reader gives the result of the events up to the first done or error event if and only if an
   * exception ended the read by then or the events after it are harmless.
   */
  lemma StopsInEffectExactly(parse: Parser, chunks: seq<string>)
    ensures Consume(parse, chunks) == Promised(parse, chunks)
            <==> Promised(parse, chunks).Thrown? || IsHarmless(parse, Promised(parse, chunks), Late(chunks))
  {
    ConsumeInTwoParts(parse, chunks);
    var st := Promised(parse, chunks);
    if st.Open? {
      ResultStaysExactly(parse, st, Late(chunks));
    } else {
      OnFramesGrows(parse, st, Late(chunks));
    }
  }

  /** Of a read that ends without an exception, the answer alone. */
  lemma AnswerIsPromisedExactly(parse: Parser, chunks: seq<string>)
    requires Consume(parse, chunks).Open?
    ensures Promised(parse, chunks).Open?
    ensures Consume(parse, chunks).answer == Promised(parse, chunks).answer
            <==> forall i :: 0 <= i < |Late(chunks)| ==> !Adds(parse, Late(chunks)[i], Promised(parse, chunks).answer)
  {
    ConsumeInTwoParts(parse, chunks);
    OnFramesGrows(parse, Promised(parse, chunks), Late(chunks));
    AnswerStaysExactly(parse, Promised(parse, chunks), Late(chunks));
  }

  const LATE := "{\"content\":\"late\"}"

  function LateToken(): seq<Frame> {
    [Frame("done", ["{}"]), Frame("token", [LATE])]
  }

  /** A token after the done event: the promised answer is empty, the reader's is not. */
  lemma LateTokenIsAdded(parse: Parser)
    requires parse(LATE).Payload? && parse(LATE).content == Some("late")
    ensures Promised(parse, [EncodeAll(LateToken())]) == START
    ensures Consume(parse, [EncodeAll(LateToken())]) == START.(answer := "late")
  {
    hide EncodeAll, Decode, Consume, OnEvent, Join, Trim;
    var text, frames := EncodeAll(LateToken()), LateToken();
    LateTokenIsDecoded();
    assert Flat([text]) == text by { assert [text][1..] == []; }
    assert Until(frames) == [frames[0]] && After(frames) == [frames[1]];
    ConsumeInTwoParts(parse, [text]);
    OneFrame(parse, START, frames[0]);
    OneFrame(parse, START, frames[1]);
    DoneAndLateToken(parse);
  }

  lemma DoneAndLateToken(parse: Parser)
    requires parse(LATE).Payload? && parse(LATE).content == Some("late")
    ensures Handle(parse, START, Frame("done", ["{}"])) == START
    ensures Handle(parse, START, Frame("token", [LATE])) == START.(answer := "late")
  {
    assert Trim(LATE) == LATE;
    assert Join([LATE], "\n") == LATE;
  }

  lemma {:induction false} OneFrame(parse: Parser, st: State, f: Frame)
    ensures OnFrames(parse, st, [f]) == Handle(parse, st, f)
  {
    assert [f][1..] == [];
  }

  lemma LateTokenIsDecoded()
    ensures Decode(EncodeAll(LateToken())) == LateToken()
  {
    hide EncodeAll, Decode;
    assert Trim("done") == "done" && Trim("token") == "token";
    assert TrimStart("{}") == "{}" && TrimStart(LATE) == LATE;
    RoundTrip(LateToken());
  }
}
