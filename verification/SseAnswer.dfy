/** What the event reader makes of a whole stream: the answer it puts together, and the tool runs it lists. */
module SseAnswer {
  import opened Sequences
  import opened SseReader
  import opened SseStopping

  /** What a frame adds to the answer: the content of a token, nothing otherwise. */
  function TokenText(parse: Parser, f: Frame): string {
    var p := Read(parse, f);
    if f.event == "token" && p.Payload? && p.content.Some? then p.content.value else ""
  }

  /** The contents of the tokens among some frames, in order. */
  function Tokens(parse: Parser, frames: seq<Frame>): string {
    if frames == [] then ""
    else Tokens(parse, frames[..|frames| - 1]) + TokenText(parse, frames[|frames| - 1])
  }

  /** The whole answer an answer event brings. */
  function FullAnswer(parse: Parser, f: Frame): Option<string> {
    var p := Read(parse, f);
    if f.event == "answer" && p.Payload? then p.content else None
  }

  /** The answer of the stream so far. */
  function AnswerAt(parse: Parser, frames: seq<Frame>): string {
    match OnFrames(parse, START, frames)
    case Open(answer, _, _, _) => answer
    case Thrown => ""
  }

  /**
   * An answer is what the last answer event that was longer than the answer before it brought, or the empty text if
   * there was none, followed by the contents of the later tokens in order; `k` frames lead up to and include that
   * event.
   */
  ghost predicate IsPutTogether(parse: Parser, frames: seq<Frame>, k: nat, answer: string) {
    && k <= |frames|
    && (if k == 0 then answer == Tokens(parse, frames)
        else
          && FullAnswer(parse, frames[k - 1]).Some?
          && |FullAnswer(parse, frames[k - 1]).value| > |AnswerAt(parse, frames[..k - 1])|
          && answer == FullAnswer(parse, frames[k - 1]).value + Tokens(parse, frames[k..]))
    && forall i :: k <= i < |frames| && FullAnswer(parse, frames[i]).Some? ==>
         |FullAnswer(parse, frames[i]).value| <= |AnswerAt(parse, frames[..i])|
  }

  lemma FrameAnswers(parse: Parser, st: State, f: Frame)
    requires st.Open? && Handle(parse, st, f).Open?
    ensures Handle(parse, st, f).answer
         == match FullAnswer(parse, f)
            case Some(full) => if |full| > |st.answer| then full else st.answer
            case None => st.answer + TokenText(parse, f)
  {
  }

  lemma {:induction false} OnFramesSnoc(parse: Parser, st: State, frames: seq<Frame>)
    requires frames != []
    ensures OnFrames(parse, st, frames)
         == Handle(parse, OnFrames(parse, st, frames[..|frames| - 1]), frames[|frames| - 1])
  {
    var front, last := frames[..|frames| - 1], frames[|frames| - 1];
    assert frames == front + [last];
    OnFramesConcat(parse, st, front, [last]);
    OneFrame(parse, OnFrames(parse, st, front), last);
  }

  lemma {:induction false} FrontIsOpen(parse: Parser, frames: seq<Frame>)
    requires frames != [] && OnFrames(parse, START, frames).Open?
    ensures OnFrames(parse, START, frames[..|frames| - 1]).Open?
  {
    OnFramesSnoc(parse, START, frames);
  }

  lemma TakesOver(parse: Parser, frames: seq<Frame>)
    requires frames != [] && FullAnswer(parse, frames[|frames| - 1]).Some?
    requires |FullAnswer(parse, frames[|frames| - 1]).value| > |AnswerAt(parse, frames[..|frames| - 1])|
    ensures IsPutTogether(parse, frames, |frames|, FullAnswer(parse, frames[|frames| - 1]).value)
  {
    hide AnswerAt, FullAnswer;
    assert frames[|frames|..] == [];
  }

  lemma GoesOn(parse: Parser, frames: seq<Frame>, k: nat, answer: string)
    requires frames != [] && IsPutTogether(parse, frames[..|frames| - 1], k, answer)
    requires FullAnswer(parse, frames[|frames| - 1]).Some? ==>
               |FullAnswer(parse, frames[|frames| - 1]).value| <= |AnswerAt(parse, frames[..|frames| - 1])|
    ensures IsPutTogether(parse, frames, k, answer + TokenText(parse, frames[|frames| - 1]))
  {
    hide AnswerAt, FullAnswer, TokenText;
    var n := |frames| - 1;
    var front := frames[..n];
    forall i | k <= i < |frames| && FullAnswer(parse, frames[i]).Some?
      ensures |FullAnswer(parse, frames[i]).value| <= |AnswerAt(parse, frames[..i])|
    {
      assert i < n ==> front[i] == frames[i] && front[..i] == frames[..i];
    }
    assert frames[k..][..n - k] == front[k..];
    assert k > 0 ==> front[..k - 1] == frames[..k - 1];
  }

  /** The answer of every stream that ends without an exception is put together that way. */
  lemma {:induction false} AnswerIsPutTogether(parse: Parser, frames: seq<Frame>) returns (k: nat)
    requires OnFrames(parse, START, frames).Open?
    ensures IsPutTogether(parse, frames, k, OnFrames(parse, START, frames).answer)
  {
    hide FullAnswer, TokenText, Handle;
    if frames == [] {
      k := 0;
    } else {
      var front, last := frames[..|frames| - 1], frames[|frames| - 1];
      var st := OnFrames(parse, START, front);
      FrontIsOpen(parse, frames);
      OnFramesSnoc(parse, START, frames);
      FrameAnswers(parse, st, last);
      if FullAnswer(parse, last).Some? && |FullAnswer(parse, last).value| > |st.answer| {
        TakesOver(parse, frames);
        k := |frames|;
      } else {
        k := AnswerIsPutTogether(parse, front);
        GoesOn(parse, frames, k, st.answer);
        NoTokenInAnswer(parse, last);
      }
    }
  }

  lemma NoTokenInAnswer(parse: Parser, f: Frame)
    ensures FullAnswer(parse, f).Some? ==> TokenText(parse, f) == ""
  {
  }

  /** The same of whatever is read, in whatever chunks. */
  lemma {:induction false} ReadAnswerIsPutTogether(parse: Parser, chunks: seq<string>)
    requires Consume(parse, chunks).Open?
    ensures exists k: nat :: IsPutTogether(parse, Decode(Flat(chunks)), k, Consume(parse, chunks).answer)
  {
    hide IsPutTogether, Consume;
    ConsumeIsOnFrames(parse, chunks);
    var k := AnswerIsPutTogether(parse, Decode(Flat(chunks)));
  }

  ghost predicate AllTokens(parse: Parser, frames: seq<Frame>) {
    forall i :: 0 <= i < |frames| ==>
      frames[i].event == "token" && Read(parse, frames[i]).Payload? && Read(parse, frames[i]).content.Some?
  }

  function Contents(parse: Parser, frames: seq<Frame>): (r: seq<string>)
    requires AllTokens(parse, frames)
    ensures |r| == |frames| && forall i :: 0 <= i < |r| ==> Some(r[i]) == Read(parse, frames[i]).content
  {
    seq(|frames|, i requires 0 <= i < |frames| => Read(parse, frames[i]).content.value)
  }

  lemma {:induction false} TokensAreRead(parse: Parser, frames: seq<Frame>)
    requires AllTokens(parse, frames)
    ensures OnFrames(parse, START, frames) == START.(answer := Flat(Contents(parse, frames)))
  {
    if frames != [] {
      var front, last := frames[..|frames| - 1], frames[|frames| - 1];
      TokensAreRead(parse, front);
      OnFramesSnoc(parse, START, frames);
      var content := Read(parse, last).content.value;
      assert Contents(parse, frames) == Contents(parse, front) + [content];
      FlatConcat(Contents(parse, front), [content]);
      assert Flat([content]) == content by { assert [content][1..] == []; }
    }
  }

  /**
   * Encoded token events, in whatever chunks they arrive, are read as the concatenation of their contents in order, and
   * nothing else.
   */
  lemma {:induction false} TokensAreJoined(parse: Parser, frames: seq<Frame>, tail: string, chunks: seq<string>)
    requires AllWellFormed(frames) && AllTokens(parse, frames) && FirstBreak(tail).None?
    requires Flat(chunks) == EncodeAll(frames) + tail
    ensures Consume(parse, chunks) == START.(answer := Flat(Contents(parse, frames)))
  {
    EncodedEventsAreHandled(parse, frames, tail, chunks);
    TokensAreRead(parse, frames);
  }

  // ----- the tool runs -----

  /** The tool a frame starts. */
  function StartedBy(parse: Parser, f: Frame): seq<string> {
    var p := Read(parse, f);
    if f.event == "tool_start" && p.Payload? && p.tool.Some? && p.tool.value !in ["", "CHAT"]
    then [p.tool.value]
    else []
  }

  function Started(parse: Parser, frames: seq<Frame>): seq<string> {
    if frames == [] then []
    else Started(parse, frames[..|frames| - 1]) + StartedBy(parse, frames[|frames| - 1])
  }

  function ToolsOf(runs: seq<ToolRun>): (r: seq<string>)
    ensures |r| == |runs|
  {
    seq(|runs|, i requires 0 <= i < |runs| => runs[i].tool)
  }

  /** A start event appends one run of its tool, running; no other event adds a run or changes the tool of one. */
  lemma StartAppends(parse: Parser, st: State, f: Frame)
    requires st.Open? && Handle(parse, st, f).Open?
    ensures StartedBy(parse, f) != [] ==>
              Handle(parse, st, f).toolRuns == st.toolRuns + [ToolRun(StartedBy(parse, f)[0], "running")]
    ensures ToolsOf(Handle(parse, st, f).toolRuns) == ToolsOf(st.toolRuns) + StartedBy(parse, f)
  {
    HandleRuns(parse, st, f);
    HandleWrites(parse, st, f);
  }

  /** The runs are those of the tools started, in order, and nothing else. */
  lemma {:induction false} RunsAreStarted(parse: Parser, frames: seq<Frame>)
    requires OnFrames(parse, START, frames).Open?
    ensures ToolsOf(OnFrames(parse, START, frames).toolRuns) == Started(parse, frames)
  {
    hide Handle, StartedBy;
    if frames != [] {
      var front, last := frames[..|frames| - 1], frames[|frames| - 1];
      FrontIsOpen(parse, frames);
      RunsAreStarted(parse, front);
      OnFramesSnoc(parse, START, frames);
      StartAppends(parse, OnFrames(parse, START, front), last);
    }
  }

  lemma {:induction false} ReadRunsAreStarted(parse: Parser, chunks: seq<string>)
    requires Consume(parse, chunks).Open?
    ensures ToolsOf(Consume(parse, chunks).toolRuns) == Started(parse, Decode(Flat(chunks)))
  {
    hide Consume;
    ConsumeIsOnFrames(parse, chunks);
    RunsAreStarted(parse, Decode(Flat(chunks)));
  }
}
