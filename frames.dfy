/**
 * What `streamChatReply` does with each complete line of the stream: trim
 * it, skip it when blank or when `JSON.parse` throws, append a non-empty
 * string `message.content` to the accumulated assistant text, and commit an
 * assistant turn for every frame whose `done` is exactly `true`.
 */
module Frames {
  import opened Wrappers
  import opened JsText
  import opened Ndjson

  /** A JSON field as the client sees it through optional chaining: missing, a string, a boolean, or anything else. */
  datatype Field = Absent | Str(s: string) | Bool(b: bool) | OtherValue

  /** The two fields of a parsed line the client reads: `parsed?.message?.content` and `parsed?.done`. */
  datatype Frame = Frame(content: Field, done: Field)

  /** `JSON.parse` seen through those two fields; `None` is a line it throws on. */
  type Parser = string -> Option<Frame>

  datatype Role = User | Assistant

  /** One `{role, content}` entry of a conversation history. */
  datatype Turn = Turn(role: Role, content: string)

  /** The accumulated assistant text and the assistant turns committed so far, in order. */
  datatype Reply = Reply(text: string, commits: seq<Turn>)

  /** The text a frame adds: its content when that is a non-empty string, otherwise nothing. */
  function Token(f: Frame): (t: string)
    ensures t != "" <==> f.content.Str? && f.content.s != ""
    ensures t != "" ==> t == f.content.s
  {
    if f.content.Str? && |f.content.s| > 0 then f.content.s else ""
  }

  /** `parsed?.done === true`: a strict comparison, so only the boolean `true` ends a reply. */
  predicate IsFinal(f: Frame)
  {
    f.done == Bool(true)
  }

  /** The frame a line carries, if any: blank lines and lines the parser rejects carry none. */
  function ParseLine(line: string, parse: Parser): (r: Option<Frame>)
    ensures AllWhitespace(line) ==> r == None
    ensures !AllWhitespace(line) ==> r == parse(Trim(line))
  {
    TrimEmptyIffBlank(line);
    var trimmed := Trim(line);
    if trimmed == "" then None else parse(trimmed)
  }

  /** The effect of one parsed frame on the reply in progress. */
  function Absorb(r: Reply, f: Frame): Reply
  {
    var text := r.text + Token(f);
    Reply(text, if IsFinal(f) then r.commits + [Turn(Assistant, text)] else r.commits)
  }

  /** The body of the inner `for (const line of lines)` loop. */
  function ApplyLine(r: Reply, line: string, parse: Parser): Reply
  {
    match ParseLine(line, parse)
    case None => r
    case Some(f) => Absorb(r, f)
  }

  /** The inner loop over a batch of complete lines, in order. */
  function ApplyLines(r: Reply, lines: seq<string>, parse: Parser): Reply
    decreases |lines|
  {
    if lines == [] then r else ApplyLines(ApplyLine(r, lines[0], parse), lines[1..], parse)
  }

  /** Reference definition: the frames carried by `lines`, in order, blank and unparsable lines dropped. */
  function ParsedFrames(lines: seq<string>, parse: Parser): seq<Frame>
    decreases |lines|
  {
    if lines == [] then []
    else
      (match ParseLine(lines[0], parse) case None => [] case Some(f) => [f])
      + ParsedFrames(lines[1..], parse)
  }

  /** Reference definition: the in-order concatenation of the frames' tokens. */
  function Tokens(frames: seq<Frame>): string
  {
    if frames == [] then "" else Token(frames[0]) + Tokens(frames[1..])
  }

  /**
   * Reference definition of the commits: one assistant turn per final
   * frame, holding `prefix` followed by every token up to and including
   * that frame.
   */
  function Committed(prefix: string, frames: seq<Frame>): seq<Turn>
    decreases |frames|
  {
    if frames == [] then []
    else
      var n := |frames|;
      Committed(prefix, frames[..n - 1])
      + (if IsFinal(frames[n - 1]) then [Turn(Assistant, prefix + Tokens(frames))] else [])
  }

  function CountFinal(frames: seq<Frame>): nat
  {
    if frames == [] then 0 else (if IsFinal(frames[0]) then 1 else 0) + CountFinal(frames[1..])
  }

  /** Running the loop over `a + b` is running it over `a`, then over `b`. */
  lemma {:induction false} ApplyLinesAppend(r: Reply, a: seq<string>, b: seq<string>, parse: Parser)
    ensures ApplyLines(r, a + b, parse) == ApplyLines(ApplyLines(r, a, parse), b, parse)
    decreases |a|
  {
    if a == [] {
      assert a + b == b;
    } else {
      assert (a + b)[0] == a[0];
      assert (a + b)[1..] == a[1..] + b;
      ApplyLinesAppend(ApplyLine(r, a[0], parse), a[1..], b, parse);
    }
  }

  /** The loop over `lines` and then one more line. */
  lemma ApplyLinesSnoc(r: Reply, lines: seq<string>, line: string, parse: Parser)
    ensures ApplyLines(r, lines + [line], parse) == ApplyLine(ApplyLines(r, lines, parse), line, parse)
  {
    ApplyLinesAppend(r, lines, [line], parse);
    assert [line][1..] == [];
  }

  lemma {:induction false} ParsedFramesAppend(a: seq<string>, b: seq<string>, parse: Parser)
    ensures ParsedFrames(a + b, parse) == ParsedFrames(a, parse) + ParsedFrames(b, parse)
    decreases |a|
  {
    if a == [] {
      assert a + b == b;
    } else {
      assert (a + b)[0] == a[0];
      assert (a + b)[1..] == a[1..] + b;
      ParsedFramesAppend(a[1..], b, parse);
    }
  }

  lemma {:induction false} TokensAppend(frames: seq<Frame>, f: Frame)
    ensures Tokens(frames + [f]) == Tokens(frames) + Token(f)
  {
    if frames == [] {
      assert frames + [f] == [f];
    } else {
      assert (frames + [f])[1..] == frames[1..] + [f];
      TokensAppend(frames[1..], f);
    }
  }

  /** One more line, against the reference definitions. */
  lemma {:induction false} ApplyLineMeaning(prefix: string, commits: seq<Turn>, earlier: seq<Frame>, line: string, parse: Parser)
    ensures var frames := earlier + ParsedFrames([line], parse);
      ApplyLine(Reply(prefix + Tokens(earlier), commits + Committed(prefix, earlier)), line, parse)
        == Reply(prefix + Tokens(frames), commits + Committed(prefix, frames))
  {
    assert [line][1..] == [];
    match ParseLine(line, parse)
    case None =>
      assert earlier + ParsedFrames([line], parse) == earlier;
    case Some(f) =>
      var frames := earlier + [f];
      assert ParsedFrames([line], parse) == [f];
      TokensAppend(earlier, f);
      assert frames[..|frames| - 1] == earlier;
      assert prefix + Tokens(frames) == (prefix + Tokens(earlier)) + Token(f);
  }

  /**
   * What the loop over `lines` does, against the reference definitions:
   * the text grows by exactly the tokens of the parsed frames, in order,
   * and one assistant turn holding the text so far is committed per final
   * frame (a second `done` frame commits a second turn).
   */
  lemma {:induction false} ApplyLinesMeaning(prefix: string, commits: seq<Turn>, lines: seq<string>, parse: Parser)
    ensures var frames := ParsedFrames(lines, parse);
      ApplyLines(Reply(prefix, commits), lines, parse)
        == Reply(prefix + Tokens(frames), commits + Committed(prefix, frames))
    decreases |lines|
  {
    if lines == [] {
      assert prefix + "" == prefix;
      assert commits + [] == commits;
    } else {
      var n := |lines|;
      var init, last := lines[..n - 1], lines[n - 1];
      assert lines == init + [last];
      ApplyLinesMeaning(prefix, commits, init, parse);
      ApplyLinesAppend(Reply(prefix, commits), init, [last], parse);
      ParsedFramesAppend(init, [last], parse);
      var earlier := ParsedFrames(init, parse);
      var before := Reply(prefix + Tokens(earlier), commits + Committed(prefix, earlier));
      assert [last][1..] == [];
      assert ApplyLines(before, [last], parse) == ApplyLine(before, last, parse);
      ApplyLineMeaning(prefix, commits, earlier, last, parse);
    }
  }

  /** Every commit is an assistant turn, one per final frame. */
  lemma {:induction false} CommittedShape(prefix: string, frames: seq<Frame>)
    ensures |Committed(prefix, frames)| == CountFinal(frames)
    ensures forall k :: 0 <= k < |Committed(prefix, frames)| ==> Committed(prefix, frames)[k].role == Assistant
    decreases |frames|
  {
    if frames != [] {
      var n := |frames|;
      CommittedShape(prefix, frames[..n - 1]);
      CountFinalSnoc(frames[..n - 1], frames[n - 1]);
      assert frames[..n - 1] + [frames[n - 1]] == frames;
    }
  }

  lemma {:induction false} CountFinalSnoc(frames: seq<Frame>, f: Frame)
    ensures CountFinal(frames + [f]) == CountFinal(frames) + (if IsFinal(f) then 1 else 0)
  {
    if frames == [] {
      assert frames + [f] == [f];
    } else {
      assert (frames + [f])[1..] == frames[1..] + [f];
      CountFinalSnoc(frames[1..], f);
    }
  }

  /**
   * A blank or unparsable line is skipped: it changes neither the text nor
   * the commits, and the loop goes on with the next line.
   */
  lemma SkippedLineHasNoEffect(r: Reply, before: seq<string>, line: string, after: seq<string>, parse: Parser)
    requires ParseLine(line, parse) == None
    ensures ApplyLines(r, before + [line] + after, parse) == ApplyLines(r, before + after, parse)
  {
    ApplyLinesAppend(r, before + [line], after, parse);
    ApplyLinesAppend(r, before, [line], parse);
    ApplyLinesAppend(r, before, after, parse);
  }

  /** The reply built from all complete lines of the text received so far. */
  function Replay(received: string, parse: Parser): Reply
  {
    ApplyLines(Reply("", []), CompleteLines(received), parse)
  }

  /**
   * Reading one more chunk continues the replay: the lines completed by
   * `Pending(received) + chunk` are exactly the new lines of the longer text.
   */
  lemma ReplayExtends(received: string, chunk: string, parse: Parser)
    ensures Replay(received + chunk, parse)
      == ApplyLines(Replay(received, parse), CompleteLines(Pending(received) + chunk), parse)
  {
    SplitAppend(received, chunk);
    var tail := Split(Pending(received) + chunk);
    assert CompleteLines(received + chunk) == CompleteLines(received) + tail[..|tail| - 1];
    ApplyLinesAppend(Reply("", []), CompleteLines(received), tail[..|tail| - 1], parse);
  }

  /**
   * What a reader holds between reads is enough to continue: when the
   * buffer is the pending tail of everything received and the reply is its
   * replay, then after one more chunk the new tail and the new replay come
   * from the buffer plus the chunk alone.
   */
  lemma ReplayStep(received: string, buffer: string, r: Reply, chunk: string, parse: Parser)
    requires buffer == Pending(received) && r == Replay(received, parse)
    ensures Pending(received + chunk) == Pending(buffer + chunk) && NoNewline(Pending(buffer + chunk))
    ensures Replay(received + chunk, parse) == ApplyLines(r, CompleteLines(buffer + chunk), parse)
  {
    ReplayExtends(received, chunk, parse);
    PendingAppend(received, chunk);
    ReassemblyLosesNothing(buffer, chunk);
  }

  /**
   * The reply of a whole stream depends only on its text, not on how the
   * text was cut into reads, and the unterminated tail contributes nothing.
   */
  lemma ReplyChunkingIndependent(chunks1: seq<string>, chunks2: seq<string>, parse: Parser)
    requires Concat(chunks1) == Concat(chunks2)
    ensures ApplyLines(Reply("", []), FeedLines("", chunks1), parse) == Replay(Concat(chunks2), parse)
  {
    FeedMatchesWholeText("", chunks1);
    assert "" + Concat(chunks1) == Concat(chunks2);
  }
}
