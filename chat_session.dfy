/**
 * One chat backend's side of the page and one run of `streamChatReply`
 * against it: the history array the request is built from, the output
 * window with its chat bubbles, the status dot and the response-time label,
 * and the state the streaming loop keeps between reads.
 */
module ChatSession {
  import opened Wrappers
  import opened JsText
  import opened Ndjson
  import opened Frames

  /** The three classes `setModelStatus` can leave on a status dot. */
  datatype Status = Idle | Streaming | Error

  /** `setModelStatus`: "streaming" and "error" have their own class, every other state shows idle. */
  function StatusFor(state: string): (s: Status)
    ensures s == Streaming <==> state == "streaming"
    ensures s == Error <==> state == "error"
    ensures s == Idle <==> state != "streaming" && state != "error"
  {
    if state == "streaming" then Streaming else if state == "error" then Error else Idle
  }

  const NoTime := "—"

  /** `setModelTime`: a dash when there is no number, otherwise the number of milliseconds followed by " ms". */
  function TimeText(ms: Option<nat>): (t: string)
    ensures ms.None? ==> t == NoTime
    ensures ms.Some? ==>
      (|t| > 3 && t[|t| - 3..] == " ms" && IsDigits(t[..|t| - 3]) && ParseDigits(t[..|t| - 3]) == ms.value)
  {
    match ms
    case None => NoTime
    case Some(n) =>
      var t := NatToString(n) + " ms";
      assert t[..|t| - 3] == NatToString(n);
      NatToStringRoundTrip(n);
      t
  }

  /** The label shows which latency it was given: different values give different labels. */
  lemma TimeTextInjective(a: Option<nat>, b: Option<nat>)
    requires TimeText(a) == TimeText(b)
    ensures a == b
  {
    if a.Some? && b.Some? {
      var t := TimeText(a);
      assert ParseDigits(t[..|t| - 3]) == a.value;
    }
  }

  /** The two backends the page talks to. */
  datatype Backend = DeepSeek | Ollama

  function BaseUrl(b: Backend): string
  {
    match b
    case DeepSeek => "http://localhost:11435"
    case Ollama => "http://localhost:11434"
  }

  function ModelName(b: Backend): string
  {
    match b
    case DeepSeek => "deepseek-r1:8b"
    case Ollama => "llama3:8b"
  }

  /** The label on the backend's bubbles. */
  function Label(b: Backend): string
  {
    match b
    case DeepSeek => "DeepSeek-r1:8b"
    case Ollama => "Ollama"
  }

  const ChatPath := "/api/chat"
  const UserLabel := "D-Jade"

  function Endpoint(b: Backend): string
  {
    BaseUrl(b) + ChatPath
  }

  /** The JSON body of the streaming POST: model, the whole history, `stream: true`. */
  datatype Request = Request(endpoint: string, model: string, messages: seq<Turn>, stream: bool)

  /** `response.ok`: a 2xx status. */
  predicate IsOk(status: nat)
  {
    200 <= status <= 299
  }

  /** The text put in the reply bubble when the response status is not 2xx. */
  function HttpErrorText(status: nat, errorBody: string): (t: string)
    ensures var code := NatToString(status);
      && |t| >= 12 + |code| && t[..12] == "Error: HTTP " && t[12..12 + |code|] == code
      && (errorBody == "" ==> |t| == 12 + |code|)
      && (errorBody != "" ==> t[12 + |code|..] == " — " + errorBody)
  {
    var code := NatToString(status);
    var t := "Error: HTTP " + code + (if errorBody != "" then " — " + errorBody else "");
    assert t[12..] == code + (if errorBody != "" then " — " + errorBody else "");
    t
  }

  const NoStreamText := "Error: streaming not supported by this browser/response."

  /** `Error: ${err?.message || "Unknown error"}`: an empty or missing message reads "Unknown error". */
  function ExceptionText(message: Option<string>): (t: string)
    ensures |t| >= 7 && t[..7] == "Error: "
    ensures message.Some? && message.value != "" ==> t[7..] == message.value
    ensures message.None? || message.value == "" ==> t[7..] == "Unknown error"
  {
    "Error: " + (if message.Some? && message.value != "" then message.value else "Unknown error")
  }

  /** A conversation history array; requests carry it and replies are pushed onto it. */
  class History {
    var turns: seq<Turn>

    constructor ()
      ensures turns == []
    {
      turns := [];
    }
  }

  datatype BubbleRole = UserMessage | ModelMessage

  /** One chat bubble of an output window; `text` is the `<p>` a reply is streamed into. */
  class Bubble {
    const role: BubbleRole
    const caption: string
    var text: string

    constructor (role: BubbleRole, caption: string, text: string)
      ensures this.role == role && this.caption == caption && this.text == text
    {
      this.role, this.caption, this.text := role, caption, text;
    }
  }

  /** A backend's output window together with its status dot and response-time label. */
  class Panel {
    var bubbles: seq<Bubble>
    var status: Status
    var time: string

    constructor ()
      ensures bubbles == [] && status == Idle && time == NoTime
    {
      bubbles, status, time := [], Idle, NoTime;
    }

    /** `addChatMessage`: appends a bubble and returns it. */
    method AddMessage(role: BubbleRole, caption: string, text: string) returns (b: Bubble)
      modifies this`bubbles
      ensures fresh(b) && b.role == role && b.caption == caption && b.text == text
      ensures bubbles == old(bubbles) + [b]
    {
      b := new Bubble(role, caption, text);
      bubbles := bubbles + [b];
    }
  }

  datatype Phase = AwaitingResponse | Reading | Ended

  /**
   * One run of `streamChatReply`: the history array and window it captured
   * when it started, the reply bubble it streams into, and the `buffer` and
   * `fullAssistantText` it keeps across reads. `received` is all text read
   * so far; the invariant says the buffer is its unfinished tail and the
   * text and commits are exactly what its complete lines produce.
   */
  class Consumer {
    const backend: Backend
    const history: History
    const panel: Panel
    const bubble: Bubble
    const parse: Parser
    const request: Request
    var buffer: string
    var fullText: string
    var phase: Phase
    ghost var received: string
    ghost var commits: seq<Turn>

    ghost predicate Valid()
      reads this
    {
      && buffer == Pending(received)
      && Reply(fullText, commits) == Replay(received, parse)
      && (phase == AwaitingResponse ==> received == "")
    }

    /**
     * The synchronous start of `streamChatReply`: the user bubble, the user
     * turn pushed onto the captured history, the empty reply bubble, the
     * dash in the time label, the streaming dot, and the request built from
     * the whole history, which now ends in the user turn.
     */
    constructor Start(backend: Backend, history: History, panel: Panel, prompt: string, parse: Parser)
      modifies history, panel
      ensures Valid() && phase == AwaitingResponse && buffer == "" && fullText == "" && commits == []
      ensures this.backend == backend && this.history == history && this.panel == panel && this.parse == parse
      ensures history.turns == old(history.turns) + [Turn(User, prompt)]
      ensures request == Request(Endpoint(backend), ModelName(backend), history.turns, true)
      ensures fresh(bubble) && bubble.role == ModelMessage && bubble.caption == Label(backend) && bubble.text == ""
      ensures |panel.bubbles| == |old(panel.bubbles)| + 2
      ensures panel.bubbles[..|old(panel.bubbles)|] == old(panel.bubbles)
      ensures var user := panel.bubbles[|panel.bubbles| - 2];
        fresh(user) && user.role == UserMessage && user.caption == UserLabel && user.text == prompt
      ensures panel.bubbles[|panel.bubbles| - 1] == bubble
      ensures panel.status == Streaming && panel.time == NoTime
    {
      var user := panel.AddMessage(UserMessage, UserLabel, prompt);
      history.turns := history.turns + [Turn(User, prompt)];
      var reply := panel.AddMessage(ModelMessage, Label(backend), "");
      panel.time := TimeText(None);
      panel.status := StatusFor("streaming");
      this.backend, this.history, this.panel, this.bubble, this.parse := backend, history, panel, reply, parse;
      request := Request(Endpoint(backend), ModelName(backend), history.turns, true);
      buffer, fullText, phase := "", "", AwaitingResponse;
      received, commits := "", [];
    }

    /**
     * The response arrived: a non-2xx status or a missing body writes an
     * error into the reply bubble and ends the run with the dot left as it
     * was; otherwise reading starts.
     */
    method Respond(status: nat, errorBody: string, hasBody: bool)
      requires Valid() && phase == AwaitingResponse
      modifies this`phase, bubble`text
      ensures Valid()
      ensures !IsOk(status) ==> phase == Ended && bubble.text == HttpErrorText(status, errorBody)
      ensures IsOk(status) && !hasBody ==> phase == Ended && bubble.text == NoStreamText
      ensures IsOk(status) && hasBody ==> phase == Reading && bubble.text == old(bubble.text)
    {
      if !IsOk(status) {
        bubble.text := HttpErrorText(status, errorBody);
        phase := Ended;
      } else if !hasBody {
        bubble.text := NoStreamText;
        phase := Ended;
      } else {
        phase := Reading;
      }
    }

    /**
     * One read: append the chunk to the buffer, keep the unfinished tail,
     * and run the complete lines through the frame handling. Text and
     * commits advance exactly as the frame handling says; the new text is
     * appended to the reply bubble, the new commits are pushed onto the
     * captured history, and a commit sets the dot idle and shows the latency.
     */
    method ProcessChunk(chunk: string, elapsedMs: nat) returns (ghost appended: string, ghost committed: seq<Turn>)
      requires Valid() && phase == Reading
      modifies this`buffer, this`fullText, this`received, this`commits, history`turns, bubble`text, panel`status, panel`time
      ensures Valid() && received == old(received) + chunk
      ensures buffer == Pending(old(buffer) + chunk) && NoNewline(buffer)
      ensures Reply(fullText, commits)
        == ApplyLines(Reply(old(fullText), old(commits)), CompleteLines(old(buffer) + chunk), parse)
      ensures fullText == old(fullText) + appended && bubble.text == old(bubble.text) + appended
      ensures commits == old(commits) + committed && history.turns == old(history.turns) + committed
      ensures panel.status == (if committed == [] then old(panel.status) else Idle)
      ensures panel.time == (if committed == [] then old(panel.time) else TimeText(Some(elapsedMs)))
    {
      ReplayStep(received, buffer, Reply(fullText, commits), chunk, parse);
      var parts := Split(buffer + chunk);
      buffer := parts[|parts| - 1];
      received := received + chunk;
      appended, committed := HandleLines(parts[..|parts| - 1], elapsedMs);
    }

    /**
     * The inner `for (const line of lines)` loop over one read's complete
     * lines, in order.
     */
    method HandleLines(lines: seq<string>, elapsedMs: nat) returns (ghost appended: string, ghost committed: seq<Turn>)
      modifies this`fullText, this`commits, history`turns, bubble`text, panel`status, panel`time
      ensures Reply(fullText, commits) == ApplyLines(Reply(old(fullText), old(commits)), lines, parse)
      ensures fullText == old(fullText) + appended && bubble.text == old(bubble.text) + appended
      ensures commits == old(commits) + committed && history.turns == old(history.turns) + committed
      ensures panel.status == (if committed == [] then old(panel.status) else Idle)
      ensures panel.time == (if committed == [] then old(panel.time) else TimeText(Some(elapsedMs)))
    {
      appended, committed := "", [];
      ghost var start := Reply(fullText, commits);
      for i := 0 to |lines|
        invariant Reply(fullText, commits) == ApplyLines(start, lines[..i], parse)
        invariant fullText == start.text + appended && bubble.text == old(bubble.text) + appended
        invariant commits == start.commits + committed && history.turns == old(history.turns) + committed
        invariant panel.status == (if committed == [] then old(panel.status) else Idle)
        invariant panel.time == (if committed == [] then old(panel.time) else TimeText(Some(elapsedMs)))
      {
        ApplyLinesSnoc(start, lines[..i], lines[i], parse);
        assert lines[..i + 1] == lines[..i] + [lines[i]];
        var token, turn := HandleLine(lines[i], elapsedMs);
        AppendAssoc(start.text, appended, token);
        AppendAssoc(old(bubble.text), appended, token);
        AppendAssoc(start.commits, committed, turn);
        AppendAssoc(old(history.turns), committed, turn);
        appended, committed := appended + token, committed + turn;
      }
      assert lines[..|lines|] == lines;
    }

    /**
     * The body of `for (const line of lines)`: skip a blank or unparsable
     * line; append a non-empty string token to the text and to the reply
     * bubble; on `done === true` push the assistant turn, set the dot idle
     * and show the latency.
     */
    method HandleLine(line: string, elapsedMs: nat) returns (ghost token: string, ghost committed: seq<Turn>)
      modifies this`fullText, this`commits, history`turns, bubble`text, panel`status, panel`time
      ensures Reply(fullText, commits) == ApplyLine(Reply(old(fullText), old(commits)), line, parse)
      ensures fullText == old(fullText) + token && bubble.text == old(bubble.text) + token
      ensures commits == old(commits) + committed && history.turns == old(history.turns) + committed
      ensures committed == [] || committed == [Turn(Assistant, fullText)]
      ensures panel.status == (if committed == [] then old(panel.status) else Idle)
      ensures panel.time == (if committed == [] then old(panel.time) else TimeText(Some(elapsedMs)))
    {
      token, committed := "", [];
      assert fullText + token == fullText && bubble.text + token == bubble.text;
      assert commits + committed == commits && history.turns + committed == history.turns;
      var trimmed := Trim(line);
      if trimmed == "" {
        assert ParseLine(line, parse) == None;
        return;
      }
      var parsed := parse(trimmed);
      assert ParseLine(line, parse) == parsed;
      if parsed.None? {
        return;
      }
      var frame := parsed.value;
      ghost var before := Reply(fullText, commits);
      var content := frame.content;
      if content.Str? && |content.s| > 0 {
        fullText := fullText + content.s;
        bubble.text := bubble.text + content.s;
        token := content.s;
      }
      assert fullText == before.text + Token(frame);
      if frame.done == Bool(true) {
        history.turns := history.turns + [Turn(Assistant, fullText)];
        commits := commits + [Turn(Assistant, fullText)];
        committed := [Turn(Assistant, fullText)];
        panel.status := StatusFor("idle");
        panel.time := TimeText(Some(elapsedMs));
      }
      assert Reply(fullText, commits) == Absorb(before, frame);
    }

    /**
     * The `while (true)` read loop of a 2xx response with a body, up to the
     * reader reporting `done`: every read goes through ProcessChunk. The
     * captured history gains exactly the commits of the text read, the
     * reply bubble shows the text so far, the dot turns idle from the first
     * commit on, and the time label shows the latency of the last read
     * that committed.
     */
    method ReadBody(chunks: seq<Read>)
      requires Valid() && phase == Reading && received == ""
      requires bubble.text == fullText && panel.status == Streaming && panel.time == NoTime
      modifies this`buffer, this`fullText, this`received, this`commits, history`turns, bubble`text, panel`status, panel`time
      ensures Valid() && phase == Reading && received == Concat(Texts(chunks))
      ensures history.turns == old(history.turns) + commits
      ensures bubble.text == fullText
      ensures panel.status == (if commits == [] then Streaming else Idle)
      ensures panel.time == TimeText(ShownLatency(chunks, parse))
    {
      assert chunks[..0] == [];
      for i := 0 to |chunks|
        invariant Valid() && received == Concat(Texts(chunks[..i]))
        invariant history.turns == old(history.turns) + commits
        invariant bubble.text == fullText
        invariant panel.status == (if commits == [] then Streaming else Idle)
        invariant panel.time == TimeText(ShownLatency(chunks[..i], parse))
      {
        ReadStep(chunks, i);
        ghost var before := commits;
        ghost var _, committed := ProcessChunk(chunks[i].text, chunks[i].elapsedMs);
        AppendAssoc(old(history.turns), before, committed);
        LatencyStep(chunks, i, parse);
      }
      assert chunks[..|chunks|] == chunks;
    }

    /**
     * Everything after the request is sent: the response (or the thrown
     * `fetch`), the reads, and the end of the stream or the `catch`.
     */
    method Run(transport: Transport)
      requires Valid() && phase == AwaitingResponse && commits == []
      requires bubble.text == "" && panel.status == Streaming && panel.time == NoTime
      modifies this`buffer, this`fullText, this`received, this`commits, this`phase
      modifies history`turns, bubble`text, panel`status, panel`time
      ensures phase == Ended
      ensures history.turns == old(history.turns) + Replay(StreamText(transport), parse).commits
      ensures panel.status == FinalStatus(transport, parse)
      ensures bubble.text == FinalText(transport, parse)
      ensures panel.time == ShownTime(transport, parse)
    {
      assert CompleteLines("") == [];
      assert old(history.turns) + [] == old(history.turns);
      match transport
      case Rejected(m) =>
        Fail(m);
      case Responded(status, errorBody, body) =>
        Respond(status, errorBody, body.Some?);
        if phase == Reading {
          ReadBody(body.value.chunks);
          match body.value.end
          case Finished => Finish();
          case ReadFailed(m) => Fail(m);
        }
    }

    /** The reader reports the end of the stream: the loop breaks and whatever is left in the buffer is dropped unparsed. */
    method Finish()
      requires Valid() && phase == Reading
      modifies this`phase
      ensures Valid() && phase == Ended
    {
      phase := Ended;
    }

    /** The `catch`: the dot shows an error and the reply bubble the exception's message; the history keeps what was pushed. */
    method Fail(message: Option<string>)
      requires Valid() && phase != Ended
      modifies this`phase, panel`status, bubble`text
      ensures Valid() && phase == Ended
      ensures panel.status == Error && bubble.text == ExceptionText(message)
    {
      panel.status := StatusFor("error");
      bubble.text := ExceptionText(message);
      phase := Ended;
    }
  }

  /** One network read: the decoded text and the milliseconds elapsed since the request started when it was handled. */
  datatype Read = Read(text: string, elapsedMs: nat)

  /** How reading ended: the reader said `done`, or a read threw. */
  datatype StreamEnd = Finished | ReadFailed(message: Option<string>)

  datatype Body = Body(chunks: seq<Read>, end: StreamEnd)

  /** Everything the network does for one request: `fetch` throws, or a response arrives (with its error text, read only when not 2xx, and its body, if any). */
  datatype Transport =
    | Rejected(message: Option<string>)
    | Responded(status: nat, errorBody: string, body: Option<Body>)

  function Texts(chunks: seq<Read>): (texts: seq<string>)
    ensures |texts| == |chunks| && forall k :: 0 <= k < |chunks| ==> texts[k] == chunks[k].text
  {
    seq(|chunks|, k requires 0 <= k < |chunks| => chunks[k].text)
  }

  /** The stream text the reply is built from: empty unless a 2xx response with a body was read. */
  function StreamText(t: Transport): string
  {
    match t
    case Responded(status, _, Some(body)) => if IsOk(status) then Concat(Texts(body.chunks)) else ""
    case _ => ""
  }

  /** The dot once the run is over. */
  function FinalStatus(t: Transport, parse: Parser): Status
  {
    match t
    case Rejected(_) => Error
    case Responded(status, _, body) =>
      if !IsOk(status) || body.None? then Streaming
      else if body.value.end.ReadFailed? then Error
      else if Replay(StreamText(t), parse).commits == [] then Streaming
      else Idle
  }

  /** The reply bubble once the run is over. */
  function FinalText(t: Transport, parse: Parser): string
  {
    match t
    case Rejected(m) => ExceptionText(m)
    case Responded(status, errorBody, body) =>
      if !IsOk(status) then HttpErrorText(status, errorBody)
      else if body.None? then NoStreamText
      else if body.value.end.ReadFailed? then ExceptionText(body.value.end.message)
      else Replay(StreamText(t), parse).text
  }

  /** The latency the time label shows after `chunks`: that of the last read that committed a turn, if any. */
  function ShownLatency(chunks: seq<Read>, parse: Parser): Option<nat>
    decreases |chunks|
  {
    if chunks == [] then None
    else
      var n := |chunks|;
      var before := Replay(Concat(Texts(chunks[..n - 1])), parse);
      var after := Replay(Concat(Texts(chunks)), parse);
      if |after.commits| > |before.commits| then Some(chunks[n - 1].elapsedMs) else ShownLatency(chunks[..n - 1], parse)
  }

  /** Reading one more chunk appends its text to everything received. */
  lemma ReadStep(chunks: seq<Read>, i: nat)
    requires i < |chunks|
    ensures Concat(Texts(chunks[..i + 1])) == Concat(Texts(chunks[..i])) + chunks[i].text
  {
    ConcatSnoc(Texts(chunks[..i]), chunks[i].text);
    assert Texts(chunks[..i + 1]) == Texts(chunks[..i]) + [chunks[i].text];
  }

  /** The latency shown after one more read: that read's, if it committed a turn, else the one shown before. */
  lemma LatencyStep(chunks: seq<Read>, i: nat, parse: Parser)
    requires i < |chunks|
    ensures var before := Replay(Concat(Texts(chunks[..i])), parse);
      var after := Replay(Concat(Texts(chunks[..i + 1])), parse);
      ShownLatency(chunks[..i + 1], parse)
        == if |after.commits| > |before.commits| then Some(chunks[i].elapsedMs) else ShownLatency(chunks[..i], parse)
  {
    assert chunks[..i + 1][..i] == chunks[..i];
  }

  function ShownTime(t: Transport, parse: Parser): string
  {
    match t
    case Responded(status, _, Some(body)) =>
      if IsOk(status) then TimeText(ShownLatency(body.chunks, parse)) else NoTime
    case _ => NoTime
  }

  /**
   * `streamChatReply` run to its end, one read after another. The captured
   * history ends up holding the user turn followed by exactly the assistant
   * turns the stream text commits (kept on every error path), and the dot,
   * the reply bubble and the time label end as the transport outcome says.
   */
  method StreamChatReply(backend: Backend, history: History, panel: Panel, prompt: string, parse: Parser, transport: Transport)
    returns (c: Consumer)
    modifies history, panel
    ensures c.history == history && c.panel == panel && c.phase == Ended
    ensures c.request.messages == old(history.turns) + [Turn(User, prompt)]
    ensures history.turns == old(history.turns) + [Turn(User, prompt)] + Replay(StreamText(transport), parse).commits
    ensures panel.status == FinalStatus(transport, parse)
    ensures c.bubble.text == FinalText(transport, parse)
    ensures panel.time == ShownTime(transport, parse)
    ensures |panel.bubbles| == |old(panel.bubbles)| + 2 && panel.bubbles[|panel.bubbles| - 1] == c.bubble
  {
    c := new Consumer.Start(backend, history, panel, prompt, parse);
    c.Run(transport);
  }
}
