/**
 * The page around the two chat backends: the active mode that decides
 * where Enter and the Run button send the prompt, the prompt check, the
 * submit router, and the New chat / Clear reset that rebinds both history
 * arrays.
 */
module ChatRouter {
  import opened Wrappers
  import opened JsText
  import opened Frames
  import opened ChatSession

  /** `activeMode`: "both", "deepseek" or "ollama". */
  datatype Mode = Both | DeepSeekOnly | OllamaOnly

  /** The backends a submit starts a reply from, in the order their streams start. */
  function Targets(mode: Mode): (ts: seq<Backend>)
    ensures DeepSeek in ts <==> mode != OllamaOnly
    ensures Ollama in ts <==> mode != DeepSeekOnly
    ensures 1 <= |ts| <= 2 && (|ts| == 2 ==> ts == [DeepSeek, Ollama])
  {
    match mode
    case Both => [DeepSeek, Ollama]
    case DeepSeekOnly => [DeepSeek]
    case OllamaOnly => [Ollama]
  }

  /** How `applyModeHighlights` leaves an output window. */
  datatype PanelLook = ActivePanel | DimmedPanel

  function Look(mode: Mode, b: Backend): PanelLook
  {
    match mode
    case Both => ActivePanel
    case DeepSeekOnly => if b == DeepSeek then ActivePanel else DimmedPanel
    case OllamaOnly => if b == Ollama then ActivePanel else DimmedPanel
  }

  /** The highlighted windows are exactly the ones a submit sends to. */
  lemma LookMatchesTargets(mode: Mode, b: Backend)
    ensures Look(mode, b) == ActivePanel <==> b in Targets(mode)
  {
    match mode
    case Both =>
    case DeepSeekOnly => assert Targets(mode) == [DeepSeek];
    case OllamaOnly => assert Targets(mode) == [Ollama];
  }

  /**
   * `getPromptTextOrShowErrors` without its side effect: the trimmed
   * prompt, or nothing when the box holds only whitespace.
   */
  function PromptToSend(raw: string): (p: Option<string>)
    ensures p.None? <==> AllWhitespace(raw)
    ensures p.Some? ==> p.value == Trim(raw) && p.value != ""
    ensures p.Some? ==> !IsWhitespace(p.value[0]) && !IsWhitespace(p.value[|p.value| - 1])
  {
    TrimEmptyIffBlank(raw);
    var t := Trim(raw);
    if t == "" then None else Some(t)
  }

  /** What `showError` writes for a blank prompt. */
  const PromptErrorText := "Error: Please type a prompt first."

  /**
   * The page state the handlers share: the mode, the prompt box, the two
   * history arrays (reassigned by reset) and the two output windows.
   */
  class App {
    var mode: Mode
    var promptText: string
    var deepSeekHistory: History
    var ollamaHistory: History
    const deepSeekPanel: Panel
    const ollamaPanel: Panel
    const parse: Parser

    ghost predicate Valid()
      reads this
    {
      deepSeekHistory != ollamaHistory && deepSeekPanel != ollamaPanel
    }

    function HistoryOf(b: Backend): History
      reads this
    {
      match b
      case DeepSeek => deepSeekHistory
      case Ollama => ollamaHistory
    }

    function PanelOf(b: Backend): Panel
    {
      match b
      case DeepSeek => deepSeekPanel
      case Ollama => ollamaPanel
    }

    /** Page load: empty histories and windows, and `setActiveMode("both")`. */
    constructor (parse: Parser)
      ensures Valid() && mode == Both && promptText == "" && this.parse == parse
      ensures fresh(deepSeekHistory) && fresh(ollamaHistory) && fresh(deepSeekPanel) && fresh(ollamaPanel)
      ensures deepSeekHistory.turns == [] && ollamaHistory.turns == []
      ensures deepSeekPanel.bubbles == [] && ollamaPanel.bubbles == []
    {
      mode, promptText, this.parse := Both, "", parse;
      deepSeekHistory := new History();
      ollamaHistory := new History();
      deepSeekPanel := new Panel();
      ollamaPanel := new Panel();
    }

    /** A mode button: only the mode changes; no history, window or prompt is touched. */
    method SetActiveMode(m: Mode)
      modifies this`mode
      ensures mode == m
    {
      mode := m;
    }

    /**
     * `submitToActiveMode`. A blank prompt puts the same error bubble in
     * both windows and changes nothing else (the prompt box keeps its
     * text). Otherwise the box is cleared and a reply is started from each
     * target of the active mode, in order, each against its own history;
     * a window that is not a target is left alone.
     */
    method Submit() returns (started: seq<Consumer>)
      requires Valid()
      modifies this`promptText, deepSeekHistory, ollamaHistory, deepSeekPanel, ollamaPanel
      ensures Valid()
      ensures PromptToSend(old(promptText)).None? ==>
        && started == [] && promptText == old(promptText)
        && deepSeekHistory.turns == old(deepSeekHistory.turns) && ollamaHistory.turns == old(ollamaHistory.turns)
        && ErrorShown(deepSeekPanel, DeepSeek, old(deepSeekPanel.bubbles))
        && ErrorShown(ollamaPanel, Ollama, old(ollamaPanel.bubbles))
        && deepSeekPanel.status == old(deepSeekPanel.status) && deepSeekPanel.time == old(deepSeekPanel.time)
        && ollamaPanel.status == old(ollamaPanel.status) && ollamaPanel.time == old(ollamaPanel.time)
      ensures PromptToSend(old(promptText)).Some? ==>
        var p := PromptToSend(old(promptText)).value;
        && promptText == ""
        && |started| == |Targets(mode)|
        && (forall i :: 0 <= i < |started| ==>
              var b, c := Targets(mode)[i], started[i];
              && StartedOn(c, b, p, old(PanelOf(b).bubbles))
              && fresh(c) && fresh(c.bubble) && fresh(c.panel.bubbles[|c.panel.bubbles| - 2]))
        && (DeepSeek in Targets(mode) ==> deepSeekHistory.turns == old(deepSeekHistory.turns) + [Turn(User, p)])
        && (Ollama in Targets(mode) ==> ollamaHistory.turns == old(ollamaHistory.turns) + [Turn(User, p)])
        && (DeepSeek !in Targets(mode) ==>
              && deepSeekHistory.turns == old(deepSeekHistory.turns)
              && deepSeekPanel.bubbles == old(deepSeekPanel.bubbles)
              && deepSeekPanel.status == old(deepSeekPanel.status) && deepSeekPanel.time == old(deepSeekPanel.time))
        && (Ollama !in Targets(mode) ==>
              && ollamaHistory.turns == old(ollamaHistory.turns)
              && ollamaPanel.bubbles == old(ollamaPanel.bubbles)
              && ollamaPanel.status == old(ollamaPanel.status) && ollamaPanel.time == old(ollamaPanel.time))
    {
      var sent := PromptToSend(promptText);
      if sent.None? {
        var _ := deepSeekPanel.AddMessage(ModelMessage, Label(DeepSeek), PromptErrorText);
        var _ := ollamaPanel.AddMessage(ModelMessage, Label(Ollama), PromptErrorText);
        return [];
      }
      promptText := "";
      started := Dispatch(sent.value);
    }

    /** The branch of `submitToActiveMode` that starts one reply per target of the active mode. */
    method Dispatch(p: string) returns (started: seq<Consumer>)
      requires Valid()
      modifies deepSeekHistory, ollamaHistory, deepSeekPanel, ollamaPanel
      ensures |started| == |Targets(mode)|
      ensures forall i :: 0 <= i < |started| ==>
        var b, c := Targets(mode)[i], started[i];
        && StartedOn(c, b, p, old(PanelOf(b).bubbles))
        && fresh(c) && fresh(c.bubble) && fresh(c.panel.bubbles[|c.panel.bubbles| - 2])
      ensures DeepSeek in Targets(mode) ==> deepSeekHistory.turns == old(deepSeekHistory.turns) + [Turn(User, p)]
      ensures Ollama in Targets(mode) ==> ollamaHistory.turns == old(ollamaHistory.turns) + [Turn(User, p)]
      ensures DeepSeek !in Targets(mode) ==>
        && deepSeekHistory.turns == old(deepSeekHistory.turns)
        && deepSeekPanel.bubbles == old(deepSeekPanel.bubbles)
        && deepSeekPanel.status == old(deepSeekPanel.status) && deepSeekPanel.time == old(deepSeekPanel.time)
      ensures Ollama !in Targets(mode) ==>
        && ollamaHistory.turns == old(ollamaHistory.turns)
        && ollamaPanel.bubbles == old(ollamaPanel.bubbles)
        && ollamaPanel.status == old(ollamaPanel.status) && ollamaPanel.time == old(ollamaPanel.time)
    {
      if mode == Both {
        var first, second := LaunchBoth(p);
        started := [first, second];
      } else if mode == DeepSeekOnly {
        var only := Launch(DeepSeek, p);
        started := [only];
      } else {
        var only := Launch(Ollama, p);
        started := [only];
      }
    }

    /** "both": DeepSeek's reply is started first, then Ollama's. */
    method LaunchBoth(p: string) returns (first: Consumer, second: Consumer)
      requires Valid()
      modifies deepSeekHistory, ollamaHistory, deepSeekPanel, ollamaPanel
      ensures StartedOn(first, DeepSeek, p, old(deepSeekPanel.bubbles))
      ensures fresh(first) && fresh(first.bubble) && fresh(first.panel.bubbles[|first.panel.bubbles| - 2])
      ensures StartedOn(second, Ollama, p, old(ollamaPanel.bubbles))
      ensures fresh(second) && fresh(second.bubble) && fresh(second.panel.bubbles[|second.panel.bubbles| - 2])
      ensures deepSeekHistory.turns == old(deepSeekHistory.turns) + [Turn(User, p)]
      ensures ollamaHistory.turns == old(ollamaHistory.turns) + [Turn(User, p)]
    {
      first := Launch(DeepSeek, p);
      second := Launch(Ollama, p);
    }

    /** One `streamChatReply` call from the router, up to its first `await`, against `b`'s history and window. */
    method Launch(b: Backend, prompt: string) returns (c: Consumer)
      requires Valid()
      modifies HistoryOf(b), PanelOf(b)
      ensures StartedOn(c, b, prompt, old(PanelOf(b).bubbles))
      ensures fresh(c) && fresh(c.bubble) && fresh(c.panel.bubbles[|c.panel.bubbles| - 2])
      ensures HistoryOf(b).turns == old(HistoryOf(b).turns) + [Turn(User, prompt)]
    {
      c := new Consumer.Start(b, HistoryOf(b), PanelOf(b), prompt, parse);
    }

    /**
     * `c` is the reply `Launched` from `b`'s history and window, whose
     * earlier bubbles `before` are kept ahead of the two new ones.
     */
    ghost predicate StartedOn(c: Consumer, b: Backend, prompt: string, before: seq<Bubble>)
      reads this, c, c.bubble, c.panel, c.history, c.panel.bubbles
    {
      && c.history == HistoryOf(b) && c.panel == PanelOf(b) && c.parse == parse
      && Launched(c, b, prompt)
      && |c.panel.bubbles| == |before| + 2 && c.panel.bubbles[..|before|] == before
    }

    /**
     * New chat / Clear (`resetEverything`): the prompt box and both
     * windows are emptied and both history variables are bound to new
     * empty arrays. The mode, the status dots and the time labels stay.
     */
    method Reset()
      requires Valid()
      modifies this`promptText, this`deepSeekHistory, this`ollamaHistory, deepSeekPanel`bubbles, ollamaPanel`bubbles
      ensures Valid() && promptText == ""
      ensures fresh(deepSeekHistory) && fresh(ollamaHistory)
      ensures deepSeekHistory.turns == [] && ollamaHistory.turns == []
      ensures deepSeekPanel.bubbles == [] && ollamaPanel.bubbles == []
    {
      promptText := "";
      deepSeekPanel.bubbles := [];
      ollamaPanel.bubbles := [];
      deepSeekHistory := new History();
      ollamaHistory := new History();
    }
  }

  /**
   * The state `streamChatReply` leaves behind before its first `await`:
   * awaiting the response with nothing read or committed, the request built
   * from the whole history ending in the user turn, the user bubble and the
   * empty reply bubble last in the window, the streaming dot and the dash.
   */
  ghost predicate Launched(c: Consumer, b: Backend, prompt: string)
    reads c, c.bubble, c.panel, c.history, c.panel.bubbles
  {
    && c.backend == b && c.Valid() && c.phase == AwaitingResponse
    && c.buffer == "" && c.fullText == "" && c.commits == []
    && c.request == Request(Endpoint(b), ModelName(b), c.history.turns, true)
    && |c.history.turns| >= 1 && c.history.turns[|c.history.turns| - 1] == Turn(User, prompt)
    && c.bubble.role == ModelMessage && c.bubble.caption == Label(b) && c.bubble.text == ""
    && c.panel.status == Streaming && c.panel.time == NoTime
    && |c.panel.bubbles| >= 2 && c.panel.bubbles[|c.panel.bubbles| - 1] == c.bubble
    && var user := c.panel.bubbles[|c.panel.bubbles| - 2];
      user.role == UserMessage && user.caption == UserLabel && user.text == prompt
  }

  /** The window gained exactly one bubble: the backend's error bubble for a blank prompt. */
  ghost predicate ErrorShown(panel: Panel, b: Backend, before: seq<Bubble>)
    reads panel, panel.bubbles
  {
    && |panel.bubbles| == |before| + 1 && panel.bubbles[..|before|] == before
    && var e := panel.bubbles[|before|];
      e.role == ModelMessage && e.caption == Label(b) && e.text == PromptErrorText
  }

  /**
   * A reply still streaming when the page is reset keeps writing into the
   * array it captured: a later chunk that commits a turn lands in the old
   * history and the detached reply bubble, while the app's new history
   * stays empty and the emptied window gets no bubble back.
   */
  method LateChunkAfterReset(app: App, c: Consumer, chunk: string, elapsedMs: nat) returns (ghost committed: seq<Turn>)
    requires app.Valid() && c.Valid() && c.phase == Reading
    requires c.history == app.deepSeekHistory && c.panel == app.deepSeekPanel
    modifies app`promptText, app`deepSeekHistory, app`ollamaHistory, app.deepSeekPanel`bubbles, app.ollamaPanel`bubbles
    modifies c`buffer, c`fullText, c`received, c`commits, c.history`turns, c.bubble`text, c.panel`status, c.panel`time
    ensures app.deepSeekHistory != c.history && app.deepSeekHistory.turns == [] && app.deepSeekPanel.bubbles == []
    ensures c.history.turns == old(c.history.turns) + committed && c.commits == old(c.commits) + committed
  {
    app.Reset();
    var _, turns := c.ProcessChunk(chunk, elapsedMs);
    committed := turns;
  }
}
