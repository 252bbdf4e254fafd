/**
 * The chat box widget's local behaviour: the pending input line, the
 * append-only transcript `player_chat`, the displayed prompt, the key handler
 * `on_key` and the choice of display name from the command line.
 *
 * The WebSocket session never connects (`ws_connected` is only ever set to
 * false), so every non-blank Enter takes the offline fallback and appends the
 * line locally.
 */
module ChatBox {
  import opened PyText
  import opened Transcript

  const DefaultPlayerName := "Player X"
  const ArgName := "--name"
  const PromptPrefix := "> "

  /** A key press as `on_key` distinguishes it; `NoChar` is a key whose `character` is `None`. */
  datatype Key = Backspace | Enter | Char(c: char) | NoChar

  /** A key press and the wall-clock time at which it is handled. */
  datatype Press = Press(key: Key, at: Time)

  /** `PROMPT_FORMAT % chat_input`, with `PROMPT_FORMAT = "> %s"`. */
  function Prompt(input: string): (p: string)
    ensures |p| == |PromptPrefix| + |input|
    ensures p[..|PromptPrefix|] == PromptPrefix && p[|PromptPrefix|..] == input
  {
    PromptPrefix + input
  }

  /** The prompt shows the input faithfully: different inputs give different prompts. */
  lemma PromptInjective(a: string, b: string)
    requires Prompt(a) == Prompt(b)
    ensures a == b
  {
  }

  /**
   * The display name: the argument right after the first `--name` when there
   * is one, `"Player X"` otherwise. It is always `"Player X"` or an element of
   * `argv` past the first, so it is never read from beyond the end.
   */
  function SelectPlayerName(argv: seq<string>): (name: string)
    ensures name == DefaultPlayerName || exists i :: 0 < i < |argv| && argv[i] == name
  {
    if ArgName in argv && IndexOf(argv, ArgName) + 1 < |argv|
    then argv[IndexOf(argv, ArgName) + 1]
    else DefaultPlayerName
  }

  /** With `--name` first at index `i`, the name is the next argument, or the default if there is none. */
  lemma SelectPlayerNameAfterFirstFlag(argv: seq<string>, i: nat)
    requires i < |argv| && argv[i] == ArgName
    requires forall j :: 0 <= j < i ==> argv[j] != ArgName
    ensures SelectPlayerName(argv) == if i + 1 < |argv| then argv[i + 1] else DefaultPlayerName
  {
  }

  /** Without `--name` the default name is used. */
  lemma SelectPlayerNameWithoutFlag(argv: seq<string>)
    requires ArgName !in argv
    ensures SelectPlayerName(argv) == DefaultPlayerName
  {
  }

  /** The part of the widget's state that key presses change. */
  datatype ChatState = ChatState(chatInput: string, playerChat: seq<Entry>, prompt: string)

  /** The state right after construction and `compose`: empty input, empty transcript, prompt `"> "`. */
  function InitialState(): (s: ChatState)
    ensures s.chatInput == "" && s.playerChat == [] && s.prompt == PromptPrefix
  {
    ChatState("", [], Prompt(""))
  }

  /** The prompt on screen shows the pending input. */
  predicate PromptShowsInput(s: ChatState) {
    s.prompt == Prompt(s.chatInput)
  }

  /**
   * `on_key` while offline, as a function of the state before the press.
   * Whatever the key, the transcript only ever grows at its end, by at most
   * one entry, and a prompt that showed the input still does.
   */
  function Step(s: ChatState, playerName: string, k: Key, t: Time): (r: ChatState)
    ensures s.playerChat <= r.playerChat && |r.playerChat| <= |s.playerChat| + 1
    ensures PromptShowsInput(s) ==> PromptShowsInput(r)
  {
    match k
    case Backspace =>
      var input := DropLast(s.chatInput);
      ChatState(input, s.playerChat, Prompt(input))
    case Enter =>
      if IsBlank(s.chatInput) then s
      else ChatState("", s.playerChat + [NewEntry(t, playerName, s.chatInput)], Prompt(""))
    case Char(c) =>
      var input := s.chatInput + [c];
      ChatState(input, s.playerChat, Prompt(input))
    case NoChar =>
      ChatState(s.chatInput, s.playerChat, Prompt(s.chatInput))
  }

  /** A sequence of key presses handled one after the other. */
  function Run(s: ChatState, playerName: string, presses: seq<Press>): ChatState
    decreases |presses|
  {
    if presses == [] then s
    else Run(Step(s, playerName, presses[0].key, presses[0].at), playerName, presses[1..])
  }

  /** A run of one press is one step. */
  lemma RunSingle(s: ChatState, playerName: string, p: Press)
    ensures Run(s, playerName, [p]) == Step(s, playerName, p.key, p.at)
  {
  }

  /** A run that starts with press `p` is a step on `p` followed by the rest. */
  lemma RunCons(s: ChatState, playerName: string, p: Press, ps: seq<Press>)
    ensures Run(s, playerName, [p] + ps) == Run(Step(s, playerName, p.key, p.at), playerName, ps)
  {
    assert ([p] + ps)[1..] == ps;
  }

  /** Handling two runs of presses is handling their concatenation. */
  lemma {:induction false} RunConcat(s: ChatState, playerName: string, a: seq<Press>, b: seq<Press>)
    ensures Run(s, playerName, a + b) == Run(Run(s, playerName, a), playerName, b)
    decreases |a|
  {
    if a == [] {
      assert a + b == b;
    } else {
      assert (a + b)[1..] == a[1..] + b;
      RunConcat(Step(s, playerName, a[0].key, a[0].at), playerName, a[1..], b);
    }
  }

  /**
   * The transcript is an append-only log: after any presses every earlier
   * entry is still there, in its place, and at most one entry was added per press.
   */
  lemma {:induction false} RunAppendOnly(s: ChatState, playerName: string, presses: seq<Press>)
    ensures s.playerChat <= Run(s, playerName, presses).playerChat
    ensures |Run(s, playerName, presses).playerChat| <= |s.playerChat| + |presses|
    decreases |presses|
  {
    if presses != [] {
      RunAppendOnly(Step(s, playerName, presses[0].key, presses[0].at), playerName, presses[1..]);
    }
  }

  /** From the initial state on, the prompt always shows the pending input. */
  lemma {:induction false} RunKeepsPromptShowingInput(s: ChatState, playerName: string, presses: seq<Press>)
    requires PromptShowsInput(s)
    ensures PromptShowsInput(Run(s, playerName, presses))
    decreases |presses|
  {
    if presses != [] {
      RunKeepsPromptShowingInput(Step(s, playerName, presses[0].key, presses[0].at), playerName, presses[1..]);
    }
  }

  /** A transcript entry the local player sent: attributed to them, a well-formed line, a non-blank text. */
  predicate SentBy(e: Entry, playerName: string) {
    e.user == playerName &&
    match ParseTranscriptLine(e.message, playerName)
    case Some(parsed) => !IsBlank(parsed.1)
    case None => false
  }

  predicate AllSentBy(chat: seq<Entry>, playerName: string) {
    forall i :: 0 <= i < |chat| ==> SentBy(chat[i], playerName)
  }

  /** Appending the entry for a non-blank text keeps every entry one the local player sent. */
  lemma SendAppendsOwnLine(chat: seq<Entry>, playerName: string, t: Time, text: string)
    requires AllSentBy(chat, playerName) && !IsBlank(text)
    ensures AllSentBy(chat + [NewEntry(t, playerName, text)], playerName)
  {
    NewEntryReadsBack(t, playerName, text);
  }

  /** One press keeps every transcript entry one the local player sent. */
  lemma StepOnlyAppendsOwnLines(s: ChatState, playerName: string, k: Key, t: Time)
    requires AllSentBy(s.playerChat, playerName)
    ensures AllSentBy(Step(s, playerName, k, t).playerChat, playerName)
  {
    if k == Enter && !IsBlank(s.chatInput) {
      SendAppendsOwnLine(s.playerChat, playerName, t, s.chatInput);
    }
  }

  /**
   * Offline, every entry in the transcript is one the local player sent:
   * it carries their name, parses as a transcript line, and its text is not blank.
   */
  lemma {:induction false} RunOnlyAppendsOwnLines(s: ChatState, playerName: string, presses: seq<Press>)
    requires AllSentBy(s.playerChat, playerName)
    ensures AllSentBy(Run(s, playerName, presses).playerChat, playerName)
    decreases |presses|
  {
    if presses != [] {
      StepOnlyAppendsOwnLines(s, playerName, presses[0].key, presses[0].at);
      RunOnlyAppendsOwnLines(Step(s, playerName, presses[0].key, presses[0].at), playerName, presses[1..]);
    }
  }

  /** Typing the characters of `cs`, one press each, all at time `t`. */
  function Typing(cs: string, t: Time): (ps: seq<Press>)
    ensures |ps| == |cs|
    ensures forall i :: 0 <= i < |cs| ==> ps[i] == Press(Char(cs[i]), t)
  {
    if cs == [] then [] else [Press(Char(cs[0]), t)] + Typing(cs[1..], t)
  }

  /** Typing appends exactly the typed characters to the input and leaves the transcript alone. */
  lemma {:induction false} TypingAppendsToInput(s: ChatState, playerName: string, cs: string, t: Time)
    requires PromptShowsInput(s)
    ensures Run(s, playerName, Typing(cs, t)) == ChatState(s.chatInput + cs, s.playerChat, Prompt(s.chatInput + cs))
    decreases |cs|
  {
    if cs == [] {
      assert s.chatInput + cs == s.chatInput;
    } else {
      var input := s.chatInput + [cs[0]];
      var next := ChatState(input, s.playerChat, Prompt(input));
      RunCons(s, playerName, Press(Char(cs[0]), t), Typing(cs[1..], t));
      TypingAppendsToInput(next, playerName, cs[1..], t);
      assert input + cs[1..] == s.chatInput + cs;
    }
  }

  /** Enter on a non-blank input sends it and clears the input line. */
  lemma EnterSends(s: ChatState, playerName: string, t: Time)
    requires !IsBlank(s.chatInput)
    ensures Step(s, playerName, Enter, t)
         == ChatState("", s.playerChat + [NewEntry(t, playerName, s.chatInput)], PromptPrefix)
  {
  }

  /**
   * Typing a non-blank message into an empty input line and pressing Enter
   * appends exactly one entry, for that message sent at the time of the Enter,
   * after all earlier entries, and empties the input line again.
   */
  lemma TypeAndSend(s: ChatState, playerName: string, cs: string, t: Time, sent: Time)
    requires PromptShowsInput(s) && s.chatInput == ""
    requires !IsBlank(cs)
    ensures Run(s, playerName, Typing(cs, t) + [Press(Enter, sent)])
         == ChatState("", s.playerChat + [NewEntry(sent, playerName, cs)], PromptPrefix)
  {
    var typing, enter := Typing(cs, t), Press(Enter, sent);
    TypingAppendsToInput(s, playerName, cs, t);
    assert s.chatInput + cs == cs;
    var typed := ChatState(cs, s.playerChat, Prompt(cs));
    assert Run(s, playerName, typing) == typed;
    RunConcat(s, playerName, typing, [enter]);
    RunSingle(typed, playerName, enter);
    EnterSends(typed, playerName, sent);
  }

  /**
   * Typing only whitespace into an empty input line and pressing Enter sends
   * nothing: the transcript is unchanged and the whitespace stays in the input.
   */
  lemma TypeBlankAndEnter(s: ChatState, playerName: string, cs: string, t: Time, sent: Time)
    requires PromptShowsInput(s) && s.chatInput == ""
    requires AllSpace(cs)
    ensures Run(s, playerName, Typing(cs, t) + [Press(Enter, sent)]) == ChatState(cs, s.playerChat, Prompt(cs))
  {
    var typed := Run(s, playerName, Typing(cs, t));
    RunConcat(s, playerName, Typing(cs, t), [Press(Enter, sent)]);
    TypingAppendsToInput(s, playerName, cs, t);
    assert s.chatInput + cs == cs;
    assert typed == ChatState(cs, s.playerChat, Prompt(cs));
    RunSingle(typed, playerName, Press(Enter, sent));
    StripEmptyIffAllSpace(cs);
  }

  /** Backspace right after typing a character restores the state before it. */
  lemma BackspaceUndoesChar(s: ChatState, playerName: string, c: char, t: Time, t': Time)
    requires PromptShowsInput(s)
    ensures Step(Step(s, playerName, Char(c), t), playerName, Backspace, t') == s
  {
  }

  /** The widget's fields that the model keeps; the Textual plumbing is not modelled. */
  class ChatBox {
    var chatInput: string
    var playerChat: seq<Entry>
    const playerName: string
    var wsConnected: bool
    /** The text of the `#input-prompt` Static. */
    var prompt: string

    /** The session is never connected, and the prompt shows the pending input. */
    ghost predicate Valid()
      reads this
    {
      !wsConnected && prompt == Prompt(chatInput)
    }

    ghost function State(): ChatState
      reads this
    {
      ChatState(chatInput, playerChat, prompt)
    }

    /** `__init__` with `sys.argv` as `argv`, followed by `compose`, which sets the first prompt. */
    constructor (argv: seq<string>)
      ensures Valid()
      ensures chatInput == "" && playerChat == [] && prompt == PromptPrefix
      ensures playerName == SelectPlayerName(argv) && !wsConnected
      ensures State() == InitialState()
    {
      playerChat := [];
      chatInput := "";
      playerName := SelectPlayerName(argv);
      wsConnected := false;
      prompt := Prompt("");
    }

    /** `on_key` for a press handled at time `t`. */
    method OnKey(k: Key, t: Time)
      requires Valid()
      modifies this
      ensures Valid()
      ensures State() == Step(old(State()), playerName, k, t)
      ensures k == Backspace ==>
        chatInput == DropLast(old(chatInput)) && playerChat == old(playerChat)
      ensures k.Char? ==> chatInput == old(chatInput) + [k.c] && playerChat == old(playerChat)
      ensures k == NoChar ==> chatInput == old(chatInput) && playerChat == old(playerChat)
      ensures k == Enter && IsBlank(old(chatInput)) ==>
        chatInput == old(chatInput) && playerChat == old(playerChat) && prompt == old(prompt)
      ensures k == Enter && !IsBlank(old(chatInput)) ==>
        chatInput == "" && playerChat == old(playerChat) + [NewEntry(t, playerName, old(chatInput))]
      ensures prompt == Prompt(chatInput)
    {
      if k == Backspace {
        chatInput := DropLast(chatInput);
        UpdateInputPrompt();
        assert State() == Step(old(State()), playerName, k, t);
      } else if k == Enter {
        // Disable sending empty messages: return before the prompt is redrawn.
        if IsBlank(chatInput) {
          assert State() == Step(old(State()), playerName, k, t);
          return;
        }
        if wsConnected && chatInput != "" {
          // send_message would run here; the session never connects.
          assert false;
        } else {
          AddMessage(chatInput, t);
        }
        chatInput := "";
        UpdateInputPrompt();
        EnterSends(old(State()), playerName, t);
        assert State() == Step(old(State()), playerName, k, t);
      } else {
        match k {
          case Char(c) => chatInput := chatInput + [c];
          case NoChar => // `chat_input += None` raises, and the handler swallows it.
        }
        UpdateInputPrompt();
        assert State() == Step(old(State()), playerName, k, t);
      }
    }

    /** `_add_message`: appends the formatted record to the transcript and changes nothing else. */
    method AddMessage(text: string, t: Time)
      modifies this`playerChat
      ensures playerChat == old(playerChat) + [NewEntry(t, playerName, text)]
      ensures chatInput == old(chatInput) && prompt == old(prompt) && wsConnected == old(wsConnected)
    {
      playerChat := playerChat + [Entry(playerName, FormatMessage(t, playerName, text))];
    }

    /** `_update_input_prompt`: redraws the prompt from the pending input. */
    method UpdateInputPrompt()
      modifies this`prompt
      ensures prompt == Prompt(chatInput)
      ensures chatInput == old(chatInput) && playerChat == old(playerChat) && wsConnected == old(wsConnected)
    {
      prompt := Prompt(chatInput);
    }
  }
}
