/**
 * The text chat screen: the message list seeded with the scenario's opening
 * line, the send handler with its blank-input and busy guards, the
 * transcript entries the voice session appends, and the hand-off of the
 * whole transcript when the trainee finishes.
 *
 * The chat endpoint is not modelled: a send is split at its `await` into
 * `BeginSend`, which returns the text sent, and `CompleteSend`, which takes
 * the reply (or `None` when the request failed).
 */
module ChatInterface {
  import opened Types
  import Constants

  /** White space and line terminators as `String.prototype.trim` strips them. */
  predicate IsJsWhitespace(c: char) {
    var n := c as int;
    (0x09 <= n <= 0x0D) || n == 0x20 || n == 0xA0 || n == 0x1680 || (0x2000 <= n <= 0x200A)
    || n == 0x2028 || n == 0x2029 || n == 0x202F || n == 0x205F || n == 0x3000 || n == 0xFEFF
  }

  /** Every character of `s` is white space (vacuously so for ""). */
  predicate Blank(s: string) {
    forall i :: 0 <= i < |s| ==> IsJsWhitespace(s[i])
  }

  /** `s` without its leading white space: a suffix of `s`, after a blank prefix. */
  function TrimStart(s: string): (t: string)
    ensures |t| <= |s| && t == s[|s| - |t|..]
    ensures Blank(s[..|s| - |t|])
    ensures t != "" ==> !IsJsWhitespace(t[0])
    decreases |s|
  {
    if s != "" && IsJsWhitespace(s[0]) then
      var t := TrimStart(s[1..]);
      var blank, rest := s[..|s| - |t|], s[1..][..|s| - 1 - |t|];
      assert forall i :: 1 <= i < |blank| ==> blank[i] == rest[i - 1];
      assert s[1..][|s| - 1 - |t|..] == s[|s| - |t|..];
      t
    else s
  }

  /** `s` without its trailing white space: a prefix of `s`, before a blank suffix. */
  function TrimEnd(s: string): (t: string)
    ensures |t| <= |s| && t == s[..|t|]
    ensures Blank(s[|t|..])
    ensures t != "" ==> !IsJsWhitespace(t[|t| - 1])
    decreases |s|
  {
    if s != "" && IsJsWhitespace(s[|s| - 1]) then
      var t := TrimEnd(s[..|s| - 1]);
      assert s[|t|..] == s[..|s| - 1][|t|..] + [s[|s| - 1]];
      t
    else s
  }

  /** `s.trim()`: the text between the leading and the trailing white space, which starts and ends with neither. */
  function Trim(s: string): (t: string)
    ensures |t| <= |s|
    ensures t != "" ==> !IsJsWhitespace(t[0]) && !IsJsWhitespace(t[|t| - 1])
  {
    var u := TrimStart(s);
    var t := TrimEnd(u);
    assert t != "" ==> t[0] == u[0];
    t
  }

  /** Nothing is left of `s` by `TrimStart` exactly when `s` is blank. */
  lemma TrimStartBlank(s: string)
    ensures TrimStart(s) == "" <==> Blank(s)
  {
    var t := TrimStart(s);
    if t == "" {
      assert s[..|s| - |t|] == s;
    } else {
      assert t[0] == s[|s| - |t|];
    }
  }

  /** Nothing is left of `s` by `TrimEnd` exactly when `s` is blank. */
  lemma TrimEndBlank(s: string)
    ensures TrimEnd(s) == "" <==> Blank(s)
  {
    var t := TrimEnd(s);
    if t == "" {
      assert s[|t|..] == s;
    } else {
      assert t[|t| - 1] == s[|t| - 1];
    }
  }

  /** `!s.trim()` holds exactly when `s` is empty or made only of white space. */
  lemma TrimEmptyIffBlank(s: string)
    ensures Trim(s) == "" <==> Blank(s)
  {
    var t := TrimStart(s);
    TrimStartBlank(s);
    TrimEndBlank(t);
    if t != "" {
      assert !IsJsWhitespace(t[0]);
    }
  }

  /** What the trainee sees when the chat request fails. */
  const Apology := "I'm sorry, I'm having trouble responding. Please try again."

  /** The text of the model's turn: the reply, or the apology when the request failed. */
  function ReplyText(reply: Option<string>): (text: string)
    ensures reply.Some? ==> text == reply.value
    ensures reply.None? ==> text == Apology
  {
    match reply
    case Some(t) => t
    case None => Apology
  }

  class Chat {
    const scenario: Scenario
    /** The language prop; the header's buttons can change it while the chat is shown. */
    var language: Language

    var messages: seq<Entry>
    var inputText: string
    var isTyping: bool
    var isVoiceMode: bool
    /** The system instruction of the chat session, once it has been created. */
    var instruction: Option<string>

    /** The first render: nothing typed, no messages, no chat session yet. */
    constructor (scenario: Scenario, language: Language)
      ensures this.scenario == scenario && this.language == language
      ensures messages == [] && inputText == "" && !isTyping && !isVoiceMode && instruction.None?
    {
      this.scenario := scenario;
      this.language := language;
      messages := [];
      inputText := "";
      isTyping := false;
      isVoiceMode := false;
      instruction := None;
    }

    /**
     * The mount effect: a chat session is created with the scenario's system
     * instruction and the messages become exactly the customer's opening line.
     */
    method InitChat()
      modifies this`messages, this`instruction
      ensures instruction == Some(Constants.SystemPrompt(scenario, language.Code()))
      ensures messages == [Entry(Ai, scenario.initialPrompt)]
    {
      instruction := Some(Constants.SystemPrompt(scenario, language.Code()));
      messages := [Entry(Ai, scenario.initialPrompt)];
    }

    /**
     * A new language from the header while the chat is shown. The mount
     * effect depends on the language, so it runs again: a new chat session
     * is created with the other system instruction and the conversation
     * restarts from the opening line, the earlier messages being dropped.
     * Choosing the language already in use re-renders nothing.
     */
    method ChangeLanguage(l: Language)
      modifies this`language, this`messages, this`instruction
      ensures language == l
      ensures old(language) == l ==> messages == old(messages) && instruction == old(instruction)
      ensures old(language) != l ==>
                instruction == Some(Constants.SystemPrompt(scenario, l.Code()))
                && messages == [Entry(Ai, scenario.initialPrompt)]
      ensures old(language) != l && old(instruction) == Some(Constants.SystemPrompt(scenario, old(language).Code())) ==>
                instruction != old(instruction)
    {
      if l != language {
        Constants.SystemPromptLanguage(scenario, language.Code(), l.Code());
        language := l;
        InitChat();
      }
    }

    /** Typing in the input field. */
    method SetInput(text: string)
      modifies this`inputText
      ensures inputText == text
    {
      inputText := text;
    }

    /**
     * The send handler up to its `await`: blank input or a reply still being
     * awaited leaves everything as it was; otherwise the input is cleared,
     * the untrimmed text is appended as the trainee's message and sent, and
     * the typing indicator is on.
     */
    method BeginSend() returns (sent: Option<string>)
      modifies this`messages, this`inputText, this`isTyping
      ensures Blank(old(inputText)) || old(isTyping) ==>
                sent.None? && messages == old(messages) && inputText == old(inputText) && isTyping == old(isTyping)
      ensures !Blank(old(inputText)) && !old(isTyping) ==>
                && sent == Some(old(inputText))
                && messages == old(messages) + [Entry(User, old(inputText))]
                && inputText == "" && isTyping
    {
      TrimEmptyIffBlank(inputText);
      if Trim(inputText) == "" || isTyping {
        return None;
      }
      var userText := inputText;
      inputText := "";
      messages := messages + [Entry(User, userText)];
      isTyping := true;
      sent := Some(userText);
    }

    /**
     * The send handler after its `await`: the reply, or the apology when the
     * request failed, is appended as the customer's message, and the typing
     * indicator is off on both paths.
     */
    method CompleteSend(reply: Option<string>)
      modifies this`messages, this`isTyping
      ensures messages == old(messages) + [Entry(Ai, ReplyText(reply))]
      ensures !isTyping
    {
      var text := if reply.Some? then reply.value else Apology;
      messages := messages + [Entry(Ai, text)];
      isTyping := false;
    }

    /** The voice session's `onTranscriptUpdate`: the entry is appended unchanged. */
    method AppendTranscript(entry: Entry)
      modifies this`messages
      ensures messages == old(messages) + [entry]
    {
      messages := messages + [entry];
    }

    /** The microphone button. */
    method ToggleVoiceMode()
      modifies this`isVoiceMode
      ensures isVoiceMode == !old(isVoiceMode)
    {
      isVoiceMode := !isVoiceMode;
    }

    /** "Finish & Evaluate": the whole message list, in order, is handed on. */
    method Finish() returns (transcript: seq<Entry>)
      ensures transcript == messages
    {
      transcript := messages;
    }
  }

  /**
   * A complete exchange from an idle chat with non-blank input: exactly the
   * trainee's message and then the reply (or the apology) are appended,
   * earlier messages are kept in order, the input is empty and the chat is
   * idle again.
   */
  method Exchange(chat: Chat, reply: Option<string>) returns (sent: Option<string>)
    requires !chat.isTyping && !Blank(chat.inputText)
    modifies chat
    ensures sent == Some(old(chat.inputText))
    ensures chat.messages == old(chat.messages) + [Entry(User, old(chat.inputText)), Entry(Ai, ReplyText(reply))]
    ensures chat.inputText == "" && !chat.isTyping
  {
    sent := chat.BeginSend();
    chat.CompleteSend(reply);
  }
}
