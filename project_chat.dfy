/**
 * The AI chat that drafts a project (src/pages/projects/new/page.tsx): the
 * user and the assistant take turns, starting with a greeting, until the
 * server says the requirements are complete.
 */
module ProjectChat {
  import opened Common
  import opened Strings

  datatype Role = User | Assistant
  datatype Message = Message(role: Role, content: string)

  const Greeting := "こんにちは！自動化したい作業について、お話を聞かせてください。どんな作業を自動化したいですか？"
  const ErrorReply := "エラーが発生しました。もう一度お試しください。"
  const ReviewPrefix := "/projects/review?conversationId="

  /** What the chat endpoint answers. */
  datatype ChatReply = ChatReply(conversationId: Option<string>, message: string, isComplete: bool)

  /** What is posted to the chat endpoint. */
  datatype ChatRequest = ChatRequest(conversationId: Option<string>, message: string)

  /** A user turn as the page records it: non-empty trimmed input, so neither end is whitespace. */
  predicate UserTurn(m: Message) {
    m.role == User && m.content != [] && !IsWhitespace(m.content[0]) && !IsWhitespace(m.content[|m.content| - 1])
  }

  /** The transcript shape every state of the page keeps: the greeting, then pairs of a user turn and an assistant turn. */
  predicate WellFormed(messages: seq<Message>)
    decreases |messages|
  {
    if |messages| <= 1 then messages == [Message(Assistant, Greeting)]
    else
      |messages| >= 3 && WellFormed(messages[..|messages| - 2]) &&
      UserTurn(messages[|messages| - 2]) && messages[|messages| - 1].role == Assistant
  }

  /** Odd positions hold the user's turns, each non-empty and already trimmed; even positions hold the assistant's. */
  predicate TurnAt(i: nat, m: Message) {
    (m.role == User <==> i % 2 == 1) &&
    (m.role == User ==> UserTurn(m))
  }

  /** One user turn followed by one assistant turn keeps the transcript well formed. */
  lemma TurnKeepsWellFormed(messages: seq<Message>, text: string, reply: Message)
    requires WellFormed(messages)
    requires text != [] && !IsWhitespace(text[0]) && !IsWhitespace(text[|text| - 1]) && reply.role == Assistant
    ensures WellFormed(messages + [Message(User, text), reply])
  {
    var m := messages + [Message(User, text), reply];
    assert m[..|m| - 2] == messages;
  }

  /** A well-formed transcript starts with the greeting, has odd length and alternates assistant and user turns. */
  lemma {:induction false} WellFormedPositions(messages: seq<Message>)
    requires WellFormed(messages)
    ensures |messages| % 2 == 1 && messages[0] == Message(Assistant, Greeting)
    ensures forall i | 0 <= i < |messages| :: TurnAt(i, messages[i])
  {
    if |messages| > 1 {
      var n := |messages|;
      var front := messages[..n - 2];
      WellFormedPositions(front);
      forall i | 0 <= i < n ensures TurnAt(i, messages[i]) {
        if i < n - 2 {
          assert messages[i] == front[i];
        }
      }
    }
  }

  /** The send button is enabled. */
  predicate SendEnabled(input: string, isLoading: bool, isComplete: bool) {
    !(isLoading || Trim(input) == [] || isComplete)
  }

  /** The text input accepts typing. */
  predicate InputEnabled(isLoading: bool, isComplete: bool) {
    !(isLoading || isComplete)
  }

  /** A key press sends the message: Enter without Shift, and never while an IME is composing (including key code 229). */
  function EnterSends(isComposing: bool, keyCode: int, key: string, shiftKey: bool): (send: bool)
    ensures send <==> !isComposing && keyCode != 229 && key == "Enter" && !shiftKey
  {
    if isComposing || keyCode == 229 then false
    else key == "Enter" && !shiftKey
  }

  /** An enabled send button means the input holds something to send. */
  lemma EnabledButtonHasText(input: string, isLoading: bool, isComplete: bool)
    requires SendEnabled(input, isLoading, isComplete)
    ensures !IsBlank(input) && InputEnabled(isLoading, isComplete)
  {
    TrimEmptyIffBlank(input);
  }

  /** Where "generate requirements" goes: nowhere without a conversation id. */
  function RequirementsTarget(conversationId: Option<string>): (url: Option<string>)
    ensures url.Some? <==> Truthy(conversationId)
    ensures url.Some? ==> StartsWith(url.value, ReviewPrefix)
  {
    if Truthy(conversationId) then Some(ReviewPrefix + conversationId.value) else None
  }

  /** The text of a query value: up to the first `&` or `#`. */
  function ValueEnd(s: string): (r: string)
    ensures IsPrefix(r, s)
    ensures forall i | 0 <= i < |r| :: r[i] != '&' && r[i] != '#'
    ensures |r| < |s| ==> s[|r|] == '&' || s[|r|] == '#'
  {
    if s == [] || s[0] == '&' || s[0] == '#' then []
    else [s[0]] + ValueEnd(s[1..])
  }

  predicate IsPrefix(p: string, s: string) { StartsWith(s, p) }

  /** The `conversationId` the review page reads back from a URL of that shape (percent decoding not modelled). */
  function ConversationParam(url: string): Option<string> {
    if StartsWith(url, ReviewPrefix) then Some(ValueEnd(url[|ReviewPrefix|..])) else None
  }

  /** The review page receives the id the chat page sent, as long as the id needs no URL escaping. */
  lemma {:induction false} RequirementsTargetRoundTrip(conversationId: Option<string>)
    requires Truthy(conversationId)
    requires forall i | 0 <= i < |conversationId.value| ::
      conversationId.value[i] !in {'&', '#', '%', '+'}
    ensures ConversationParam(RequirementsTarget(conversationId).value) == conversationId
  {
    var id := conversationId.value;
    var url := ReviewPrefix + id;
    assert url[|ReviewPrefix|..] == id;
    ValueEndWhole(id);
  }

  lemma {:induction false} ValueEndWhole(s: string)
    requires forall i | 0 <= i < |s| :: s[i] != '&' && s[i] != '#'
    ensures ValueEnd(s) == s
  {
    if s != [] {
      assert s[0] != '&' && s[0] != '#';
      ValueEndWhole(s[1..]);
    }
  }

  class ChatSession {
    var messages: seq<Message>
    var input: string
    var conversationId: Option<string>
    var isLoading: bool
    var isComplete: bool

    predicate Valid()
      reads this
    {
      WellFormed(messages)
    }

    constructor ()
      ensures Valid()
      ensures messages == [Message(Assistant, Greeting)]
      ensures input == "" && conversationId == None && !isLoading && !isComplete
    {
      messages := [Message(Assistant, Greeting)];
      input := "";
      conversationId := None;
      isLoading := false;
      isComplete := false;
    }

    /** Typing into the input. */
    method SetInput(text: string)
      modifies this
      ensures input == text
      ensures messages == old(messages) && conversationId == old(conversationId)
      ensures isLoading == old(isLoading) && isComplete == old(isComplete)
    {
      input := text;
    }

    /**
     * `handleSend`: with blank input or no user nothing happens. Otherwise the
     * trimmed input is posted together with the current conversation id, and
     * the transcript gains that user turn and then either the assistant's
     * reply or the error reply; the input is cleared and loading ends.
     */
    method HandleSend(signedIn: bool, response: Fetched<ChatReply>) returns (request: Option<ChatRequest>)
      requires Valid()
      modifies this
      ensures Valid()
      ensures old(Trim(input)) == [] || !signedIn ==>
        request == None &&
        messages == old(messages) && input == old(input) && conversationId == old(conversationId) &&
        isLoading == old(isLoading) && isComplete == old(isComplete)
      ensures old(Trim(input)) != [] && signedIn ==>
        request == Some(ChatRequest(old(conversationId), old(Trim(input)))) &&
        input == "" && !isLoading &&
        |messages| == old(|messages|) + 2 &&
        messages[..old(|messages|)] == old(messages) &&
        messages[old(|messages|)] == Message(User, old(Trim(input)))
      ensures old(Trim(input)) != [] && signedIn && response.Ok? ==>
        messages[|messages| - 1] == Message(Assistant, response.body.message) &&
        conversationId == response.body.conversationId && isComplete == response.body.isComplete
      ensures old(Trim(input)) != [] && signedIn && !response.Ok? ==>
        messages[|messages| - 1] == Message(Assistant, ErrorReply) &&
        conversationId == old(conversationId) && isComplete == old(isComplete)
    {
      var text := Trim(input);
      if text == [] || !signedIn {
        return None;
      }
      var reply := if response.Ok? then Message(Assistant, response.body.message) else Message(Assistant, ErrorReply);
      TurnKeepsWellFormed(messages, text, reply);
      request := Some(ChatRequest(conversationId, text));
      input := "";
      isLoading := true;
      if response.Ok? {
        conversationId := response.body.conversationId;
        isComplete := response.body.isComplete;
      }
      messages := messages + [Message(User, text), reply];
      isLoading := false;
    }

    /** The "requirements are complete" panel with the generate button. */
    predicate ShowsCompletionPanel()
      reads this
    {
      isComplete && Truthy(conversationId)
    }

    /** The generate button always has somewhere to go. */
    lemma CompletionPanelHasTarget()
      requires ShowsCompletionPanel()
      ensures RequirementsTarget(conversationId).Some?
    {
    }
  }
}
