/** The chat screen's `startChat`: the transcript, the input field and the
    loading flag, and the request sent to the generative model. The call
    to the model is split at its `await`: `BeginChat` is everything before
    it, `CompleteChat` everything after, and the model's answer is an
    outcome passed in. */
module BotChat {
  import opened Wrappers

  /** The two roles a transcript message carries. */
  datatype Role = User | Bot

  datatype ChatMessage = ChatMessage(role: Role, text: string)

  /** The roles of the model's request format. */
  datatype ApiRole = UserTurn | ModelTurn

  datatype Part = Part(text: string)

  /** `{ role, parts: [{ text }] }`. */
  datatype Content = Content(role: ApiRole, parts: seq<Part>)

  /** What the awaited generation did: produced `response.text`, or threw. */
  datatype Generation = Generated(text: string) | GenerationFailed(reason: string)

  /** The bot message appended when the generation throws. */
  const FallbackReply := "Sorry, I encountered an error. Please try again."

  /** The characters `String.prototype.trim` removes: the ECMAScript
      white space and line terminator code points. */
  predicate IsJsWhitespace(c: char) {
    || c == '\t' || c == '\n' || c == '\U{000B}' || c == '\U{000C}' || c == '\r' || c == ' '
    || c == '\U{00A0}' || c == '\U{1680}' || ('\U{2000}' <= c <= '\U{200A}')
    || c == '\U{2028}' || c == '\U{2029}' || c == '\U{202F}' || c == '\U{205F}' || c == '\U{3000}' || c == '\U{FEFF}'
  }

  /** Every character of `s` is white space (the empty string included). */
  predicate IsBlank(s: string) {
    forall i :: 0 <= i < |s| ==> IsJsWhitespace(s[i])
  }

  /** `s` with its leading white space removed. */
  function TrimStart(s: string): (r: string)
    ensures |r| <= |s| && r == s[|s| - |r|..]
    ensures |r| > 0 ==> !IsJsWhitespace(r[0])
    ensures forall i :: 0 <= i < |s| - |r| ==> IsJsWhitespace(s[i])
  {
    if |s| > 0 && IsJsWhitespace(s[0]) then TrimStart(s[1..]) else s
  }

  /** `s` with its trailing white space removed. */
  function TrimEnd(s: string): (r: string)
    ensures |r| <= |s| && r == s[..|r|]
    ensures |r| > 0 ==> !IsJsWhitespace(r[|r| - 1])
    ensures forall i :: |r| <= i < |s| ==> IsJsWhitespace(s[i])
  {
    if |s| > 0 && IsJsWhitespace(s[|s| - 1]) then TrimEnd(s[..|s| - 1]) else s
  }

  /** `s.trim()`: empty exactly when `s` is all white space, and otherwise
      without white space at either end. */
  function Trim(s: string): (r: string)
    ensures r == "" <==> IsBlank(s)
    ensures |r| <= |s|
    ensures |r| > 0 ==> !IsJsWhitespace(r[0]) && !IsJsWhitespace(r[|r| - 1])
  {
    TrimEnd(TrimStart(s))
  }

  /** `msg.role === 'bot' ? 'model' : 'user'`. */
  function ApiRoleOf(role: Role): ApiRole {
    if role == Bot then ModelTurn else UserTurn
  }

  function ToContent(m: ChatMessage): Content {
    Content(ApiRoleOf(m.role), [Part(m.text)])
  }

  /** The request contents: one content per message, in order, with the
      role mapped and the text as its single part. */
  function ToContents(ms: seq<ChatMessage>): (cs: seq<Content>)
    ensures |cs| == |ms|
    ensures forall i :: 0 <= i < |ms| ==>
      && (cs[i].role == ModelTurn <==> ms[i].role == Bot)
      && cs[i].parts == [Part(ms[i].text)]
  {
    seq(|ms|, i requires 0 <= i < |ms| => ToContent(ms[i]))
  }

  /** The transcript a request was built from, read back: `model` is the
      bot, anything else the user, the first part the text. */
  function FromContents(cs: seq<Content>): (ms: seq<ChatMessage>)
    ensures |ms| == |cs|
  {
    seq(|cs|, i requires 0 <= i < |cs| =>
      ChatMessage(if cs[i].role == ModelTurn then Bot else User,
                  if |cs[i].parts| > 0 then cs[i].parts[0].text else ""))
  }

  /** The mapping loses nothing: the transcript can be read back from the request. */
  lemma ContentsRoundTrip(ms: seq<ChatMessage>)
    ensures FromContents(ToContents(ms)) == ms
  {
    var back := FromContents(ToContents(ms));
    forall i | 0 <= i < |ms| ensures back[i] == ms[i] {
      assert ToContents(ms)[i].parts == [Part(ms[i].text)];
    }
  }

  /** Building the request after an append extends the previous request by one content. */
  lemma ContentsOfAppend(ms: seq<ChatMessage>, m: ChatMessage)
    ensures ToContents(ms + [m]) == ToContents(ms) + [ToContent(m)]
  {
    var a := ToContents(ms + [m]);
    var b := ToContents(ms) + [ToContent(m)];
    forall i | 0 <= i < |a| ensures a[i] == b[i] {
      if i < |ms| {
        assert (ms + [m])[i] == ms[i];
      }
    }
  }

  class BotScreen {
    var messages: seq<ChatMessage>
    var userInput: string
    var loading: bool

    constructor ()
      ensures messages == [] && userInput == "" && !loading
    {
      messages := [];
      userInput := "";
      loading := false;
    }

    /** The input field's `onChangeText`. */
    method TypeInput(text: string)
      modifies this
      ensures userInput == text && messages == old(messages) && loading == old(loading)
    {
      userInput := text;
    }

    /** `startChat` up to the `await`. Blank input changes nothing and
        sends nothing; otherwise the user's message is appended, the field
        is cleared, `loading` is raised and the whole new transcript is
        the request. */
    method BeginChat() returns (request: Option<seq<Content>>)
      modifies this
      ensures IsBlank(old(userInput)) ==>
        request == None && messages == old(messages) && userInput == old(userInput) && loading == old(loading)
      ensures !IsBlank(old(userInput)) ==>
        && messages == old(messages) + [ChatMessage(User, old(userInput))]
        && userInput == ""
        && loading
        && request == Some(ToContents(messages))
    {
      if Trim(userInput) == "" {
        return None;
      }
      var updated := messages + [ChatMessage(User, userInput)];
      messages := updated;
      userInput := "";
      loading := true;
      request := Some(ToContents(updated));
    }

    /** `startChat` after the `await`: exactly one bot message, the reply or
        the fallback text, and `loading` lowered either way. */
    method CompleteChat(outcome: Generation)
      modifies this
      ensures outcome.Generated? ==> messages == old(messages) + [ChatMessage(Bot, outcome.text)]
      ensures outcome.GenerationFailed? ==> messages == old(messages) + [ChatMessage(Bot, FallbackReply)]
      ensures !loading && userInput == old(userInput)
    {
      match outcome {
        case Generated(text) =>
          messages := messages + [ChatMessage(Bot, text)];
        case GenerationFailed(_) =>
          messages := messages + [ChatMessage(Bot, FallbackReply)];
      }
      loading := false;
    }

    /** The whole of `startChat` when nothing else touches the screen while
        the model answers: the user's turn and then the bot's are appended. */
    method StartChat(outcome: Generation) returns (request: Option<seq<Content>>)
      modifies this
      ensures IsBlank(old(userInput)) ==>
        request == None && messages == old(messages) && userInput == old(userInput) && loading == old(loading)
      ensures !IsBlank(old(userInput)) ==>
        && request == Some(ToContents(old(messages)) + [Content(UserTurn, [Part(old(userInput))])])
        && |messages| == |old(messages)| + 2
        && messages[..|old(messages)| + 1] == old(messages) + [ChatMessage(User, old(userInput))]
        && messages[|old(messages)| + 1] == ChatMessage(Bot, if outcome.Generated? then outcome.text else FallbackReply)
        && userInput == ""
        && !loading
    {
      var prior := messages;
      var typed := userInput;
      request := BeginChat();
      if request.None? {
        return;
      }
      ContentsOfAppend(prior, ChatMessage(User, typed));
      CompleteChat(outcome);
    }
  }
}
