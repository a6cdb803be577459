/** The SOP chat widget: a message log that only grows at the end, an input box, and an open flag. */
module AICopilot {
  import opened Builtins

  datatype Role = User | Ai

  datatype Message = Message(role: Role, text: string)

  const Greeting: Message := Message(Ai, "안녕하세요! 작업 중 궁금한 점이나 SOP 규정이 필요하면 물어보세요.")

  const ReplyPrefix: string := "[SOP 규정 3-2조] "
  const ReplySuffix: string := "에 대한 기준은 '허용 오차 5%' 입니다. 사진을 찍어주시면 더 정확히 판단해드릴 수 있어요."

  /** The canned answer to a question: it quotes the question right after the rule reference. */
  function ReplyText(userMsg: string): (r: string)
    ensures |r| == |ReplyPrefix| + |userMsg| + |ReplySuffix|
    ensures r[..|ReplyPrefix|] == ReplyPrefix
    ensures r[|ReplyPrefix|..|ReplyPrefix| + |userMsg|] == userMsg
  {
    ReplyPrefix + userMsg + ReplySuffix
  }

  /** `if (!input.trim()) return;`: the input is ignored exactly when it is blank. */
  predicate IsIgnored(input: string)
  {
    Trim(input) == ""
  }

  /** An input is ignored exactly when every character of it is whitespace, the empty input included. */
  lemma IgnoredIffBlank(input: string)
    ensures IsIgnored(input) <==> AllWhitespace(input)
  {
    TrimEmptyIffBlank(input);
  }

  class Chat {
    var isOpen: bool
    var messages: seq<Message>
    var input: string

    constructor ()
      ensures !isOpen && messages == [Greeting] && input == ""
    {
      isOpen := false;
      messages := [Greeting];
      input := "";
    }

    method Open()
      modifies this`isOpen
      ensures isOpen
    {
      isOpen := true;
    }

    method Close()
      modifies this`isOpen
      ensures !isOpen
    {
      isOpen := false;
    }

    /** The input box's `onChange`. */
    method SetInput(text: string)
      modifies this`input
      ensures input == text
    {
      input := text;
    }

    /** `handleSend`, up to the timer. `sent` is the question whose reply the timer will append;
        the question is stored as typed, not trimmed. */
    method Send() returns (sent: Option<string>)
      modifies this`messages, this`input
      ensures IsIgnored(old(input)) ==> sent.None? && messages == old(messages) && input == old(input)
      ensures !IsIgnored(old(input)) ==>
        && sent == Some(old(input))
        && messages == old(messages) + [Message(User, old(input))]
        && input == ""
    {
      if Trim(input) == "" {
        return None;
      }
      var userMsg := input;
      messages := messages + [Message(User, userMsg)];
      input := "";
      sent := Some(userMsg);
    }

    /** The timer callback of `handleSend`: the reply is appended to whatever the log holds by then. */
    method ReplyArrives(userMsg: string)
      modifies this`messages
      ensures messages == old(messages) + [Message(Ai, ReplyText(userMsg))]
    {
      messages := messages + [Message(Ai, ReplyText(userMsg))];
    }
  }
}
