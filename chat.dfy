/**
 The simulated advisor chat: a transcript that opens with a greeting, a
 send guarded on the trimmed input and a loading flag, and a delayed canned
 reply. The reply's timer and random choice are replaced by an explicit
 `Respond(choice)` step that takes the chosen index as a parameter.
 */
module Chat {
  import opened Text

  datatype Role = User | Assistant

  /** A transcript entry (its display timestamp is left out). */
  datatype Message = Message(role: Role, content: string)

  const Greeting: string := "您好！我是您的房地产智能顾问。我已经分析了预测结果，可以为您提供关于房产估值、市场趋势和投资建议的详细见解。您想了解什么信息？"

  /** The seven canned replies the simulated assistant picks from. */
  const Responses: seq<string> := [
    "根据预测结果，该房产价格为 458 万元，处于该区域的合理市场范围内。87% 的置信度得分表明数据支持充分。地段评分达到 92/100，这表明该位置具有出色的可达性和社区质量。",
    "可比房产分析显示，您的目标房产定价具有竞争力。0.7 公里范围内的相似房产价格从 448 万元到 465 万元不等，您的预估价格正好处于中间位置，说明市场价值合理。",
    "从关键因素来看，交通便利度和配套设施都获得了高分（分别为 85 分和 88 分），这对长期保值至关重要。但是房龄评分为 65 分，表明这不是新建筑，可能会影响升值潜力。",
    "市场趋势显示该区域呈上升态势。高影响因素（地段和交通）是不易改变的基础要素，使其成为相对稳定的投资选择。如果您的预算符合，建议考虑这处房产。",
    "从 RAG 分析角度来看，结合机器学习预测和最新市场数据，该社区在过去一年中升值了 12%。学区评分 78 分也表明有家庭导向的需求，通常能提供稳定的租金收益。",
    "该房产的价格趋势向好，建议您关注周边配套设施的发展规划。如果未来有地铁线路或大型商业中心建设，将进一步提升房产价值。",
    "综合各项指标分析，该房产适合长期持有。虽然房龄因素影响了部分评分，但优越的地段和交通优势能够有效对冲这一不利因素。"
  ]

  /** `!input.trim() || isLoading`: what makes a send a no-op and disables the send button. */
  predicate SendBlocked(input: string, isLoading: bool) {
    Trim(input) == [] || isLoading
  }

  /** A send is blocked exactly when the input is all whitespace or a reply is pending. */
  lemma SendBlockedIffBlankOrLoading(input: string, isLoading: bool)
    ensures SendBlocked(input, isLoading) <==>
      isLoading || forall i :: 0 <= i < |input| ==> IsJsWhitespace(input[i])
  {
    TrimEmptyIffBlank(input);
  }

  /** Some character of `text` is not whitespace. */
  predicate HasVisibleChar(text: string) {
    exists i :: 0 <= i < |text| && !IsJsWhitespace(text[i])
  }

  /** `e.key === 'Enter' && !e.shiftKey`: the keys that send (and suppress the newline). */
  predicate IsSendKey(key: string, shiftKey: bool) {
    key == "Enter" && !shiftKey
  }

  /** Number of messages in `msgs` with the given role. */
  function CountRole(msgs: seq<Message>, role: Role): nat {
    if msgs == [] then 0
    else CountRole(msgs[..|msgs| - 1], role) + (if msgs[|msgs| - 1].role == role then 1 else 0)
  }

  /** After the opening message, user and assistant messages alternate, the user first. */
  predicate Alternates(msgs: seq<Message>) {
    forall i :: 1 <= i < |msgs| ==> msgs[i].role == (if i % 2 == 1 then User else Assistant)
  }

  /**
   In an alternating transcript that opens with an assistant message, the
   users have sent one message fewer than the assistant has, plus one when
   the last message is the user's (an even length).
   */
  lemma {:induction false} AlternationCounts(msgs: seq<Message>)
    requires |msgs| >= 1 && msgs[0].role == Assistant && Alternates(msgs)
    ensures CountRole(msgs, User) + 1 == CountRole(msgs, Assistant) + (if |msgs| % 2 == 0 then 1 else 0)
  {
    if |msgs| > 1 {
      var prefix := msgs[..|msgs| - 1];
      assert Alternates(prefix) by {
        forall i | 1 <= i < |prefix| ensures prefix[i].role == (if i % 2 == 1 then User else Assistant) {
          assert prefix[i] == msgs[i];
        }
      }
      AlternationCounts(prefix);
    }
  }

  /**
   The whole-transcript invariant: the greeting first; then alternating user
   and assistant messages; every user message holding a non-whitespace
   character; every assistant
   reply one of the canned responses; and a reply pending exactly when the
   user has the last word.
   */
  ghost predicate Transcript(msgs: seq<Message>, isLoading: bool) {
    && |msgs| >= 1
    && msgs[0] == Message(Assistant, Greeting)
    && Alternates(msgs)
    && (forall i :: 1 <= i < |msgs| && msgs[i].role == User ==> HasVisibleChar(msgs[i].content))
    && (forall i :: 1 <= i < |msgs| && msgs[i].role == Assistant ==> msgs[i].content in Responses)
    && (isLoading <==> |msgs| % 2 == 0)
  }

  /** The counting law of the transcript: users = assistants - 1 + (1 while loading). */
  lemma TranscriptCounts(msgs: seq<Message>, isLoading: bool)
    requires Transcript(msgs, isLoading)
    ensures CountRole(msgs, User) == CountRole(msgs, Assistant) - 1 + (if isLoading then 1 else 0)
  {
    AlternationCounts(msgs);
  }

  /** Text that survives trimming has a visible character. */
  lemma TrimmedHasVisibleChar(text: string)
    requires Trim(text) != []
    ensures HasVisibleChar(text)
  {
    TrimEmptyIffBlank(text);
  }

  /** A user message with non-blank text answers the assistant's last word. */
  lemma UserTurnKeepsTranscript(msgs: seq<Message>, text: string)
    requires Transcript(msgs, false) && HasVisibleChar(text)
    ensures Transcript(msgs + [Message(User, text)], true)
  {
    var m := msgs + [Message(User, text)];
    assert forall i :: 0 <= i < |msgs| ==> m[i] == msgs[i];
    assert m[|msgs|] == Message(User, text);
  }

  /** A canned reply answers the user's last word. */
  lemma AssistantTurnKeepsTranscript(msgs: seq<Message>, reply: string)
    requires Transcript(msgs, true) && reply in Responses
    ensures Transcript(msgs + [Message(Assistant, reply)], false)
  {
    var m := msgs + [Message(Assistant, reply)];
    assert forall i :: 0 <= i < |msgs| ==> m[i] == msgs[i];
    assert m[|msgs|] == Message(Assistant, reply);
  }

  /** The chat component: transcript, input box contents and loading flag. */
  class AIReasoningChat {
    var messages: seq<Message>
    var input: string
    var isLoading: bool

    ghost predicate Valid()
      reads this
    {
      Transcript(messages, isLoading)
    }

    constructor ()
      ensures messages == [Message(Assistant, Greeting)] && input == "" && !isLoading
      ensures Valid()
    {
      messages := [Message(Assistant, Greeting)];
      input := "";
      isLoading := false;
    }

    /** The text area's change handler. */
    method SetInput(text: string)
      requires Valid()
      modifies this
      ensures Valid()
      ensures input == text && messages == old(messages) && isLoading == old(isLoading)
    {
      input := text;
    }

    /**
     `handleSend`: `sent` reports whether the guard let the send through
     (and so whether a reply was scheduled).
     */
    method HandleSend() returns (sent: bool)
      requires Valid()
      modifies this
      ensures Valid()
      ensures sent <==> !SendBlocked(old(input), old(isLoading))
      ensures sent ==> messages == old(messages) + [Message(User, old(input))] && input == "" && isLoading
      ensures !sent ==> messages == old(messages) && input == old(input) && isLoading == old(isLoading)
    {
      if Trim(input) == [] || isLoading {
        return false;
      }
      TrimmedHasVisibleChar(input);
      UserTurnKeepsTranscript(messages, input);
      messages := messages + [Message(User, input)];
      input := "";
      isLoading := true;
      sent := true;
    }

    /**
     The scheduled reply: appends the canned response with index `choice`
     (the source draws it uniformly from 0..6) and clears the loading flag.
     It can only fire while a reply is pending.
     */
    method Respond(choice: nat)
      requires Valid() && isLoading && choice < |Responses|
      modifies this
      ensures Valid()
      ensures messages == old(messages) + [Message(Assistant, Responses[choice])]
      ensures !isLoading && input == old(input)
    {
      AssistantTurnKeepsTranscript(messages, Responses[choice]);
      messages := messages + [Message(Assistant, Responses[choice])];
      isLoading := false;
    }

    /**
     `handleKeyPress`: Enter without Shift suppresses the newline and sends;
     every other key changes nothing.
     */
    method HandleKeyPress(key: string, shiftKey: bool) returns (prevented: bool, sent: bool)
      requires Valid()
      modifies this
      ensures Valid()
      ensures prevented <==> IsSendKey(key, shiftKey)
      ensures sent <==> IsSendKey(key, shiftKey) && !SendBlocked(old(input), old(isLoading))
      ensures sent ==> messages == old(messages) + [Message(User, old(input))] && input == "" && isLoading
      ensures !sent ==> messages == old(messages) && input == old(input) && isLoading == old(isLoading)
    {
      prevented, sent := false, false;
      if key == "Enter" && !shiftKey {
        prevented := true;
        sent := HandleSend();
      }
    }
  }

  /** A send through the component's handlers, and a second send blocked while loading. */
  method ExampleSend() {
    var chat := new AIReasoningChat();
    chat.SetInput("?");
    assert !SendBlocked("?", false) by {
      assert !IsJsWhitespace('?');
      assert TrimStart("?") == "?";
    }
    assert chat.input == "?" && !chat.isLoading;
    var sent := chat.HandleSend();
    assert sent && chat.isLoading;
    sent := chat.HandleSend();
    assert !sent;
  }
}
