/**
 * The console user agent of banking_chatbot/app/agents/user_agent.py, and the
 * variant of it in banking_agent_2.py (copied unchanged to misc/banking_agent_2.py).
 *
 * At login it reads the user's name and first question and starts a conversation
 * with the classifier. On every agent response it shows one message, reads the
 * next line, and either ends the session or sends the extended conversation back
 * to the agent that answered. The lines read from the console are parameters.
 */
module UserAgent {
  import opened Wrappers
  import opened PyStrings
  import opened Messages

  const UserSource: string := "User"

  /**
   * `handle_user_login`: a conversation of exactly one user turn holding the
   * question, published to the classifier under this session. The name read
   * first is only greeted.
   */
  function Login(classifierTopic: string, session: string, name: string, query: string): (out: Envelope)
    ensures out.dest == ToTopic(TopicId(classifierTopic, session))
    ensures out.payload.TaskMsg? && out.payload.task.context == [UserMessage(query, UserSource)]
  {
    Envelope(ToTopic(TopicId(classifierTopic, session)), TaskMsg(UserTask([UserMessage(query, UserSource)])))
  }

  /** A turn whose content is a non-empty string. */
  predicate HasText(m: LLMMessage) {
    StringContent(m).Some? && StringContent(m).value != ""
  }

  /** What `handle_agent_response` shows: the latest turn with non-empty string content, or "". */
  function Shown(ctx: seq<LLMMessage>): (r: string)
    ensures r == "" <==> forall i :: 0 <= i < |ctx| ==> !HasText(ctx[i])
    ensures r != "" ==> exists i :: (0 <= i < |ctx| && HasText(ctx[i]) && StringContent(ctx[i]).value == r
                                     && forall j :: i < j < |ctx| ==> !HasText(ctx[j]))
  {
    if ctx == [] then ""
    else
      var last := ctx[|ctx| - 1];
      if HasText(last) then StringContent(last).value
      else
        var r := Shown(ctx[..|ctx| - 1]);
        assert forall i :: 0 <= i < |ctx| - 1 ==> ctx[..|ctx| - 1][i] == ctx[i];
        r
  }

  /** The scan of `handle_agent_response`: walk back from the end and stop at the first text. */
  method LastText(ctx: seq<LLMMessage>) returns (r: string)
    ensures r == Shown(ctx)
  {
    r := "";
    var i := |ctx|;
    while i > 0
      invariant 0 <= i <= |ctx|
      invariant forall j :: i <= j < |ctx| ==> !HasText(ctx[j])
    {
      var m := ctx[i - 1];
      if StringContent(m).Some? && StringContent(m).value != "" {
        ShownIsLatest(ctx, i - 1);
        return StringContent(m).value;
      }
      i := i - 1;
    }
    assert Shown(ctx) == "";
  }

  lemma {:induction false} ShownIsLatest(ctx: seq<LLMMessage>, i: nat)
    requires i < |ctx| && HasText(ctx[i])
    requires forall j :: i < j < |ctx| ==> !HasText(ctx[j])
    ensures Shown(ctx) == StringContent(ctx[i]).value
    decreases |ctx|
  {
    if i < |ctx| - 1 {
      var init := ctx[..|ctx| - 1];
      assert init[i] == ctx[i];
      ShownIsLatest(init, i);
    }
  }

  /** `user_input.lower() == "exit"`: no trimming, so " exit" does not end the session. */
  predicate IsExit(input: string) {
    Lower(input) == "exit"
  }

  /** One response turn: what is shown, the conversation afterwards, and what is published. */
  datatype Turn = Turn(shown: string, context: seq<LLMMessage>, out: Option<Envelope>)

  /**
   * `handle_agent_response`: on "exit" nothing is published; otherwise the line is
   * appended as one user turn and the whole conversation goes to the topic the
   * response named, under this agent's session key.
   */
  method HandleAgentResponse(key: string, response: AgentResponse, input: string) returns (t: Turn)
    ensures t.shown == Shown(response.context)
    ensures IsExit(input) ==> t.out.None? && t.context == response.context
    ensures !IsExit(input) ==>
              t.context == response.context + [UserMessage(input, UserSource)]
              && t.out == Some(Envelope(ToTopic(TopicId(response.replyToTopicType, key)), TaskMsg(UserTask(t.context))))
  {
    var shown := LastText(response.context);
    if Lower(input) == "exit" {
      return Turn(shown, response.context, None);
    }
    var context := response.context + [UserMessage(input, UserSource)];
    t := Turn(shown, context, Some(Envelope(ToTopic(TopicId(response.replyToTopicType, key)), TaskMsg(UserTask(context)))));
  }

  /** The conversation only ever grows, by one user turn that carries the line read. */
  lemma ContinueAddsOneUserTurn(response: AgentResponse, input: string)
    requires !IsExit(input)
    ensures var ctx := response.context + [UserMessage(input, UserSource)];
      |ctx| == |response.context| + 1 && ctx[..|response.context|] == response.context
      && Shown(ctx) == (if input == "" then Shown(response.context) else input)
  {
    var ctx := response.context + [UserMessage(input, UserSource)];
    if input == "" {
      assert ctx[..|ctx| - 1] == response.context;
    }
  }

  /* ------------------------------------------- the banking_agent_2.py variant */

  /** The variant shows the latest assistant turn, written with `str` when it holds calls; "" if none. */
  function ShownAssistant(ctx: seq<LLMMessage>): (r: string)
    ensures (forall i :: 0 <= i < |ctx| ==> !ctx[i].AssistantMessage?) ==> r == ""
  {
    if ctx == [] then ""
    else
      var last := ctx[|ctx| - 1];
      if last.AssistantMessage? then ContentText(last)
      else
        var r := ShownAssistant(ctx[..|ctx| - 1]);
        assert forall i :: 0 <= i < |ctx| - 1 ==> ctx[..|ctx| - 1][i] == ctx[i];
        r
  }

  /** The scan of the variant: walk back from the end and stop at the first assistant turn. */
  method LastAssistantText(ctx: seq<LLMMessage>) returns (r: string)
    ensures r == ShownAssistant(ctx)
  {
    r := "";
    var i := |ctx|;
    while i > 0
      invariant 0 <= i <= |ctx|
      invariant forall j :: i <= j < |ctx| ==> !ctx[j].AssistantMessage?
    {
      var m := ctx[i - 1];
      if m.AssistantMessage? {
        ShownAssistantIsLatest(ctx, i - 1);
        return ContentText(m);
      }
      i := i - 1;
    }
  }

  /** What the variant shows is the content of the last assistant turn. */
  lemma {:induction false} ShownAssistantIsLatest(ctx: seq<LLMMessage>, i: nat)
    requires i < |ctx| && ctx[i].AssistantMessage?
    requires forall j :: i < j < |ctx| ==> !ctx[j].AssistantMessage?
    ensures ShownAssistant(ctx) == ContentText(ctx[i])
    decreases |ctx|
  {
    if i < |ctx| - 1 {
      var init := ctx[..|ctx| - 1];
      assert init[i] == ctx[i];
      ShownAssistantIsLatest(init, i);
    }
  }

  /** `user_input.strip().lower() == "exit"` */
  predicate IsExitTrimmed(input: string) {
    Lower(Strip(input)) == "exit"
  }

  /** The variant's `handle_agent_response`. */
  method HandleAgentResponseTrimmed(key: string, response: AgentResponse, input: string) returns (t: Turn)
    ensures t.shown == ShownAssistant(response.context)
    ensures IsExitTrimmed(input) ==> t.out.None? && t.context == response.context
    ensures !IsExitTrimmed(input) ==>
              t.context == response.context + [UserMessage(input, UserSource)]
              && t.out == Some(Envelope(ToTopic(TopicId(response.replyToTopicType, key)), TaskMsg(UserTask(t.context))))
  {
    var shown := LastAssistantText(response.context);
    if Lower(Strip(input)) == "exit" {
      return Turn(shown, response.context, None);
    }
    var context := response.context + [UserMessage(input, UserSource)];
    t := Turn(shown, context, Some(Envelope(ToTopic(TopicId(response.replyToTopicType, key)), TaskMsg(UserTask(context)))));
  }

  /** Every line that ends the session in the console agent ends it in the variant too ... */
  lemma ExitImpliesTrimmedExit(input: string)
    requires IsExit(input)
    ensures IsExitTrimmed(input)
  {
    assert |input| == 4;
    assert forall i :: 0 <= i < 4 ==> !IsSpace(input[i]) by {
      forall i | 0 <= i < 4
        ensures !IsSpace(input[i])
      {
        assert Lower(input)[i] == LowerChar(input[i]);
      }
    }
    assert LStrip(input) == input;
    assert RStrip(input) == input;
  }

  /** ... but not the other way round: surrounding blanks end only the variant's session. */
  lemma TrimmedExitIsWeaker()
    ensures IsExitTrimmed(" exit") && !IsExit(" exit")
  {
    assert LStrip(" exit") == "exit" by {
      assert " exit"[1..] == "exit";
    }
    assert RStrip("exit") == "exit";
    assert Lower("exit") == "exit";
    assert Lower(" exit")[0] == ' ';
  }
}
