/**
 * The domain classifier (triage) agent. It asks the model for a JSON object
 * naming one of the ten domain labels, falls back to retail banking when the
 * answer cannot be read, and hands the conversation to the domain topic
 * returned by the matching delegate tool (banking_chatbot/app/agents/domain_classifier_agent.py
 * and the scripted copy in banking_agent_2.py). The older scripts (banking_agent.py,
 * banking_agent_1.py) forward the raw query straight to the labelled agent instead.
 *
 * The model is a parameter: it receives the gathered user text (the prompt
 * around it is constant) and returns a reply. Decoding the JSON candidate into
 * its `agent_name` string is the parameter `parse`; the label is then checked
 * by `ValidateAgentName`.
 */
module Classifier {
  import opened Wrappers
  import opened PyStrings
  import opened Messages
  import opened DelegateTools

  /** The two copies of the topic-based classifier differ in three details. */
  datatype Variant =
    | /** banking_chatbot: `strip()` sits inside the `try`, so any non-text reply falls back. */
      Chatbot
    | /** banking_agent_2.py: `strip()` is outside the `try`, so a non-text reply raises. */
      Scripted

  datatype ClassifierError =
    | /** `AttributeError`: the reply had no `strip()`. */
      ReplyNotText
    | /** `KeyError`: neither the chosen tool nor the retail tool is registered. */
      MissingTool(name: string)

  /** The label used whenever the model's answer cannot be read. */
  const DefaultLabel: string := "RetailBankingAgent"

  /** The `agent_to_tool` table, label to delegate tool. */
  const AgentToTool: map<string, DelegateTool> := map[
    "RetailBankingAgent" := TransferToRetailBanking,
    "CorporateBusinessBankingAgent" := TransferToCorporateBanking,
    "InvestmentBankingAgent" := TransferToInvestmentBanking,
    "WealthManagementAgent" := TransferToWealthManagement,
    "RiskManagementAgent" := TransferToRiskManagement,
    "InsuranceAgent" := TransferToInsurance,
    "ITOpsAgent" := TransferToItOps,
    "PaymentsAgent" := TransferToPayments,
    "CapitalTreasuryAgent" := TransferToCapitalTreasury,
    "AnalyticsAgent" := TransferToAnalytics
  ]

  /** The tool table covers exactly the labels the validator admits. */
  lemma AgentToToolCoversLabels(agentName: string)
    ensures agentName in AgentToTool <==> agentName in AllowedAgents
  {
  }

  /** The tools the table names are exactly the registered delegate tools. */
  lemma AgentToToolIsAllTools()
    ensures AgentToTool.Values == set t | t in AllTools
  {
    forall t | t in AllTools
      ensures t in AgentToTool.Values
    {
      AllToolsComplete(t);
      match t
      case TransferToRetailBanking => assert AgentToTool["RetailBankingAgent"] == t;
      case TransferToCorporateBanking => assert AgentToTool["CorporateBusinessBankingAgent"] == t;
      case TransferToInvestmentBanking => assert AgentToTool["InvestmentBankingAgent"] == t;
      case TransferToWealthManagement => assert AgentToTool["WealthManagementAgent"] == t;
      case TransferToRiskManagement => assert AgentToTool["RiskManagementAgent"] == t;
      case TransferToInsurance => assert AgentToTool["InsuranceAgent"] == t;
      case TransferToItOps => assert AgentToTool["ITOpsAgent"] == t;
      case TransferToPayments => assert AgentToTool["PaymentsAgent"] == t;
      case TransferToCapitalTreasury => assert AgentToTool["CapitalTreasuryAgent"] == t;
      case TransferToAnalytics => assert AgentToTool["AnalyticsAgent"] == t;
    }
    forall t | t in AgentToTool.Values
      ensures t in AllTools
    {
      AllToolsComplete(t);
    }
  }

  /** The text of every user turn, each followed by a newline, in order. */
  function UserText(ctx: seq<LLMMessage>): string {
    if ctx == [] then ""
    else UserText(ctx[..|ctx| - 1]) + UserPart(ctx[|ctx| - 1])
  }

  function UserPart(m: LLMMessage): string {
    if m.UserMessage? then m.content + "\n" else ""
  }

  lemma {:induction false} UserTextAppend(a: seq<LLMMessage>, b: seq<LLMMessage>)
    ensures UserText(a + b) == UserText(a) + UserText(b)
    decreases |b|
  {
    if b == [] {
      assert a + b == a;
    } else {
      var b' := b[..|b| - 1];
      var m := b[|b| - 1];
      assert (a + b)[..|a + b| - 1] == a + b';
      assert (a + b)[|a + b| - 1] == m;
      assert UserText(a + b) == UserText(a + b') + UserPart(m);
      UserTextAppend(a, b');
      assert UserText(b) == UserText(b') + UserPart(m);
    }
  }

  /** Turns that are not user turns leave the gathered text unchanged. */
  lemma {:induction false} UserTextIgnoresOthers(ctx: seq<LLMMessage>, extra: seq<LLMMessage>)
    requires forall k :: 0 <= k < |extra| ==> !extra[k].UserMessage?
    ensures UserText(ctx + extra) == UserText(ctx)
    decreases |extra|
  {
    if extra != [] {
      var e := extra[..|extra| - 1];
      assert (ctx + extra)[..|ctx + extra| - 1] == ctx + e;
      UserTextIgnoresOthers(ctx, e);
    } else {
      assert ctx + extra == ctx;
    }
  }

  /** `content[content.find("{"):content.rfind("}") + 1]`: the candidate JSON text. */
  function JsonCandidate(content: string): string {
    Slice(content, Find(content, '{'), RFind(content, '}') + 1)
  }

  /** When the reply holds a `{` before its last `}`, the candidate runs from the first `{` through the last `}`. */
  lemma {:induction false} JsonCandidateSpansBraces(content: string)
    requires 0 <= Find(content, '{') < RFind(content, '}')
    ensures var r := JsonCandidate(content);
      |r| >= 2 && r[0] == '{' && r[|r| - 1] == '}'
      && r == content[Find(content, '{')..RFind(content, '}') + 1]
  {
    var lo, hi := Find(content, '{'), RFind(content, '}') + 1;
    assert content[lo] == '{' && content[hi - 1] == '}';
    BracedSlice(content, lo, hi);
  }

  /** A slice whose bounds sit on a `{` and just past a `}` is that braced stretch of the text. */
  lemma BracedSlice(content: string, lo: int, hi: int)
    requires 0 <= lo < hi - 1 < |content| && content[lo] == '{' && content[hi - 1] == '}'
    ensures var r := Slice(content, lo, hi);
      |r| >= 2 && r[0] == '{' && r[|r| - 1] == '}' && r == content[lo..hi]
  {
    SliceWithin(content, lo, hi);
    BracedSpan(content, lo, hi);
  }

  lemma BracedSpan(content: string, lo: nat, hi: nat)
    requires lo < hi - 1 < |content| && content[lo] == '{' && content[hi - 1] == '}'
    ensures var r := content[lo..hi]; |r| >= 2 && r[0] == '{' && r[|r| - 1] == '}'
  {
  }

  /** Without any `}`, no candidate survives the slice. */
  lemma JsonCandidateWithoutClosingBrace(content: string)
    requires '}' !in content
    ensures JsonCandidate(content) == ""
  {
  }

  /** The `try` block: decode the candidate, then validate the label. `None` means an exception was caught. */
  function ParseLabel(content: string, parse: string -> Option<string>): (r: Option<string>)
    ensures r.Some? <==> parse(JsonCandidate(content)).Some?
                         && parse(JsonCandidate(content)).value in AllowedAgents
    ensures r.Some? ==> r.value in AllowedAgents && r.value == parse(JsonCandidate(content)).value
  {
    match parse(JsonCandidate(content))
    case None => None
    case Some(name) =>
      match ValidateAgentName(name)
      case Success(v) => Some(v)
      case Failure(_) => None
  }

  /** The label the agent settles on, or the exception raised before the `try`. */
  function Classify(variant: Variant, reply: ModelReply, parse: string -> Option<string>): (r: Result<string, ClassifierError>)
    ensures r.Success? ==> r.value in AllowedAgents
    ensures r.Failure? <==> variant.Scripted? && !reply.Text?
    ensures r.Failure? ==> r.error == ReplyNotText
  {
    match reply
    case Text(t) => Success(ParseLabel(Strip(t), parse).GetOr(DefaultLabel))
    case _ => if variant.Chatbot? then Success(DefaultLabel) else Failure(ReplyNotText)
  }

  /** A readable label wins; anything else falls back to retail banking. */
  lemma ClassifyFollowsLabel(variant: Variant, t: string, parse: string -> Option<string>)
    ensures ParseLabel(Strip(t), parse).Some? ==>
      Classify(variant, Text(t), parse) == Success(ParseLabel(Strip(t), parse).value)
    ensures ParseLabel(Strip(t), parse).None? ==> Classify(variant, Text(t), parse) == Success(DefaultLabel)
  {
  }

  /** Picking the tool: the label's tool when registered, else the retail tool, else `KeyError`. */
  function Route(agentName: string, registered: set<DelegateTool>): (r: Result<DelegateTool, ClassifierError>)
    ensures r.Success? ==> r.value in registered
    ensures agentName in AgentToTool && AgentToTool[agentName] in registered ==> r == Success(AgentToTool[agentName])
    ensures (agentName !in AgentToTool || AgentToTool[agentName] !in registered) ==>
      r == if TransferToRetailBanking in registered then Success(TransferToRetailBanking)
           else Failure(MissingTool(TransferToRetailBanking.Name()))
  {
    var chosen := if agentName in AgentToTool then AgentToTool[agentName] else TransferToRetailBanking;
    var tool := if chosen in registered then chosen else TransferToRetailBanking;
    if tool in registered then Success(tool) else Failure(MissingTool(tool.Name()))
  }

  /** The handoff result text of the banking_chatbot classifier. */
  function ChatbotHandoffText(target: string): string {
    "Transferred to " + target + " agent. Please adopt persona immediately."
  }

  /** The handoff result text of the banking_agent_2.py classifier. */
  function ScriptedHandoffText(target: string): string {
    "Transferred to " + target + ". Adopt persona immediately."
  }

  function HandoffText(variant: Variant, target: string): string {
    if variant == Chatbot then ChatbotHandoffText(target) else ScriptedHandoffText(target)
  }

  /**
   * The context handed on: the original turns, then a synthetic assistant call of
   * the tool and its result, both under the call id "auto_handoff".
   */
  function Handoff(ctx: seq<LLMMessage>, tool: DelegateTool, selfType: string, text: string): (r: seq<LLMMessage>)
    ensures |r| == |ctx| + 2 && r[..|ctx|] == ctx
    ensures r[|ctx|] == AssistantMessage(CallContent([FunctionCall("auto_handoff", tool.Name(), "{}")]), selfType)
    ensures r[|ctx| + 1] == ResultMessage([FunctionResult("auto_handoff", text, false, tool.Name())])
  {
    ctx + [
      AssistantMessage(CallContent([FunctionCall("auto_handoff", tool.Name(), "{}")]), selfType),
      ResultMessage([FunctionResult("auto_handoff", text, false, tool.Name())])
    ]
  }

  /** The handoff adds no user turn, so the forwarded context gathers the same user text. */
  lemma HandoffKeepsUserText(ctx: seq<LLMMessage>, tool: DelegateTool, selfType: string, text: string)
    ensures UserText(Handoff(ctx, tool, selfType, text)) == UserText(ctx)
  {
    var extra := Handoff(ctx, tool, selfType, text)[|ctx|..];
    assert Handoff(ctx, tool, selfType, text) == ctx + extra;
    UserTextIgnoresOthers(ctx, extra);
  }

  /** What one task produces: the publish of the extended context to the chosen domain topic of the same session. */
  function Delegation(variant: Variant, ctx: seq<LLMMessage>, session: string, selfType: string,
                      registered: set<DelegateTool>, reply: ModelReply, parse: string -> Option<string>)
    : Result<Envelope, ClassifierError>
  {
    match Classify(variant, reply, parse)
    case Failure(e) => Failure(e)
    case Success(agentName) =>
      match Route(agentName, registered)
      case Failure(e) => Failure(e)
      case Success(tool) =>
        Success(Envelope(ToTopic(TopicId(tool.Run(), session)),
                         TaskMsg(UserTask(Handoff(ctx, tool, selfType, HandoffText(variant, tool.Run()))))))
  }

  /**
   * A successful delegation goes to the topic of a registered tool, in the same
   * session, and carries the whole original context plus the two handoff turns.
   */
  lemma DelegationShape(variant: Variant, ctx: seq<LLMMessage>, session: string, selfType: string,
                        registered: set<DelegateTool>, reply: ModelReply, parse: string -> Option<string>)
    ensures var r := Delegation(variant, ctx, session, selfType, registered, reply, parse);
      r.Success? ==>
        r.value.dest.ToTopic? && r.value.dest.topic.source == session
        && (exists t :: t in registered && r.value.dest.topic.topicType == t.Run())
        && r.value.payload.TaskMsg?
        && |r.value.payload.task.context| == |ctx| + 2
        && r.value.payload.task.context[..|ctx|] == ctx
        && UserText(r.value.payload.task.context) == UserText(ctx)
  {
    var r := Delegation(variant, ctx, session, selfType, registered, reply, parse);
    if r.Success? {
      var tool := Route(Classify(variant, reply, parse).value, registered).value;
      HandoffKeepsUserText(ctx, tool, selfType, HandoffText(variant, tool.Run()));
    }
  }

  /** With every delegate tool registered, a readable label sends the task to that label's domain topic. */
  lemma DelegationFollowsLabel(variant: Variant, ctx: seq<LLMMessage>, session: string, selfType: string,
                               t: string, parse: string -> Option<string>)
    requires ParseLabel(Strip(t), parse).Some?
    ensures var agentName := ParseLabel(Strip(t), parse).value;
      var r := Delegation(variant, ctx, session, selfType, (set x | x in AllTools), Text(t), parse);
      agentName in AgentToTool && r.Success? && r.value.dest == ToTopic(TopicId(AgentToTool[agentName].Run(), session))
  {
    var agentName := ParseLabel(Strip(t), parse).value;
    AgentToToolCoversLabels(agentName);
    AllToolsComplete(AgentToTool[agentName]);
  }

  /** A delegation fails exactly on a non-text reply to the scripted copy, or when the retail fallback is needed but missing. */
  lemma DelegationFails(variant: Variant, ctx: seq<LLMMessage>, session: string, selfType: string,
                        registered: set<DelegateTool>, reply: ModelReply, parse: string -> Option<string>)
    ensures var r := Delegation(variant, ctx, session, selfType, registered, reply, parse);
      r.Failure? <==>
        (variant == Scripted && !reply.Text?)
        || (Classify(variant, reply, parse).Success?
            && AgentToTool[Classify(variant, reply, parse).value] !in registered
            && TransferToRetailBanking !in registered)
  {
    var c := Classify(variant, reply, parse);
    if c.Success? {
      AgentToToolCoversLabels(c.value);
    }
  }

  /**
   * `handle_task`: gather the user text, ask the model, settle on a agentName, pick
   * the tool and publish the extended context to the tool's topic.
   */
  method HandleTask(variant: Variant, task: UserTask, session: string, selfType: string,
                    registered: set<DelegateTool>, model: string -> ModelReply, parse: string -> Option<string>)
    returns (r: Result<Envelope, ClassifierError>)
    ensures r == Delegation(variant, task.context, session, selfType, registered, model(UserText(task.context)), parse)
  {
    var userContent := "";
    var i := 0;
    while i < |task.context|
      invariant 0 <= i <= |task.context|
      invariant userContent == UserText(task.context[..i])
    {
      var m := task.context[i];
      if m.UserMessage? {
        userContent := userContent + m.content + "\n";
      }
      assert task.context[..i + 1][..i] == task.context[..i];
      i := i + 1;
    }
    assert task.context[..i] == task.context;
    var reply := model(userContent);
    var agentName := Classify(variant, reply, parse);
    if agentName.Failure? {
      return Failure(agentName.error);
    }
    var tool := Route(agentName.value, registered);
    if tool.Failure? {
      return Failure(tool.error);
    }
    var target := tool.value.Run();
    var newContext := Handoff(task.context, tool.value, selfType, HandoffText(variant, target));
    r := Success(Envelope(ToTopic(TopicId(target, session)), TaskMsg(UserTask(newContext))));
  }

  /**
   * The older scripts' `handle_query`: the reply must be text (its `strip()` is
   * outside the `try`); the original query is sent unchanged to the labelled
   * agent's "default" instance.
   */
  function ForwardQuery(query: string, reply: ModelReply, parse: string -> Option<string>): (r: Result<Envelope, ClassifierError>)
    ensures r.Success? <==> reply.Text?
    ensures r.Failure? ==> r.error == ReplyNotText
    ensures r.Success? ==>
      r.value.payload == QueryMsg(query)
      && r.value.dest.ToAgent? && r.value.dest.key == "default"
      && r.value.dest.agentType in AllowedAgents
      && Classify(Scripted, reply, parse).Success?
      && r.value.dest.agentType == Classify(Scripted, reply, parse).value
  {
    match Classify(Scripted, reply, parse)
    case Failure(e) => Failure(e)
    case Success(agentName) => Success(Envelope(ToAgent(agentName, "default"), QueryMsg(query)))
  }
}
