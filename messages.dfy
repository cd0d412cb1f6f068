/**
 * Message shapes exchanged between agents (banking_chatbot/app/messages/message_types.py)
 * and the chat-completion turn types they carry.
 */
module Messages {
  import opened Wrappers
  import opened PyStrings

  /** A tool invocation requested by the model. */
  datatype FunctionCall = FunctionCall(id: string, name: string, arguments: string)

  /** The outcome of running one tool call. */
  datatype FunctionResult = FunctionResult(callId: string, content: string, isError: bool, name: string)

  /** An assistant turn holds either text or the list of calls the model asked for. */
  datatype AssistantContent = TextContent(text: string) | CallContent(calls: seq<FunctionCall>)

  /** One turn of a conversation context. */
  datatype LLMMessage =
    | SystemMessage(content: string)
    | UserMessage(content: string, source: string)
    | AssistantMessage(body: AssistantContent, source: string)
    | ResultMessage(results: seq<FunctionResult>)

  /**
   * What one call of the model returns: a string, a list made only of function
   * calls, or anything else (carried as its JSON serialisation).
   */
  datatype ModelReply = Text(text: string) | Calls(calls: seq<FunctionCall>) | Other(serialized: string)

  /** Carries a conversation from one agent to another. */
  datatype UserTask = UserTask(context: seq<LLMMessage>)

  /** A reply for the user, with the topic type the user's next message goes to. */
  datatype AgentResponse = AgentResponse(replyToTopicType: string, context: seq<LLMMessage>)

  datatype UserCredentials = UserCredentials(username: string, password: string)

  datatype UserLogin = UserLogin(username: string)

  /** A topic: a topic type plus the session key (`source`). */
  datatype TopicId = TopicId(topicType: string, source: string)

  /**
   * Where a message is sent: a full topic, a bare topic-type string passed where a
   * topic is expected, or one agent instance addressed directly.
   */
  datatype Destination = ToTopic(topic: TopicId) | ToBareType(topicType: string) | ToAgent(agentType: string, key: string)

  datatype Payload =
    | TaskMsg(task: UserTask)
    | ResponseMsg(response: AgentResponse)
    | CredentialsMsg(credentials: UserCredentials)
    | LoginMsg(login: UserLogin)
    | QueryMsg(query: string)

  /** One publish (or direct send) recorded in an outbox. */
  datatype Envelope = Envelope(dest: Destination, payload: Payload)

  /** The closed set of classifier labels. */
  const AllowedAgents: set<string> := {
    "RetailBankingAgent",
    "CorporateBusinessBankingAgent",
    "InvestmentBankingAgent",
    "WealthManagementAgent",
    "RiskManagementAgent",
    "InsuranceAgent",
    "ITOpsAgent",
    "PaymentsAgent",
    "CapitalTreasuryAgent",
    "AnalyticsAgent"
  }

  /** `DomainClassifierOutput.validate_agent_name`: returns the value, or raises `ValueError`. */
  function ValidateAgentName(value: string): (r: Result<string, string>)
    ensures r.Success? <==> value in AllowedAgents
    ensures r.Success? ==> r.value == value
    ensures r.Failure? ==> r.error == "Invalid agent name: " + value
  {
    if value in AllowedAgents then Success(value) else Failure("Invalid agent name: " + value)
  }

  lemma AllowedAgentsHasTenNames()
    ensures |AllowedAgents| == 10
  {
  }

  /** The content of a turn when it is a string (system, user and text assistant turns). */
  function StringContent(m: LLMMessage): Option<string> {
    match m
    case SystemMessage(c) => Some(c)
    case UserMessage(c, _) => Some(c)
    case AssistantMessage(TextContent(t), _) => Some(t)
    case AssistantMessage(CallContent(_), _) => None
    case ResultMessage(_) => None
  }

  function CallRepr(c: FunctionCall): string {
    "FunctionCall(id='" + c.id + "', arguments='" + c.arguments + "', name='" + c.name + "')"
  }

  function ResultRepr(r: FunctionResult): string {
    "FunctionExecutionResult(content='" + r.content + "', name='" + r.name + "', call_id='"
    + r.callId + "', is_error=" + (if r.isError then "True" else "False") + ")"
  }

  function CallsRepr(calls: seq<FunctionCall>): string {
    "[" + Join(", ", seq(|calls|, i requires 0 <= i < |calls| => CallRepr(calls[i]))) + "]"
  }

  function ResultsRepr(results: seq<FunctionResult>): string {
    "[" + Join(", ", seq(|results|, i requires 0 <= i < |results| => ResultRepr(results[i]))) + "]"
  }

  /** `str(m.content)` */
  function ContentText(m: LLMMessage): string {
    match m
    case SystemMessage(c) => c
    case UserMessage(c, _) => c
    case AssistantMessage(TextContent(t), _) => t
    case AssistantMessage(CallContent(calls), _) => CallsRepr(calls)
    case ResultMessage(results) => ResultsRepr(results)
  }
}
