/**
 * The ten domain-agent registrations of banking_chatbot/app/agents/domain_agents.py:
 * each registers a tool-less `BankingAIAgent` under a topic type, subscribes it to
 * that same topic, and gives it the domain label as its description.
 */
module DomainAgents {
  import opened Wrappers
  import opened Messages
  import opened DelegateTools
  import opened ToolLoop
  import Classifier

  /** One `register_*_agent` helper: the registered type, the agent's description, its two topics and its subscription. */
  datatype Registration = Registration(
    registeredType: string,
    description: string,
    myTopicType: string,
    userTopicType: string,
    subscribedTopic: string)

  function Domain(topic: string, description: string): Registration {
    Registration(topic, description, topic, "User", topic)
  }

  /** The registrations, in the order the runtime performs them. */
  const DomainRegistrations: seq<Registration> := [
    Domain("RetailBanking", "RetailBankingAgent"),
    Domain("CorporateBanking", "CorporateBusinessBankingAgent"),
    Domain("InvestmentBanking", "InvestmentBankingAgent"),
    Domain("WealthManagement", "WealthManagementAgent"),
    Domain("RiskManagement", "RiskManagementAgent"),
    Domain("Insurance", "InsuranceAgent"),
    Domain("ITOps", "ITOpsAgent"),
    Domain("Payments", "PaymentsAgent"),
    Domain("CapitalTreasury", "CapitalTreasuryAgent"),
    Domain("Analytics", "AnalyticsAgent")
  ]

  /** The constructor arguments a registration gives its agent: no tools and no delegate tools. */
  function SetupOf(reg: Registration): (s: AgentSetup)
    ensures s.tools == map[] && s.delegateTools == {}
    ensures s.idType == reg.registeredType && s.myTopicType == reg.myTopicType
  {
    AgentSetup(reg.registeredType, map[], {}, reg.myTopicType, reg.userTopicType, ChatbotAgent)
  }

  /** The agent a topic's subscription delivers to, if any: the first registration subscribed to it. */
  function Subscriber(regs: seq<Registration>, topic: string): (r: Option<Registration>)
    ensures r.Some? ==> r.value in regs && r.value.subscribedTopic == topic
    ensures r.None? ==> forall i :: 0 <= i < |regs| ==> regs[i].subscribedTopic != topic
  {
    if regs == [] then None
    else if regs[0].subscribedTopic == topic then Some(regs[0])
    else Subscriber(regs[1..], topic)
  }

  /** Every registration listens on its own topic type, answers to "User", and is registered under that topic. */
  lemma RegistrationsConsistent(i: nat)
    requires i < |DomainRegistrations|
    ensures var reg := DomainRegistrations[i];
      reg.registeredType == reg.myTopicType == reg.subscribedTopic
      && reg.userTopicType == "User"
      && reg.description in AllowedAgents
  {
  }

  /** No two registrations subscribe to the same topic. */
  predicate DistinctTopics(regs: seq<Registration>) {
    forall i, j :: 0 <= i < j < |regs| ==> regs[i].subscribedTopic != regs[j].subscribedTopic
  }

  lemma RegistrationTopicsDistinct()
    ensures DistinctTopics(DomainRegistrations)
  {
    forall i, j | 0 <= i < j < |DomainRegistrations|
      ensures DomainRegistrations[i].subscribedTopic != DomainRegistrations[j].subscribedTopic
    {
      var a, b := DomainRegistrations[i].subscribedTopic, DomainRegistrations[j].subscribedTopic;
      assert |a| != |b| || a[0] != b[0];
    }
  }

  /** When topics are distinct, each topic is delivered to the agent registered for it. */
  lemma {:induction false} SubscriberFindsOwnTopic(regs: seq<Registration>, i: nat)
    requires DistinctTopics(regs) && i < |regs|
    ensures Subscriber(regs, regs[i].subscribedTopic) == Some(regs[i])
  {
    if i > 0 {
      assert regs[0].subscribedTopic != regs[i].subscribedTopic;
      assert DistinctTopics(regs[1..]) by {
        forall a, b | 0 <= a < b < |regs| - 1
          ensures regs[1..][a].subscribedTopic != regs[1..][b].subscribedTopic
        {
          assert regs[1..][a] == regs[a + 1] && regs[1..][b] == regs[b + 1];
        }
      }
      SubscriberFindsOwnTopic(regs[1..], i - 1);
    }
  }

  /** The position of the registration that carries a label. */
  function RegistrationIndex(agentName: string): (i: nat)
    requires agentName in AllowedAgents
    ensures i < |DomainRegistrations|
    ensures agentName in Classifier.AgentToTool
    ensures DomainRegistrations[i].description == agentName
      && DomainRegistrations[i].myTopicType == Classifier.AgentToTool[agentName].Run()
  {
    if agentName == "RetailBankingAgent" then 0
    else if agentName == "CorporateBusinessBankingAgent" then 1
    else if agentName == "InvestmentBankingAgent" then 2
    else if agentName == "WealthManagementAgent" then 3
    else if agentName == "RiskManagementAgent" then 4
    else if agentName == "InsuranceAgent" then 5
    else if agentName == "ITOpsAgent" then 6
    else if agentName == "PaymentsAgent" then 7
    else if agentName == "CapitalTreasuryAgent" then 8
    else 9
  }

  /**
   * The routing closes: for every label the classifier can settle on, the topic its
   * delegate tool returns has a subscribed agent, and that agent carries the label.
   */
  lemma EveryLabelReachesItsAgent(agentName: string)
    requires agentName in AllowedAgents
    ensures agentName in Classifier.AgentToTool
    ensures var topic := Classifier.AgentToTool[agentName].Run();
      var sub := Subscriber(DomainRegistrations, topic);
      sub.Some? && sub.value.description == agentName && sub.value.myTopicType == topic
  {
    Classifier.AgentToToolCoversLabels(agentName);
    var i := RegistrationIndex(agentName);
    RegistrationsConsistent(i);
    OwnTopicDelivers(i);
  }

  /** Each registration's own topic is delivered to that registration. */
  lemma OwnTopicDelivers(i: nat)
    requires i < |DomainRegistrations|
    ensures Subscriber(DomainRegistrations, DomainRegistrations[i].subscribedTopic) == Some(DomainRegistrations[i])
  {
    RegistrationTopicsDistinct();
    SubscriberFindsOwnTopic(DomainRegistrations, i);
  }

  /** The runtime registers the domains in the order of the tool list: the i-th tool returns the i-th topic. */
  lemma ToolsInRegistrationOrder()
    ensures |AllTools| == |DomainRegistrations|
    ensures forall i :: 0 <= i < |AllTools| ==> AllTools[i].Run() == DomainRegistrations[i].subscribedTopic
  {
    forall i | 0 <= i < |AllTools|
      ensures AllTools[i].Run() == DomainRegistrations[i].subscribedTopic
    {
      if i < 5 {
        assert i == 0 || i == 1 || i == 2 || i == 3 || i == 4;
      } else {
        assert i == 5 || i == 6 || i == 7 || i == 8 || i == 9;
      }
    }
  }

  /**
   * The other direction of the routing: each registered topic is the topic some
   * delegate tool returns, so the two sets of topics coincide.
   */
  lemma ToolTopicsAreRegisteredTopics()
    ensures (set t | t in AllTools :: t.Run()) == (set r | r in DomainRegistrations :: r.subscribedTopic)
  {
    ToolsInRegistrationOrder();
    PairedTopicsAgree(AllTools, DomainRegistrations);
  }

  /** Tools and registrations paired index by index have the same set of topics. */
  lemma PairedTopicsAgree(tools: seq<DelegateTool>, regs: seq<Registration>)
    requires |tools| == |regs|
    requires forall i :: 0 <= i < |tools| ==> tools[i].Run() == regs[i].subscribedTopic
    ensures (set t | t in tools :: t.Run()) == (set r | r in regs :: r.subscribedTopic)
  {
    forall r | r in regs
      ensures r.subscribedTopic in (set t | t in tools :: t.Run())
    {
      var i :| 0 <= i < |regs| && regs[i] == r;
      assert tools[i] in tools;
    }
    forall t | t in tools
      ensures t.Run() in (set r | r in regs :: r.subscribedTopic)
    {
      var i :| 0 <= i < |tools| && tools[i] == t;
      assert regs[i] in regs;
    }
  }

  /** Whatever a domain agent returns names its own topic as the reply-to, so the user's next turn comes back to it. */
  lemma RepliesReturnToSameAgent(i: nat, session: string)
    requires i < |DomainRegistrations|
    ensures var reg := DomainRegistrations[i];
      Subscriber(DomainRegistrations, SetupOf(reg).myTopicType) == Some(reg)
      && ResponseDestination(SetupOf(reg), session) == ToBareType("User")
  {
    RegistrationsConsistent(i);
    OwnTopicDelivers(i);
  }

  /**
   * With no tools, a domain agent finishes only when its first reply is text: any
   * non-empty list of calls raises "Unexpected tool called".
   */
  lemma {:induction false} DomainAgentCallsRaise(i: nat, ctx: seq<LLMMessage>, model: seq<LLMMessage> -> ModelReply,
                                                 jsonOk: string -> bool, fuel: nat)
    requires i < |DomainRegistrations| && fuel > 0
    requires model(ctx).Calls? && model(ctx).calls != []
    requires jsonOk(model(ctx).calls[0].arguments)
    ensures RunLoop(SetupOf(DomainRegistrations[i]), ctx, model, jsonOk, fuel)
            == Raised(UnexpectedTool(model(ctx).calls[0].name))
  {
    var setup := SetupOf(DomainRegistrations[i]);
    var calls := model(ctx).calls;
    assert FirstFailure(setup, calls, jsonOk, 0);
    assert CheckCall(setup, calls[0], jsonOk) == Failure(UnexpectedTool(calls[0].name));
    var ex := ExecuteCalls(setup, calls, jsonOk);
    assert ex.Failure?;
    forall k | 0 <= k < |calls| && FirstFailure(setup, calls, jsonOk, k)
      ensures k == 0
    {
    }
    RunLoopCallsRound(setup, ctx, model, jsonOk, fuel - 1);
  }
}
