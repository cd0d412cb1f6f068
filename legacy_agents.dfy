/**
 * The domain agents of the two older single-file scripts, banking_agent_1.py and
 * banking_agent.py. Their classifier (modelled as `Classifier.ForwardQuery`) sends
 * the raw query to the "default" instance of the labelled agent type.
 *
 * In banking_agent_1.py all ten domain agents keep a model context: they record
 * the user turn, ask the model, require a text reply, record the answer and
 * return it. In banking_agent.py only the retail agent does this; the other nine
 * print a fixed response and return nothing.
 */
module LegacyAgents {
  import opened Wrappers
  import opened Messages
  import opened Classifier

  const ClassifierType: string := "DomainClassifierAgent"

  /** The agent types both scripts register, in registration order. */
  const LegacyRegistrations: seq<string> := [
    ClassifierType,
    "RetailBankingAgent",
    "CorporateBusinessBankingAgent",
    "InvestmentBankingAgent",
    "WealthManagementAgent",
    "RiskManagementAgent",
    "InsuranceAgent",
    "ITOpsAgent",
    "PaymentsAgent",
    "CapitalTreasuryAgent",
    "AnalyticsAgent"
  ]

  /** The registered domain types are exactly the classifier's labels, and no type is registered twice. */
  lemma RegistrationsMatchLabels()
    ensures (set i | 1 <= i < |LegacyRegistrations| :: LegacyRegistrations[i]) == AllowedAgents
    ensures ClassifierType !in AllowedAgents
    ensures forall i, j :: 0 <= i < j < |LegacyRegistrations| ==> LegacyRegistrations[i] != LegacyRegistrations[j]
  {
    var s := set i | 1 <= i < |LegacyRegistrations| :: LegacyRegistrations[i];
    assert forall a :: a in AllowedAgents ==> a in s by {
      assert LegacyRegistrations[1] in s && LegacyRegistrations[2] in s && LegacyRegistrations[3] in s;
      assert LegacyRegistrations[4] in s && LegacyRegistrations[5] in s && LegacyRegistrations[6] in s;
      assert LegacyRegistrations[7] in s && LegacyRegistrations[8] in s && LegacyRegistrations[9] in s;
      assert LegacyRegistrations[10] in s;
    }
  }

  /** Every query the classifier forwards reaches a registered agent type, always under the key "default". */
  lemma ForwardedQueryHasTarget(query: string, reply: ModelReply, parse: string -> Option<string>)
    requires ForwardQuery(query, reply, parse).Success?
    ensures var e := ForwardQuery(query, reply, parse).value;
      e.dest.agentType in LegacyRegistrations && e.dest.agentType != ClassifierType && e.dest.key == "default"
  {
    RegistrationsMatchLabels();
    var e := ForwardQuery(query, reply, parse).value;
    var i :| 1 <= i < |LegacyRegistrations| && LegacyRegistrations[i] == e.dest.agentType;
  }

  /** The texts banking_agent.py's nine stub handlers print; they return nothing and keep no state. */
  const StubResponses: map<string, string> := map[
    "CorporateBusinessBankingAgent" := "Corporate & Business Banking Response: Your business inquiry has been addressed.",
    "InvestmentBankingAgent" := "Investment Banking Response: Your investment-related query is under review.",
    "WealthManagementAgent" := "Wealth Management Response: Your private banking query has been resolved.",
    "RiskManagementAgent" := "Risk Management Response: Your risk and compliance query has been processed.",
    "InsuranceAgent" := "Insurance Response: Your insurance and bancassurance inquiry is resolved.",
    "ITOpsAgent" := "IT-Ops Response: Your IT operations query has been handled.",
    "PaymentsAgent" := "Payments & Settlement Systems Response: Your payment query has been successfully processed.",
    "CapitalTreasuryAgent" := "Capital & Treasury Operations Response: Your query regarding capital/treasury operations is handled.",
    "AnalyticsAgent" := "Analytics & Business Intelligence Response: Your analytics inquiry has been resolved."
  ]

  /**
   * Which agents of banking_agent.py answer with the model: only the retail agent.
   * Every other label reaches a stub whose response does not depend on the query.
   */
  lemma StubsCoverOtherLabels(name: string)
    ensures name in StubResponses <==> name in AllowedAgents && name != "RetailBankingAgent"
  {
  }

  /** A domain agent of the older scripts with its model context (`BufferedChatCompletionContext`). */
  class ConversationAgent {
    /** The registered type, used as the source of its assistant turns. */
    const agentType: string
    /** Every turn added to the model context, oldest first. */
    var modelContext: seq<LLMMessage>

    constructor (agentType: string)
      ensures this.agentType == agentType && modelContext == []
    {
      this.agentType := agentType;
      modelContext := [];
    }

    /**
     * `handle_query`: the user turn is recorded before the model is asked. A
     * reply that is not text fails the `assert` and leaves that user turn behind
     * with no answer; a text reply is recorded as this agent's turn and returned.
     */
    method HandleQuery(query: string, reply: ModelReply) returns (r: Result<string, string>)
      modifies this
      ensures reply.Text? ==>
                r == Success(reply.text)
                && modelContext == old(modelContext) + [UserMessage(query, "User"), AssistantMessage(TextContent(reply.text), agentType)]
      ensures !reply.Text? ==>
                r == Failure("AssertionError") && modelContext == old(modelContext) + [UserMessage(query, "User")]
    {
      modelContext := modelContext + [UserMessage(query, "User")];
      if !reply.Text? {
        return Failure("AssertionError");
      }
      modelContext := modelContext + [AssistantMessage(TextContent(reply.text), agentType)];
      return Success(reply.text);
    }
  }
}
