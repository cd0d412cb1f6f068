# Banking multi-agent chatbot — a Dafny model

This project models the message flow of a multi-agent banking chatbot built on an
agent runtime with topic-based publish/subscribe.

- A user logs in with a username and password. The authentication agent checks them
  against a credentials table.
- The user's turns go to a **domain classifier**. It asks a language model for one of
  ten domain labels (`RetailBankingAgent`, …, `AnalyticsAgent`). When the answer
  cannot be read, it falls back to retail banking. It then hands the conversation,
  extended by a synthetic "auto_handoff" tool call, to the domain topic that the
  label's `transfer_to_*` delegate tool returns.
- The **domain agents** run the generic tool loop. They call the model, run any tool
  calls it requests, append the call turn and the result turn, and ask again until
  the model answers with text. The answer is published to the user topic.
- The **retail banking agent** forwards balance and payment requests to two
  sub-agents. The balance agent reads the accounts table. The payment agent parses
  the receiver, IFSC code and amount from the user's turns, checks the balance,
  debits it, and writes a ledger row under a fresh `TXnnn` id.
- The **payments agent** looks a transaction up in the gateway table. When the
  payment succeeded but core banking did not record it, the user may confirm a
  repair that sets the core-banking status.
- Two front ends carry the session:
  - a console `UserAgent`, which shows the latest answer and reads the next line;
  - a websocket endpoint, whose state machine asks for the username, password and
    name, then forwards every line through a `RuntimeManager`. The manager keeps the
    per-session conversation, pending-response queues and open sockets.
- Two older single-file scripts are also covered. Their classifier sends the raw
  query straight to the labelled agent.

The language model, `input()`, the clock, the websocket and the files are
parameters or values. Every publish the code makes is returned as an envelope
(destination plus payload) or recorded in the manager's `published` list.

Facts the model makes visible about the code as written:

- `BankingAIAgent.handle_task` publishes its reply to the bare string `"User"`, not
  to a topic. The manager's publish hook reads `.source` from that destination, so
  the reply raises `AttributeError` before the runtime sees it
  (`RuntimeManagement.RuntimeManager.Publish`). The web flow also registers no user
  agent, so the login the authentication agent publishes has no subscriber.
- The web conversation keeps only the user's own turns. Each query is sent with all
  earlier queries of the session, never with agent answers
  (`WebsocketEndpoint.QueryPublishesCarryHistory`).
- A repeated username in the credentials file keeps only its last password
  (`Authentication.AcceptedIffLastRow`).
- A negative payment amount passes the balance check and raises the balance
  (`RetailSubAgents.NegativeAmountPasses`).
- A sender with no account row may pay 0, and the payment is still written to the
  ledger (`RetailSubAgents.NoAccountZeroPaymentIsLedgered`).
- With a duplicated transaction id, the repair can update a later row while the
  lookup keeps reporting the first one (`Transactions.DuplicateIdKeepsMismatchVisible`).
- `drain_agent_responses` is never called, so a response queued for a session without an open socket is never delivered. A second connection under the same username replaces the first one's socket, and the first one's disconnect then drops it (`RuntimeManagement.RuntimeManager.UnregisterWebsocket`).
- The console agent of `banking_agent_2.py` strips the input before comparing it
  with "exit"; the packaged console agent does not (`UserAgent.TrimmedExitIsWeaker`).

## Model

| member | source | states |
|---|---|---|
| Messages.ValidateAgentName | banking_chatbot/app/messages/message_types.py:36-51 | a name is accepted exactly when it is one of the ten labels; it is returned unchanged; otherwise the error is "Invalid agent name: " followed by the value |
| Messages.AllowedAgentsHasTenNames | banking_chatbot/app/messages/message_types.py:37-48 | the label set has ten distinct names |
| DelegateTools.ToolNamed | banking_chatbot/app/tools/delegate_tools.py:6-34 | looking a tool up by name yields only a tool registered under that name |
| DelegateTools.ToolNamedInvertsName | banking_chatbot/app/tools/delegate_tools.py:6-34 | every tool is found again under its own function name |
| DelegateTools.AllToolsComplete | banking_chatbot/app/tools/delegate_tools.py:6-34 | the tool list handed to the classifier holds every delegate tool |
| DelegateTools.ToolsDistinct | banking_chatbot/app/tools/delegate_tools.py:6-34 | two different tools have different names and return different topic types |
| Classifier.AgentToToolCoversLabels | banking_chatbot/app/agents/domain_classifier_agent.py:85-96 | the label-to-tool table has a key exactly for each label the validator admits |
| Classifier.AgentToToolIsAllTools | banking_chatbot/app/agents/domain_classifier_agent.py:85-96 | the tools the label table names are exactly the ten delegate tools the classifier is given |
| Classifier.UserTextAppend | banking_chatbot/app/agents/domain_classifier_agent.py:44-47 | the gathered user text of two concatenated contexts is the concatenation of their texts |
| Classifier.UserTextIgnoresOthers | banking_chatbot/app/agents/domain_classifier_agent.py:44-47 | turns that are not user turns add nothing to the gathered text |
| Classifier.JsonCandidateSpansBraces | banking_chatbot/app/agents/domain_classifier_agent.py:74-76 | when a `{` comes before the last `}`, the candidate is the text from the first `{` through the last `}` |
| Classifier.JsonCandidateWithoutClosingBrace | banking_chatbot/app/agents/domain_classifier_agent.py:74-76 | without any `}`, the slice leaves an empty candidate |
| Classifier.ParseLabel | banking_chatbot/app/agents/domain_classifier_agent.py:72-78 | a label is read exactly when the candidate decodes to a name the validator admits; the label is that decoded name unchanged, one of the ten |
| Classifier.Classify | banking_chatbot/app/agents/domain_classifier_agent.py:71-80 | the agent always settles on one of the ten labels; only the copy in banking_agent_2.py, which strips the reply outside the `try`, raises, and only on a reply that is not text |
| Classifier.ClassifyFollowsLabel | banking_chatbot/app/agents/domain_classifier_agent.py:71-80 | a readable label is used; any other text falls back to RetailBankingAgent |
| Classifier.Route | banking_chatbot/app/agents/domain_classifier_agent.py:97-102 | the chosen tool is always registered: it is the label's tool when registered, else the retail tool, else `KeyError` |
| Classifier.Handoff | banking_chatbot/app/agents/domain_classifier_agent.py:109-127 | the handed-on context is the incoming one plus an "auto_handoff" call of the tool and its result |
| Classifier.HandoffKeepsUserText | banking_chatbot/app/agents/domain_classifier_agent.py:109-127 | the handoff adds no user text |
| Classifier.DelegationShape | banking_chatbot/app/agents/domain_classifier_agent.py:109-132 | a delegation goes to a registered tool's topic in the same session and carries the whole incoming context plus two turns |
| Classifier.DelegationFollowsLabel | banking_chatbot/app/agents/domain_classifier_agent.py:85-104 | with every delegate tool registered, a readable label sends the task to that label's domain topic |
| Classifier.DelegationFails | banking_chatbot/app/agents/domain_classifier_agent.py:71-102 | a delegation fails exactly on a non-text reply to the scripted copy, or when both the label's tool and the retail tool are unregistered |
| Classifier.HandleTask | banking_chatbot/app/agents/domain_classifier_agent.py:42-132 | the handler's loop gathers the user text, and the handler publishes the delegation of the model's answer to that text |
| Classifier.ForwardQuery | banking_agent_1.py:89-102 | the older classifier succeeds exactly on a text reply, and then sends the unchanged query to the "default" instance of the classified label's agent (banking_agent.py:86-99 is the same code) |
| LegacyAgents.RegistrationsMatchLabels | banking_agent_1.py:444-489 | the registered domain types are exactly the ten labels, the classifier type is not a label, and no type is registered twice |
| LegacyAgents.ForwardedQueryHasTarget | banking_agent.py:213-223 | every forwarded query reaches a registered domain agent type, under the key "default" |
| LegacyAgents.StubsCoverOtherLabels | banking_agent.py:119-209 | banking_agent.py gives a fixed stub response to every label except RetailBankingAgent, and to nothing else |
| LegacyAgents.ConversationAgent.constructor | banking_agent_1.py:110-122 | a new agent has its type and an empty model context |
| LegacyAgents.ConversationAgent.HandleQuery | banking_agent_1.py:124-140 | the user turn is recorded first; a text reply is returned and recorded as the agent's turn; any other reply fails the `assert` and leaves only the user turn |
| ToolLoop.CheckCall | banking_chatbot/app/agents/base_agent.py:64-78 | a call succeeds exactly when its arguments decode and its name is a tool; the result carries the call's id and name and is not an error; an unknown name raises "Unexpected tool called" (banking_agent_2.py:206-209 raises differently for delegate names) |
| ToolLoop.ExecuteCalls | banking_chatbot/app/agents/base_agent.py:62-78 | the inner loop succeeds exactly when every call does, giving one result per call in order; otherwise it raises the first failing call's error |
| ToolLoop.PrefixFailurePersists | banking_chatbot/app/agents/base_agent.py:64-78 | once a prefix of the calls raises, the whole list raises the same error |
| ToolLoop.RunLoopShape | banking_chatbot/app/agents/base_agent.py:58-95 | a finished loop keeps the incoming context as a prefix and adds two turns per round plus the final answer |
| ToolLoop.Converse | banking_chatbot/app/agents/base_agent.py:58-95 | the `while` loop and the check after it compute exactly the outcome of the loop's specification: the final context, text and round count, or the error raised |
| ToolLoop.RoundStep | banking_chatbot/app/agents/base_agent.py:62-90 | a round of calls either makes its first error the loop's outcome, or appends the call turn and the result turn and continues with one more round counted |
| ToolLoop.FinalStep | banking_chatbot/app/agents/base_agent.py:94-95 | after the rounds so far, a text reply finishes with that text appended as the agent's turn, and any other reply raises `AssertionError` |
| ToolLoop.RunLoopEndsWithText | banking_chatbot/app/agents/base_agent.py:94-95 | a finished loop ends with the agent's text turn, and that text is the model's reply to everything before it |
| ToolLoop.RunLoopRounds | banking_chatbot/app/agents/base_agent.py:81-84 | each round is the call turn holding exactly the calls the model asked for at that point, followed by their results |
| ToolLoop.RunLoopCallsRound | banking_chatbot/app/agents/base_agent.py:58-90 | a list of calls either raises its first error, or extends the context by one round and asks the model again |
| ToolLoop.RunLoopFinalReply | banking_chatbot/app/agents/base_agent.py:94-95 | a reply that is not a call list finishes the loop when it is text and raises `AssertionError` otherwise |
| ToolLoop.NoToolsRaises | banking_chatbot/app/agents/base_agent.py:77-78 | an agent with no tools raises on any non-empty call list |
| ToolLoop.ExecuteToolCalls | banking_chatbot/app/agents/base_agent.py:62-78 | the call-by-call loop computes the same results or error as the specification |
| ToolLoop.HandleTask | banking_chatbot/app/agents/base_agent.py:47-100 | the handler publishes exactly when the loop finishes, with the final context and the agent's own topic as reply-to; the destination is a bare topic-type string (a full topic in banking_agent_2.py:226-229) |
| DomainAgents.SetupOf | banking_chatbot/app/agents/domain_agents.py:18-36 | a registered agent has no tools and no delegate tools, and its type and topic are the registered ones |
| DomainAgents.Subscriber | banking_chatbot/app/agents/domain_agents.py:34-36 | a topic is delivered to a registration subscribed to it, or to none when no registration is |
| DomainAgents.RegistrationsConsistent | banking_chatbot/app/agents/domain_agents.py:18-36 | each registration's type, topic and subscription agree, it answers to "User", and its description is a label |
| DomainAgents.RegistrationTopicsDistinct | banking_chatbot/app/agents/domain_agents.py:18-225 | no two registrations subscribe to the same topic |
| DomainAgents.SubscriberFindsOwnTopic | banking_chatbot/app/agents/domain_agents.py:18-225 | with distinct topics, each topic is delivered to its own registration |
| DomainAgents.OwnTopicDelivers | banking_chatbot/app/agents/domain_agents.py:34-36 | each registration's own topic is delivered to that registration |
| DomainAgents.RegistrationIndex | banking_chatbot/app/agents/domain_agents.py:18-225 | every label has a registration carrying it, and the label has a delegate tool |
| DomainAgents.EveryLabelReachesItsAgent | banking_chatbot/app/agents/domain_agents.py:18-225 | for every label, the topic its tool returns has a subscribed agent carrying that label |
| DomainAgents.ToolsInRegistrationOrder | banking_chatbot/app/runtime/runtime_manager.py:72-106 | the domains are registered in the order of the delegate-tool list, and the i-th tool returns the i-th registered topic |
| DomainAgents.ToolTopicsAreRegisteredTopics | banking_chatbot/app/tools/delegate_tools.py:6-34 | the topics the delegate tools return are exactly the topics the domain agents subscribe to |
| DomainAgents.RepliesReturnToSameAgent | banking_chatbot/app/agents/domain_agents.py:30-31 | an agent's reply-to topic is delivered back to that agent; its replies go to the bare "User" string |
| DomainAgents.DomainAgentCallsRaise | banking_chatbot/app/agents/domain_agents.py:28-29 | a domain agent asked to call tools raises "Unexpected tool called" for the first call |
| RetailBanking.SubTopic | banking_chatbot/app/agents/retail_banking_agent.py:43-57 | "check_balance_func" maps to CheckBalance and "make_payment_func" to MakePayment; no other name is recognised |
| RetailBanking.Dispatch | banking_chatbot/app/agents/retail_banking_agent.py:40-58 | every forward is the unchanged task to a sub-agent topic of the session; there are none exactly when no call is recognised |
| RetailBanking.Outcome | banking_chatbot/app/agents/retail_banking_agent.py:40-84 | the handler always publishes something; a reply that is not a call list publishes one answer |
| RetailBanking.HandleTask | banking_chatbot/app/agents/retail_banking_agent.py:27-84 | the handler's loop with its `recognized_call` flag publishes exactly the specified outcome |
| RetailBanking.DispatchAppend | banking_chatbot/app/agents/retail_banking_agent.py:43-57 | forwards keep call order: dispatching a concatenation dispatches each part in turn |
| RetailBanking.DispatchOne | banking_chatbot/app/agents/retail_banking_agent.py:43-57 | one call is forwarded to its sub-agent topic when recognised and dropped otherwise |
| RetailBanking.DispatchCounts | banking_chatbot/app/agents/retail_banking_agent.py:43-55 | each balance call yields one balance forward and each payment call one payment forward |
| RetailBanking.OutcomeOfCalls | banking_chatbot/app/agents/retail_banking_agent.py:59-68 | a call list publishes its forwards, then the clarification exactly when no call was recognised |
| RetailBanking.RepliesExtendContext | banking_chatbot/app/agents/retail_banking_agent.py:62-84 | every answer goes to ("User", session) with "RetailBanking" as reply-to, and carries the incoming context plus one assistant turn |
| RetailBanking.NonCallReplyEchoed | banking_chatbot/app/agents/retail_banking_agent.py:70-79 | a text reply reaches the user verbatim; another reply arrives as its JSON text |
| RetailSubAgents.FirstRow | banking_chatbot/app/agents/retail_sub_agents.py:44-52 | the result is the first row whose username matches after strip and lower-casing, or none when no row matches |
| RetailSubAgents.BalanceOf | banking_chatbot/app/agents/retail_sub_agents.py:44-52 | the balance is 0 without a file or a matching row; otherwise it is that row's balance |
| RetailSubAgents.GetBalance | banking_chatbot/app/agents/retail_sub_agents.py:44-52 | the scan that stops at the first matching row computes the specified balance |
| RetailSubAgents.HandleCheckBalance | banking_chatbot/app/agents/retail_sub_agents.py:29-42 | the session's balance goes back to the same session as one assistant turn |
| RetailSubAgents.UserLines | banking_chatbot/app/agents/retail_sub_agents.py:108-112 | the lower-cased user turns, in order, are never more than the turns |
| RetailSubAgents.After | banking_chatbot/app/agents/retail_sub_agents.py:114-131 | a value is found exactly when the keyword occurs before the last token; the value is the token after its first occurrence |
| RetailSubAgents.PayAmount | banking_chatbot/app/agents/retail_sub_agents.py:132-139 | an amount taken after "pay" is always all digits |
| RetailSubAgents.DetailsOf | banking_chatbot/app/agents/retail_sub_agents.py:106-141 | a field is read only when its keyword occurs; "amount" wins over "pay" |
| RetailSubAgents.ParsePaymentDetails | banking_chatbot/app/agents/retail_sub_agents.py:106-141 | the parser reads the fields from the user turns joined with newlines |
| RetailSubAgents.ParsedFieldsAreWords | banking_chatbot/app/agents/retail_sub_agents.py:114-139 | every parsed value is non-empty and has no whitespace |
| RetailSubAgents.MissingAmong | banking_chatbot/app/agents/retail_sub_agents.py:143-148 | a name is reported exactly when its value is falsy; nothing is reported exactly when all values are truthy |
| RetailSubAgents.FindMissing | banking_chatbot/app/agents/retail_sub_agents.py:143-148 | the loop reports the falsy fields in the order receiver, ifsc, amount |
| RetailSubAgents.NothingMissingIffComplete | banking_chatbot/app/agents/retail_sub_agents.py:69-78 | nothing is missing exactly when all three fields hold non-empty text |
| RetailSubAgents.ParsedMissingMeansAbsent | banking_chatbot/app/agents/retail_sub_agents.py:106-148 | for parsed details, a field is missing exactly when no value was found for it |
| RetailSubAgents.SetBalance | banking_chatbot/app/agents/retail_sub_agents.py:160-177 | the table keeps its presence and its length |
| RetailSubAgents.UpdateBalance | banking_chatbot/app/agents/retail_sub_agents.py:160-177 | the file is rewritten with the specified table, and left unchanged when no row of the user exists |
| RetailSubAgents.SetBalanceTouchesOnlyUser | banking_chatbot/app/agents/retail_sub_agents.py:168-172 | only the balance column changes, and only on the user's rows |
| RetailSubAgents.BalanceAfterUpdate | banking_chatbot/app/agents/retail_sub_agents.py:160-177 | a user with a row reads back the new balance |
| RetailSubAgents.UpdateIsolatesUsers | banking_chatbot/app/agents/retail_sub_agents.py:160-177 | another user's balance is unchanged |
| RetailSubAgents.SetBalanceReadBack | banking_chatbot/app/agents/retail_sub_agents.py:160-177 | after the rewrite a user with a row reads back the new balance, and every other user reads as before |
| RetailSubAgents.TxNumberReadsSuffix | banking_chatbot/app/agents/retail_sub_agents.py:186-193 | an id counts only when it starts with "tx" in any case followed by digits with an optional sign; its number is their signed value |
| RetailSubAgents.SignedSuffixes | banking_chatbot/app/agents/retail_sub_agents.py:186-195 | "TX+7" counts as 7 and "tx-3" as -3; a ledger holding only "TX+7" gives the next number 8, one holding only "TX-3" gives 1 |
| RetailSubAgents.MaxTxNumberIsMax | banking_chatbot/app/agents/retail_sub_agents.py:182-193 | the result bounds every counted id and is 0 or the number of one of them |
| RetailSubAgents.NextTxNumber | banking_chatbot/app/agents/retail_sub_agents.py:179-195 | the next number is at least 1 |
| RetailSubAgents.NextTxId | banking_chatbot/app/agents/retail_sub_agents.py:179-195 | the running-maximum loop produces "TX" and the zero-padded next number |
| RetailSubAgents.TxIdRoundTrip | banking_chatbot/app/agents/retail_sub_agents.py:195 | a formatted id reads back as its number |
| RetailSubAgents.NextTxIdFresh | banking_chatbot/app/agents/retail_sub_agents.py:179-195 | the new id differs from every id already in the ledger |
| RetailSubAgents.AppendLedger | banking_chatbot/app/agents/retail_sub_agents.py:197-211 | the ledger gains exactly the new row at its end; a missing ledger starts with that row |
| RetailSubAgents.NextTxNumberGrows | banking_chatbot/app/agents/retail_sub_agents.py:179-211 | after an entry is written, the next number is larger again |
| RetailSubAgents.Decide | banking_chatbot/app/agents/retail_sub_agents.py:60-92 | missing fields are asked for first; then an unreadable amount raises; then a parsed amount above the session's balance is refused, carrying that balance and that amount; otherwise the payment goes ahead with the parsed receiver and the session's balance |
| RetailSubAgents.Carry | banking_chatbot/app/agents/retail_sub_agents.py:60-104 | only a payment changes the tables, and it rewrites the sender's rows with the balance less the amount; only an unreadable amount raises |
| RetailSubAgents.HandleMakePayment | banking_chatbot/app/agents/retail_sub_agents.py:60-104 | the handler's publish or error and both tables afterwards are those of its decision |
| RetailSubAgents.Settle | banking_chatbot/app/agents/retail_sub_agents.py:92-104 | the debit, the new id and the ledger row are those of a payment |
| RetailSubAgents.PaymentIsLedgered | banking_chatbot/app/agents/retail_sub_agents.py:92-104 | a payment appends exactly one row, from the session user to the receiver, under an id no earlier row carries |
| RetailSubAgents.PaymentDebits | banking_chatbot/app/agents/retail_sub_agents.py:92-104 | a payment rewrites the sender's account rows with the balance less the amount; a sender with a row reads that balance back, and every other user's balance reads as before |
| RetailSubAgents.NegativeAmountPasses | banking_chatbot/app/agents/retail_sub_agents.py:80-92 | a negative amount passes the balance check and goes ahead as a payment |
| RetailSubAgents.NoAccountZeroPaymentIsLedgered | banking_chatbot/app/agents/retail_sub_agents.py:81-104 | a sender without a row pays 0 and the payment is still decided as one |
| Transactions.FirstIndex | banking_chatbot/app/tools/transaction_tools.py:22-29 | the result is the first row carrying the id, or none when no row carries it |
| Transactions.Lookup | banking_chatbot/app/tools/transaction_tools.py:10-31 | a missing file gives a file error; a record is found exactly when some row carries the id; the record is that of a row with the id; otherwise the error is "not found" |
| Transactions.LookupTransaction | banking_chatbot/app/tools/transaction_tools.py:10-31 | the scan returns the specified lookup |
| Transactions.FixRows | banking_chatbot/app/tools/transaction_tools.py:53-56 | the repaired table has as many rows as before |
| Transactions.FixCoreBankingStatus | banking_chatbot/app/tools/transaction_tools.py:34-75 | a missing file and a file without headers are reported; the repair succeeds exactly when some row qualifies, and then the file holds the repaired rows; otherwise "No update done" and the file is unchanged |
| Transactions.FixTouchesOnlyStatus | banking_chatbot/app/tools/transaction_tools.py:53-56 | the repair changes only the core-banking status, and only on rows of the id |
| Transactions.FixLeavesNothingToFix | banking_chatbot/app/tools/transaction_tools.py:53-64 | after a repair no row qualifies, so a second repair reports "No update done" |
| Transactions.FixIdempotent | banking_chatbot/app/tools/transaction_tools.py:53-56 | repairing twice is the same as repairing once |
| Transactions.FixMakesStatusesAgree | banking_chatbot/app/tools/transaction_tools.py:53-56 | every row of the id with a successful payment shows core banking succeeded |
| Transactions.LookupAfterFix | banking_chatbot/app/tools/transaction_tools.py:10-75 | when the id's first row is a successful payment, a lookup after the repair shows both statuses as Success |
| Transactions.DuplicateIdKeepsMismatchVisible | banking_chatbot/app/tools/transaction_tools.py:22-56 | with a repeated id, the repair succeeds on a later row while the lookup still shows the first row |
| PaymentsAgent.HandleTask | banking_chatbot/app/agents/payments_agent.py:37-96 | the context gains the id turn and one assistant turn; with no mismatch it reports no discrepancy; a declined repair reports no changes; a confirmed repair rewrites the table; the reply goes to the bare "User" string |
| PaymentsAgent.Resolve | banking_chatbot/app/agents/payments_agent.py:56-89 | with no mismatch the answer is no discrepancy and nothing changes; a mismatch the user declines changes nothing; a confirmed mismatch is repaired in the table and reported as updated |
| PaymentsAgent.MismatchMeansFixable | banking_chatbot/app/agents/payments_agent.py:72-85 | a mismatch seen by the lookup is a row that the repair will update |
| PaymentsAgent.RepairResolvesMismatch | banking_chatbot/app/agents/payments_agent.py:72-85 | after a confirmed repair, a new lookup of the id shows no mismatch |
| UserAgent.Login | banking_chatbot/app/agents/user_agent.py:18-31 | the login publishes one user turn holding the query to the classifier topic of the session |
| UserAgent.Shown | banking_chatbot/app/agents/user_agent.py:36-40 | "" exactly when no turn has non-empty string content; otherwise the content of the latest such turn |
| UserAgent.LastText | banking_chatbot/app/agents/user_agent.py:36-40 | the backward scan that stops at the first text shows the specified text |
| UserAgent.ShownIsLatest | banking_chatbot/app/agents/user_agent.py:36-40 | the text shown is that of the last turn with text |
| UserAgent.HandleAgentResponse | banking_chatbot/app/agents/user_agent.py:33-53 | "exit" in any case ends the session with nothing published; any other line is appended as a user turn and sent to the reply-to topic of the session |
| UserAgent.ContinueAddsOneUserTurn | banking_chatbot/app/agents/user_agent.py:49-53 | the conversation grows by exactly the one user turn read |
| UserAgent.ShownAssistant | banking_agent_2.py:392-399 | this copy shows "" when the conversation has no assistant turn |
| UserAgent.ShownAssistantIsLatest | banking_agent_2.py:392-399 | otherwise it shows the content of the last assistant turn, written with `str` when it holds calls |
| UserAgent.LastAssistantText | banking_agent_2.py:392-399 | the backward scan shows the specified assistant text |
| UserAgent.HandleAgentResponseTrimmed | banking_agent_2.py:388-412 | this copy ends the session on a stripped "exit" and otherwise continues as the packaged agent does |
| UserAgent.ExitImpliesTrimmedExit | banking_agent_2.py:403-406 | every line that ends the packaged agent's session also ends this copy's |
| UserAgent.TrimmedExitIsWeaker | banking_agent_2.py:403-406 | " exit" ends only this copy's session |
| Authentication.LoadCredentials | banking_chatbot/app/tools/credential_utils.py:5-16 | a missing file raises "No such file or directory"; otherwise the loop builds the table row by row |
| Authentication.CredentialKeys | banking_chatbot/app/tools/credential_utils.py:14-15 | the table has a key exactly for each username in the file |
| Authentication.CredentialLastWins | banking_chatbot/app/tools/credential_utils.py:14-15 | a username's last row supplies its password |
| Authentication.HandleCredentials | banking_chatbot/app/agents/authentication_agent.py:16-28 | a login is published exactly when the password matches the table, to (user topic, username) |
| Authentication.AcceptedIffLastRow | banking_chatbot/app/agents/authentication_agent.py:20 | against a file, a pair is accepted exactly when it is the last row of its username |
| Authentication.EarlierPasswordRejected | banking_chatbot/app/tools/credential_utils.py:14-15 | a repeated username accepts only its later password |
| RuntimeManagement.JoinedText | banking_chatbot/app/runtime/runtime_manager.py:144-153 | the loop builds the turns' texts joined by newlines |
| RuntimeManagement.ResponseTextGrows | banking_chatbot/app/runtime/runtime_manager.py:144-153 | one more turn adds a newline and its text |
| RuntimeManagement.RuntimeManager.constructor | banking_chatbot/app/runtime/runtime_manager.py:54-62 | a new manager is empty and keeps only user turns |
| RuntimeManagement.RuntimeManager.OnAgentResponse | banking_chatbot/app/runtime/runtime_manager.py:142-155 | a response is sent on the session's open socket; without one it is queued for the session |
| RuntimeManagement.RuntimeManager.Publish | banking_chatbot/app/runtime/runtime_manager.py:48-51 | a response to a destination that is not a topic raises `AttributeError` and nothing is published; anything else is published after the hook |
| RuntimeManagement.RuntimeManager.PublishCredentials | banking_chatbot/app/runtime/runtime_manager.py:112-116 | the credentials are published to the "Auth" topic of the session and nothing else changes |
| RuntimeManagement.RuntimeManager.PublishUserMessage | banking_chatbot/app/runtime/runtime_manager.py:118-126 | the line becomes one more user turn, the whole conversation goes to the classifier, and the conversation still holds only user turns |
| RuntimeManagement.RuntimeManager.RegisterWebsocket | banking_chatbot/app/runtime/runtime_manager.py:128-129 | the session's socket is replaced |
| RuntimeManagement.RuntimeManager.UnregisterWebsocket | banking_chatbot/app/runtime/runtime_manager.py:131-133 | the session's socket, whichever it is, is dropped |
| RuntimeManagement.RuntimeManager.DrainAgentResponses | banking_chatbot/app/runtime/runtime_manager.py:135-140 | the queued responses come back oldest first, and the queue is emptied |
| WebsocketEndpoint.UserTurns | banking_chatbot/app/runtime/runtime_manager.py:120-122 | one user turn per line |
| WebsocketEndpoint.QueryPublishes | banking_chatbot/app/main.py:44-50 | one classifier publish per query |
| WebsocketEndpoint.Endpoint | banking_chatbot/app/main.py:17-52 | the prompts sent; the credentials and then every query are published; each session's conversation grows by its queries; the socket is registered and then dropped on disconnect; queues and sends are unchanged |
| WebsocketEndpoint.ReplayMatches | banking_chatbot/app/main.py:23-50 | feeding the lines one at a time to the state machine gives exactly the closed-form prompts, publishes and conversations |
| WebsocketEndpoint.ReceiveLine | banking_chatbot/app/main.py:24-50 | one more line moves the closed form on by one state: a prompt, the credentials, the greeting, or one query |
| WebsocketEndpoint.FirstQuery | banking_chatbot/app/main.py:44-47 | the first query adds one user turn to the session's conversation and one classifier publish carrying it |
| WebsocketEndpoint.NextQuery | banking_chatbot/app/main.py:48-50 | each later query adds one user turn to the session's conversation and one classifier publish carrying the whole conversation |
| WebsocketEndpoint.LaterQuery | banking_chatbot/app/runtime/runtime_manager.py:121-126 | a further query appends one user turn, and one publish whose conversation ends with it |
| WebsocketEndpoint.QueryPublishesCarryHistory | banking_chatbot/app/main.py:44-50 | the k-th publish carries the earlier conversation and exactly the first k+1 queries |
| WebsocketEndpoint.NameNeverPublished | banking_chatbot/app/main.py:38-43 | the name typed at the third prompt affects nothing that is published or stored |
| WebsocketEndpoint.CredentialsUnderSession | banking_chatbot/app/main.py:24-37 | the credentials carry the stripped username as both the session and the user name |

## Left out

- The language model is a parameter (a reply, or an oracle from the context shown to the reply). Prompts and system messages are constants the model does not read.
- `input()`, the clock (`datetime.now()`), websocket I/O and printing are parameters or left out. Socket sends are recorded as values.
- CSV reading and writing are modelled as values: a missing file, or the list of rows.
- Money is an integer. `float()` of the amount is a parameter. `str()` of a float is written for whole numbers below 10^16 in magnitude only; Python writes larger ones in exponent form.
- An unparseable `balance` cell or a missing `username` column is not modelled.
- `str.lower()` and `str.isdigit()` cover ASCII only.
- RetailSubAgents.TxNumber: `int()` of a transaction-id suffix is narrowed to ASCII digits with an optional `+` or `-` sign. Python also accepts surrounding whitespace, underscores between digits and non-ASCII digits; such ids count in the source and not in the model.
- JSON decoding of the classifier's candidate and of tool arguments is a parameter.
- A model reply that is neither text nor a call list is carried as its JSON text. `str()` of function calls and results is an opaque rendering.
- Classifier.HandleTask: the publish target is written `ctx.topic_id._replace(type=target_topic)`. The model takes this to give the incoming session with the new topic type. The agent library is not part of this model, so whether its `TopicId` has `_replace` is not checked. If it has none, the handler raises `AttributeError` after choosing the tool and publishes nothing, which the model does not capture.
- ToolLoop.Converse: the Python loop has no bound. The model caps it with a fuel count, and running out of fuel is an error the source cannot raise.
- ToolLoop.CheckCall: the tool's own execution (`run_json`) is a function from argument text to result text. Tool errors and cancellation are not modelled.
- Delivery by the agent runtime is not modelled: subscriptions, agent instantiation per key, and message ordering between agents. Publishes are returned or recorded in order.
- `asyncio` concurrency is not modelled: two connections interleaving on one manager, and the background runtime task.
- `start_runtime` registration is not modelled beyond the domain registrations. It registers the authentication, classifier and domain agents. It does not register the retail banking, payments, sub-agent or user agents, so those handlers are modelled as functions of their inputs.
- retail_banking_agent.py imports `check_balance_tool` and `make_payment_tool`, which the tools package does not define. The model treats them as the two tool names the handler compares against.
- `BufferedChatCompletionContext(buffer_size=5)` trims what the model is shown. LegacyAgents.ConversationAgent keeps every turn, and the model's reply is a parameter, so the window does not matter there.
- The older classifier discards the domain agent's return value, and the banking_agent.py stubs return nothing. Only the stub texts are modelled.
- Pydantic validation of message types is not modelled beyond `validate_agent_name`.
- banking_chatbot/app/agents/test.py, payment_gateway/, autogen_core_1.py, misc/autogen_core_2.py and the `misc - ignore/` copies are not part of this model. misc/banking_agent_2.py is the same file as banking_agent_2.py and is covered by the members that model that script.
