/**
 * The retail-banking agent of banking_chatbot/app/agents/retail_banking_agent.py.
 * It asks the model once. When the model answers with function calls, the agent
 * forwards the unchanged task to the balance or payment sub-agent for each call it
 * recognises, and asks the user to clarify when it recognises none. When the model
 * answers with anything else, the answer goes back to the user as one assistant turn.
 *
 * The model's reply is a parameter. Publishes are returned as an outbox, in order.
 */
module RetailBanking {
  import opened Wrappers
  import opened Messages

  const RetailTopic: string := "RetailBanking"
  const UserTopic: string := "User"
  const CheckBalanceTopic: string := "CheckBalance"
  const MakePaymentTopic: string := "MakePayment"

  const ClarifyText: string := "Hmm, I'm not sure how to proceed. Could you clarify your request?"

  /** The sub-agent topic a call name is forwarded to, if the agent recognises the name. */
  function SubTopic(name: string): (r: Option<string>)
    ensures r == Some(CheckBalanceTopic) <==> name == "check_balance_func"
    ensures r == Some(MakePaymentTopic) <==> name == "make_payment_func"
    ensures r.Some? ==> r.value == CheckBalanceTopic || r.value == MakePaymentTopic
  {
    if name == "check_balance_func" then Some(CheckBalanceTopic)
    else if name == "make_payment_func" then Some(MakePaymentTopic)
    else None
  }

  predicate Recognized(call: FunctionCall) {
    SubTopic(call.name).Some?
  }

  /** The publish of the unchanged incoming task to a sub-agent topic of this session. */
  function Forward(topic: string, task: UserTask, session: string): Envelope {
    Envelope(ToTopic(TopicId(topic, session)), TaskMsg(task))
  }

  predicate IsForward(e: Envelope, task: UserTask, session: string) {
    e.payload == TaskMsg(task) && e.dest.ToTopic? && e.dest.topic.source == session
    && (e.dest.topic.topicType == CheckBalanceTopic || e.dest.topic.topicType == MakePaymentTopic)
  }

  /** The forwards a list of calls produces, one per recognised call, in call order. */
  function Dispatch(calls: seq<FunctionCall>, task: UserTask, session: string): (r: seq<Envelope>)
    ensures |r| <= |calls|
    ensures forall k :: 0 <= k < |r| ==> IsForward(r[k], task, session)
    ensures r == [] <==> forall i :: 0 <= i < |calls| ==> !Recognized(calls[i])
  {
    if calls == [] then []
    else
      var init := calls[..|calls| - 1];
      var last := calls[|calls| - 1];
      var prev := Dispatch(init, task, session);
      assert forall i :: 0 <= i < |init| ==> init[i] == calls[i];
      match SubTopic(last.name)
      case Some(topic) => prev + [Forward(topic, task, session)]
      case None => prev
  }

  /** The answer published to the user in this session, with "RetailBanking" as the reply-to. */
  function Reply(selfType: string, task: UserTask, session: string, text: string): Envelope {
    Envelope(ToTopic(TopicId(UserTopic, session)),
             ResponseMsg(AgentResponse(RetailTopic, task.context + [AssistantMessage(TextContent(text), selfType)])))
  }

  /** Everything `handle_task` publishes for one model reply, in order. */
  function Outcome(selfType: string, task: UserTask, session: string, reply: ModelReply): (r: seq<Envelope>)
    ensures |r| >= 1
    ensures !reply.Calls? ==> |r| == 1 && r[0].payload.ResponseMsg?
  {
    match reply
    case Calls(calls) =>
      var forwards := Dispatch(calls, task, session);
      if forwards == [] then [Reply(selfType, task, session, ClarifyText)] else forwards
    case Text(t) => [Reply(selfType, task, session, t)]
    case Other(serialized) => [Reply(selfType, task, session, serialized)]
  }

  /** `handle_task`, with its `recognized_call` flag. */
  method HandleTask(selfType: string, task: UserTask, session: string, reply: ModelReply) returns (out: seq<Envelope>)
    ensures out == Outcome(selfType, task, session, reply)
  {
    out := [];
    if reply.Calls? {
      var calls := reply.calls;
      var recognized := false;
      for i := 0 to |calls|
        invariant out == Dispatch(calls[..i], task, session)
        invariant recognized <==> exists j :: 0 <= j < i && Recognized(calls[j])
      {
        assert calls[..i + 1][..i] == calls[..i];
        var call := calls[i];
        if call.name == "check_balance_func" {
          recognized := true;
          out := out + [Forward(CheckBalanceTopic, task, session)];
        } else if call.name == "make_payment_func" {
          recognized := true;
          out := out + [Forward(MakePaymentTopic, task, session)];
        }
      }
      assert calls[..|calls|] == calls;
      if !recognized {
        out := out + [Reply(selfType, task, session, ClarifyText)];
      }
    } else {
      var finalText := if reply.Text? then reply.text else reply.serialized;
      out := [Reply(selfType, task, session, finalText)];
    }
  }

  /** Dispatching a concatenation dispatches each part in turn: forwards keep call order. */
  lemma {:induction false} DispatchAppend(a: seq<FunctionCall>, b: seq<FunctionCall>, task: UserTask, session: string)
    ensures Dispatch(a + b, task, session) == Dispatch(a, task, session) + Dispatch(b, task, session)
    decreases |b|
  {
    if b == [] {
      assert a + b == a;
    } else {
      var binit := b[..|b| - 1];
      assert (a + b)[..|a + b| - 1] == a + binit;
      assert (a + b)[|a + b| - 1] == b[|b| - 1];
      DispatchAppend(a, binit, task, session);
    }
  }

  /** One call alone: forwarded to its sub-agent topic when recognised, dropped otherwise. */
  lemma DispatchOne(call: FunctionCall, task: UserTask, session: string)
    ensures Dispatch([call], task, session)
            == if Recognized(call) then [Forward(SubTopic(call.name).value, task, session)] else []
  {
    assert [call][..0] == [];
  }

  /** How many calls of a given name a list holds. */
  function CountNamed(calls: seq<FunctionCall>, name: string): nat {
    if calls == [] then 0
    else CountNamed(calls[..|calls| - 1], name) + (if calls[|calls| - 1].name == name then 1 else 0)
  }

  /** How many envelopes go to a given sub-agent topic. */
  function CountTo(out: seq<Envelope>, topic: string): nat {
    if out == [] then 0
    else CountTo(out[..|out| - 1], topic)
         + (if out[|out| - 1].dest.ToTopic? && out[|out| - 1].dest.topic.topicType == topic then 1 else 0)
  }

  /** Each `check_balance_func` call yields one balance forward, each `make_payment_func` call one payment forward. */
  lemma {:induction false} DispatchCounts(calls: seq<FunctionCall>, task: UserTask, session: string)
    ensures var r := Dispatch(calls, task, session);
      CountTo(r, CheckBalanceTopic) == CountNamed(calls, "check_balance_func")
      && CountTo(r, MakePaymentTopic) == CountNamed(calls, "make_payment_func")
      && |r| == CountNamed(calls, "check_balance_func") + CountNamed(calls, "make_payment_func")
  {
    if calls != [] {
      var init := calls[..|calls| - 1];
      DispatchCounts(init, task, session);
      var r := Dispatch(calls, task, session);
      var prev := Dispatch(init, task, session);
      if Recognized(calls[|calls| - 1]) {
        assert r[..|r| - 1] == prev;
      }
    }
  }

  /**
   * What a call reply publishes: the forwards, then a clarification to the user
   * exactly when no call was recognised. The incoming context is only extended.
   */
  lemma OutcomeOfCalls(selfType: string, task: UserTask, session: string, calls: seq<FunctionCall>)
    ensures var r := Outcome(selfType, task, session, Calls(calls));
      ((forall i :: 0 <= i < |calls| ==> !Recognized(calls[i])) <==> r == [Reply(selfType, task, session, ClarifyText)])
      && ((exists i :: 0 <= i < |calls| && Recognized(calls[i])) ==>
            (forall k :: 0 <= k < |r| ==> IsForward(r[k], task, session)))
  {
    var r := Outcome(selfType, task, session, Calls(calls));
    if forall i :: 0 <= i < |calls| ==> !Recognized(calls[i]) {
    } else {
      assert !IsForward(Reply(selfType, task, session, ClarifyText), task, session);
      assert r == Dispatch(calls, task, session);
      assert IsForward(r[0], task, session);
    }
  }

  /**
   * Every answer to the user goes to ("User", session) with "RetailBanking" as the
   * reply-to, and carries the incoming context plus exactly one assistant turn.
   */
  lemma RepliesExtendContext(selfType: string, task: UserTask, session: string, reply: ModelReply, k: nat)
    requires k < |Outcome(selfType, task, session, reply)|
    requires Outcome(selfType, task, session, reply)[k].payload.ResponseMsg?
    ensures var e := Outcome(selfType, task, session, reply)[k];
      e.dest == ToTopic(TopicId(UserTopic, session))
      && e.payload.response.replyToTopicType == RetailTopic
      && |e.payload.response.context| == |task.context| + 1
      && e.payload.response.context[..|task.context|] == task.context
      && e.payload.response.context[|task.context|].AssistantMessage?
      && e.payload.response.context[|task.context|].source == selfType
  {
  }

  /** A text reply is returned to the user verbatim; a non-text, non-call reply as its JSON text. */
  lemma NonCallReplyEchoed(selfType: string, task: UserTask, session: string, reply: ModelReply)
    requires !reply.Calls?
    ensures var r := Outcome(selfType, task, session, reply);
      r[0].payload.response.context[|task.context|].body
      == TextContent(if reply.Text? then reply.text else reply.serialized)
  {
  }
}
