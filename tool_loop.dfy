/**
 * The generic domain agent `BankingAIAgent.handle_task`
 * (banking_chatbot/app/agents/base_agent.py and the copy in banking_agent_2.py).
 * It calls the model and, while the reply is a list of function calls, runs
 * each call, appends the assistant call turn and the result turn, and calls the model
 * again. Then it requires a text reply, appends it, and publishes the
 * conversation to the user topic.
 *
 * The model is an oracle from the context it is shown to its reply. Whether
 * `json.loads` accepts a call's arguments is the parameter `jsonOk`. Each tool
 * is a function from its raw arguments to its result text. Python's loop has
 * no bound, so `fuel` caps the number of model calls.
 */
module ToolLoop {
  import opened Wrappers
  import opened Messages

  /** The two copies differ in the unknown-tool errors and in the destination of the final publish. */
  datatype Flavor =
    | /** base_agent.py: any unknown name raises "Unexpected tool called", and the publish goes to a bare topic-type string. */
      ChatbotAgent
    | /** banking_agent_2.py: delegate names and unknown names raise different errors, and the publish goes to a full topic. */
      ScriptedAgent

  /** The constructor arguments of one agent, plus its registered type (`self.id.type`). */
  datatype AgentSetup = AgentSetup(
    idType: string,
    tools: map<string, string -> string>,
    delegateTools: set<string>,
    myTopicType: string,
    userTopicType: string,
    flavor: Flavor)

  datatype LoopError =
    | BadArguments(arguments: string)
    | UnexpectedTool(name: string)
    | DoesNotDelegate
    | UnknownTool(name: string)
    | ReplyNotText
    | OutOfFuel
  {
    /** The text of the exception Python raises. */
    function Message(): string {
      match this
      case BadArguments(a) => "JSONDecodeError: " + a
      case UnexpectedTool(n) => "Unexpected tool called: " + n
      case DoesNotDelegate => "Domain agent does not delegate further in this example."
      case UnknownTool(n) => "Unknown tool called: " + n
      case ReplyNotText => "AssertionError"
      case OutOfFuel => "model call limit reached"
    }
  }

  /** Running one requested call: decode its arguments, then run the named tool or raise. */
  function CheckCall(setup: AgentSetup, call: FunctionCall, jsonOk: string -> bool): (r: Result<FunctionResult, LoopError>)
    ensures r.Success? <==> jsonOk(call.arguments) && call.name in setup.tools
    ensures r.Success? ==>
      r.value == FunctionResult(call.id, setup.tools[call.name](call.arguments), false, call.name)
    ensures !jsonOk(call.arguments) ==> r == Failure(BadArguments(call.arguments))
    ensures jsonOk(call.arguments) && call.name !in setup.tools ==>
      r.Failure? && r.error == (
        if setup.flavor.ChatbotAgent? then UnexpectedTool(call.name)
        else if call.name in setup.delegateTools then DoesNotDelegate
        else UnknownTool(call.name))
  {
    if !jsonOk(call.arguments) then Failure(BadArguments(call.arguments))
    else if call.name in setup.tools then
      Success(FunctionResult(call.id, setup.tools[call.name](call.arguments), false, call.name))
    else if setup.flavor.ChatbotAgent? then Failure(UnexpectedTool(call.name))
    else if call.name in setup.delegateTools then Failure(DoesNotDelegate)
    else Failure(UnknownTool(call.name))
  }

  /** The inner `for` loop: one result per call, in order, or the first call's exception. */
  function ExecuteCalls(setup: AgentSetup, calls: seq<FunctionCall>, jsonOk: string -> bool)
    : (r: Result<seq<FunctionResult>, LoopError>)
    ensures r.Success? <==> forall k :: 0 <= k < |calls| ==> CheckCall(setup, calls[k], jsonOk).Success?
    ensures r.Success? ==> (|r.value| == |calls|
      && forall k :: 0 <= k < |calls| ==> r.value[k] == CheckCall(setup, calls[k], jsonOk).value)
    ensures r.Failure? ==>
      exists k :: 0 <= k < |calls| && FirstFailure(setup, calls, jsonOk, k) && r.error == CheckCall(setup, calls[k], jsonOk).error
  {
    if calls == [] then Success([])
    else
      var init := calls[..|calls| - 1];
      match ExecuteCalls(setup, init, jsonOk)
      case Failure(e) =>
        assert forall k :: 0 <= k < |init| ==> init[k] == calls[k];
        Failure(e)
      case Success(rs) =>
        match CheckCall(setup, calls[|calls| - 1], jsonOk)
        case Failure(e) =>
          assert FirstFailure(setup, calls, jsonOk, |calls| - 1);
          Failure(e)
        case Success(x) => Success(rs + [x])
  }

  /** Call `k` is the first one that raises. */
  predicate FirstFailure(setup: AgentSetup, calls: seq<FunctionCall>, jsonOk: string -> bool, k: nat)
    requires k < |calls|
  {
    CheckCall(setup, calls[k], jsonOk).Failure?
    && forall j :: 0 <= j < k ==> CheckCall(setup, calls[j], jsonOk).Success?
  }

  /** Once a prefix of the calls raises, the whole list raises the same error. */
  lemma {:induction false} PrefixFailurePersists(setup: AgentSetup, calls: seq<FunctionCall>, jsonOk: string -> bool, i: nat)
    requires i <= |calls|
    requires ExecuteCalls(setup, calls[..i], jsonOk).Failure?
    ensures ExecuteCalls(setup, calls, jsonOk) == ExecuteCalls(setup, calls[..i], jsonOk)
    decreases |calls|
  {
    if i == |calls| {
      assert calls[..i] == calls;
    } else {
      var init := calls[..|calls| - 1];
      assert init[..i] == calls[..i];
      PrefixFailurePersists(setup, init, jsonOk, i);
    }
  }

  /** A finished loop: the final context, the final text, and how many rounds of calls it took. */
  datatype LoopOutcome =
    | Finished(context: seq<LLMMessage>, text: string, rounds: nat)
    | Raised(error: LoopError)

  function Shift(o: LoopOutcome, n: nat): LoopOutcome {
    if o.Finished? then o.(rounds := o.rounds + n) else o
  }

  lemma ShiftShift(o: LoopOutcome, a: nat, b: nat)
    ensures Shift(Shift(o, a), b) == Shift(o, a + b)
  {
  }

  /** The two turns one round of calls appends. */
  function Round(setup: AgentSetup, calls: seq<FunctionCall>, results: seq<FunctionResult>): seq<LLMMessage> {
    [AssistantMessage(CallContent(calls), setup.idType), ResultMessage(results)]
  }

  /** The whole conversation loop, as a function of the context the model is first shown. */
  function RunLoop(setup: AgentSetup, ctx: seq<LLMMessage>, model: seq<LLMMessage> -> ModelReply,
                   jsonOk: string -> bool, fuel: nat): LoopOutcome
    decreases fuel
  {
    if fuel == 0 then Raised(OutOfFuel)
    else
      match model(ctx)
      case Text(t) => Finished(ctx + [AssistantMessage(TextContent(t), setup.idType)], t, 0)
      case Other(_) => Raised(ReplyNotText)
      case Calls(calls) =>
        match ExecuteCalls(setup, calls, jsonOk)
        case Failure(e) => Raised(e)
        case Success(rs) =>
          var next := ctx + Round(setup, calls, rs);
          Shift(RunLoop(setup, next, model, jsonOk, fuel - 1), 1)
  }

  /** A finished loop keeps the context it started from and adds two turns per round, then the answer. */
  lemma {:induction false} RunLoopShape(setup: AgentSetup, ctx: seq<LLMMessage>, model: seq<LLMMessage> -> ModelReply,
                                        jsonOk: string -> bool, fuel: nat)
    ensures var o := RunLoop(setup, ctx, model, jsonOk, fuel);
      o.Finished? ==> |o.context| == |ctx| + 2 * o.rounds + 1 && o.context[..|ctx|] == ctx && o.rounds < fuel
    decreases fuel
  {
    if fuel > 0 && model(ctx).Calls? {
      var calls := model(ctx).calls;
      var ex := ExecuteCalls(setup, calls, jsonOk);
      if ex.Success? {
        var next := ctx + Round(setup, calls, ex.value);
        RunLoopShape(setup, next, model, jsonOk, fuel - 1);
        var o := RunLoop(setup, next, model, jsonOk, fuel - 1);
        if o.Finished? {
          assert o.context[..|ctx|] == next[..|ctx|] == ctx;
        }
      }
    }
  }

  /** A finished loop ends with the text the model gave when shown everything before it. */
  lemma {:induction false} RunLoopEndsWithText(setup: AgentSetup, ctx: seq<LLMMessage>, model: seq<LLMMessage> -> ModelReply,
                                               jsonOk: string -> bool, fuel: nat)
    requires RunLoop(setup, ctx, model, jsonOk, fuel).Finished?
    ensures var o := RunLoop(setup, ctx, model, jsonOk, fuel);
      |o.context| >= 1
      && o.context[|o.context| - 1] == AssistantMessage(TextContent(o.text), setup.idType)
      && model(o.context[..|o.context| - 1]) == Text(o.text)
    decreases fuel
  {
    var o := RunLoop(setup, ctx, model, jsonOk, fuel);
    RunLoopShape(setup, ctx, model, jsonOk, fuel);
    if model(ctx).Text? {
      assert o.context[..|o.context| - 1] == ctx;
    } else {
      var calls := model(ctx).calls;
      var next := ctx + Round(setup, calls, ExecuteCalls(setup, calls, jsonOk).value);
      var o' := RunLoop(setup, next, model, jsonOk, fuel - 1);
      assert o == Shift(o', 1);
      assert o.context == o'.context && o.text == o'.text;
      RunLoopEndsWithText(setup, next, model, jsonOk, fuel - 1);
    }
  }

  /**
   * Every round of a finished loop is a call turn holding exactly the calls the model
   * asked for at that point, followed by their results.
   */
  lemma {:induction false} RunLoopRounds(setup: AgentSetup, ctx: seq<LLMMessage>, model: seq<LLMMessage> -> ModelReply,
                                         jsonOk: string -> bool, fuel: nat, k: nat)
    requires RunLoop(setup, ctx, model, jsonOk, fuel).Finished?
    requires k < RunLoop(setup, ctx, model, jsonOk, fuel).rounds
    ensures var c := RunLoop(setup, ctx, model, jsonOk, fuel).context;
      |ctx| + 2 * k + 2 <= |c|
      && var before := c[..|ctx| + 2 * k];
      model(before).Calls?
      && ExecuteCalls(setup, model(before).calls, jsonOk).Success?
      && c[|ctx| + 2 * k..|ctx| + 2 * k + 2]
         == Round(setup, model(before).calls, ExecuteCalls(setup, model(before).calls, jsonOk).value)
    decreases fuel
  {
    var o := RunLoop(setup, ctx, model, jsonOk, fuel);
    var c := o.context;
    RunLoopShape(setup, ctx, model, jsonOk, fuel);
    assert fuel > 0 && model(ctx).Calls?;
    var calls := model(ctx).calls;
    var ex := ExecuteCalls(setup, calls, jsonOk);
    assert ex.Success?;
    var next := ctx + Round(setup, calls, ex.value);
    var o' := RunLoop(setup, next, model, jsonOk, fuel - 1);
    assert o == Shift(o', 1);
    assert c == o'.context;
    var start := |ctx| + 2 * k;
    RunLoopShape(setup, next, model, jsonOk, fuel - 1);
    if k == 0 {
      PrefixOfPrefix(c, next, |ctx|);
    } else {
      RunLoopRounds(setup, next, model, jsonOk, fuel - 1, k - 1);
      assert |next| + 2 * (k - 1) == start;
      var before := c[..start];
      assert before == o'.context[..|next| + 2 * (k - 1)];
      assert model(before).Calls?;
      var ex' := ExecuteCalls(setup, model(before).calls, jsonOk);
      assert ex'.Success?;
      assert c[start..start + 2] == Round(setup, model(before).calls, ex'.value);
    }
  }

  /** A sequence that starts with `p` starts with every prefix of `p`, and continues with the rest of `p`. */
  lemma PrefixOfPrefix(c: seq<LLMMessage>, p: seq<LLMMessage>, n: nat)
    requires n <= |p| <= |c| && c[..|p|] == p
    ensures c[..n] == p[..n] && c[n..|p|] == p[n..]
  {
    assert c[..n] == c[..|p|][..n];
    assert c[n..|p|] == c[..|p|][n..];
  }

  /** One round of the loop, unfolded: a list of calls either raises or extends the context and asks again. */
  lemma RunLoopCallsRound(setup: AgentSetup, ctx: seq<LLMMessage>, model: seq<LLMMessage> -> ModelReply,
                          jsonOk: string -> bool, fuel: nat)
    requires model(ctx).Calls?
    ensures var ex := ExecuteCalls(setup, model(ctx).calls, jsonOk);
      RunLoop(setup, ctx, model, jsonOk, fuel + 1) ==
        if ex.Failure? then Raised(ex.error)
        else Shift(RunLoop(setup, ctx + Round(setup, model(ctx).calls, ex.value), model, jsonOk, fuel), 1)
  {
  }

  /** The last model call of a loop: a text reply finishes it, any other non-call reply raises. */
  lemma RunLoopFinalReply(setup: AgentSetup, ctx: seq<LLMMessage>, model: seq<LLMMessage> -> ModelReply,
                          jsonOk: string -> bool, fuel: nat)
    requires !model(ctx).Calls?
    ensures RunLoop(setup, ctx, model, jsonOk, fuel + 1) ==
      if model(ctx).Text? then Finished(ctx + [AssistantMessage(TextContent(model(ctx).text), setup.idType)], model(ctx).text, 0)
      else Raised(ReplyNotText)
  {
  }

  /** An agent with no tools (every agent of domain_agents.py) raises on any non-empty list of calls. */
  lemma NoToolsRaises(setup: AgentSetup, ctx: seq<LLMMessage>, model: seq<LLMMessage> -> ModelReply,
                      jsonOk: string -> bool, fuel: nat)
    requires setup.tools == map[] && fuel > 0
    requires model(ctx).Calls? && model(ctx).calls != []
    ensures RunLoop(setup, ctx, model, jsonOk, fuel).Raised?
  {
    assert !CheckCall(setup, model(ctx).calls[0], jsonOk).Success?;
  }

  /** The inner `for` loop, call by call. */
  method ExecuteToolCalls(setup: AgentSetup, calls: seq<FunctionCall>, jsonOk: string -> bool)
    returns (r: Result<seq<FunctionResult>, LoopError>)
    ensures r == ExecuteCalls(setup, calls, jsonOk)
  {
    var results: seq<FunctionResult> := [];
    for i := 0 to |calls|
      invariant ExecuteCalls(setup, calls[..i], jsonOk) == Success(results)
    {
      var call := calls[i];
      assert calls[..i + 1][..i] == calls[..i];
      assert calls[..i + 1][i] == call;
      if !jsonOk(call.arguments) {
        assert ExecuteCalls(setup, calls[..i + 1], jsonOk) == Failure(BadArguments(call.arguments));
        PrefixFailurePersists(setup, calls, jsonOk, i + 1);
        return Failure(BadArguments(call.arguments));
      }
      if call.name in setup.tools {
        results := results + [FunctionResult(call.id, setup.tools[call.name](call.arguments), false, call.name)];
      } else {
        assert ExecuteCalls(setup, calls[..i + 1], jsonOk) == Failure(CheckCall(setup, call, jsonOk).error);
        PrefixFailurePersists(setup, calls, jsonOk, i + 1);
        if setup.flavor.ChatbotAgent? {
          return Failure(UnexpectedTool(call.name));
        } else if call.name in setup.delegateTools {
          return Failure(DoesNotDelegate);
        } else {
          return Failure(UnknownTool(call.name));
        }
      }
    }
    assert calls[..|calls|] == calls;
    r := Success(results);
  }

  /** Where the final `AgentResponse` is published. */
  function ResponseDestination(setup: AgentSetup, session: string): Destination {
    if setup.flavor.ChatbotAgent? then ToBareType(setup.userTopicType)
    else ToTopic(TopicId(setup.userTopicType, session))
  }

  /** The `while` loop of `handle_task` and the check after it, computing the outcome. */
  method Converse(setup: AgentSetup, ctx: seq<LLMMessage>, model: seq<LLMMessage> -> ModelReply,
                  jsonOk: string -> bool, fuel: nat)
    returns (o: LoopOutcome)
    ensures o == RunLoop(setup, ctx, model, jsonOk, fuel)
  {
    if fuel == 0 {
      return Raised(OutOfFuel);
    }
    var context := ctx;
    var left: nat := fuel - 1;
    var reply := model(context);
    var rounds := 0;
    while reply.Calls?
      invariant reply == model(context)
      invariant RunLoop(setup, ctx, model, jsonOk, fuel) == Shift(RunLoop(setup, context, model, jsonOk, left + 1), rounds)
      decreases left
    {
      var results := ExecuteToolCalls(setup, reply.calls, jsonOk);
      ghost var was := context;
      if results.Failure? {
        RoundStep(setup, ctx, context, model, jsonOk, fuel, left, rounds);
        return Raised(results.error);
      }
      context := context + Round(setup, reply.calls, results.value);
      RoundStep(setup, ctx, was, model, jsonOk, fuel, left, rounds);
      if left == 0 {
        return Raised(OutOfFuel);
      }
      left := left - 1;
      rounds := rounds + 1;
      reply := model(context);
    }
    FinalStep(setup, ctx, context, model, jsonOk, fuel, left, rounds);
    if !reply.Text? {
      return Raised(ReplyNotText);
    }
    o := Finished(context + [AssistantMessage(TextContent(reply.text), setup.idType)], reply.text, rounds);
  }

  /** The last reply of `Converse`: text finishes after the rounds so far, anything else raises. */
  lemma FinalStep(setup: AgentSetup, ctx: seq<LLMMessage>, context: seq<LLMMessage>, model: seq<LLMMessage> -> ModelReply,
                  jsonOk: string -> bool, fuel: nat, left: nat, rounds: nat)
    requires !model(context).Calls?
    requires RunLoop(setup, ctx, model, jsonOk, fuel) == Shift(RunLoop(setup, context, model, jsonOk, left + 1), rounds)
    ensures RunLoop(setup, ctx, model, jsonOk, fuel)
            == if model(context).Text?
               then Finished(context + [AssistantMessage(TextContent(model(context).text), setup.idType)], model(context).text, rounds)
               else Raised(ReplyNotText)
  {
    RunLoopFinalReply(setup, context, model, jsonOk, left);
  }

  /** One round of `Converse`: the outcome so far is kept, or the round's error is the outcome. */
  lemma RoundStep(setup: AgentSetup, ctx: seq<LLMMessage>, context: seq<LLMMessage>, model: seq<LLMMessage> -> ModelReply,
                  jsonOk: string -> bool, fuel: nat, left: nat, rounds: nat)
    requires model(context).Calls?
    requires RunLoop(setup, ctx, model, jsonOk, fuel) == Shift(RunLoop(setup, context, model, jsonOk, left + 1), rounds)
    ensures var ex := ExecuteCalls(setup, model(context).calls, jsonOk);
      if ex.Failure? then RunLoop(setup, ctx, model, jsonOk, fuel) == Raised(ex.error)
      else
        var next := context + Round(setup, model(context).calls, ex.value);
        RunLoop(setup, ctx, model, jsonOk, fuel) == Shift(RunLoop(setup, next, model, jsonOk, left), rounds + 1)
        && (left == 0 ==> RunLoop(setup, ctx, model, jsonOk, fuel) == Raised(OutOfFuel))
  {
    var ex := ExecuteCalls(setup, model(context).calls, jsonOk);
    RunLoopCallsRound(setup, context, model, jsonOk, left);
    if ex.Success? {
      var next := context + Round(setup, model(context).calls, ex.value);
      ShiftShift(RunLoop(setup, next, model, jsonOk, left), 1, rounds);
    }
  }

  /**
   * `handle_task`: the loop, then the publish of `AgentResponse(context,
   * reply_to = my topic type)`. The context the handler started from is only read.
   */
  method HandleTask(setup: AgentSetup, task: UserTask, session: string, model: seq<LLMMessage> -> ModelReply,
                    jsonOk: string -> bool, fuel: nat)
    returns (r: Result<Envelope, LoopError>)
    ensures var o := RunLoop(setup, task.context, model, jsonOk, fuel);
      (r.Success? <==> o.Finished?)
      && (r.Success? ==> r.value == Envelope(ResponseDestination(setup, session),
                                               ResponseMsg(AgentResponse(setup.myTopicType, o.context))))
      && (r.Failure? ==> r.error == o.error)
  {
    var o := Converse(setup, task.context, model, jsonOk, fuel);
    if o.Raised? {
      return Failure(o.error);
    }
    r := Success(Envelope(ResponseDestination(setup, session),
                          ResponseMsg(AgentResponse(setup.myTopicType, o.context))));
  }
}
