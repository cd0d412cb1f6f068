/**
 * The web front end's runtime wrapper, banking_chatbot/app/runtime/runtime_manager.py.
 *
 * `RuntimeManager` keeps, per session id, the conversation the user has typed so far,
 * a queue of agent responses nobody could deliver, and the open websocket. Every
 * publish goes through the hooked runtime, which hands each `AgentResponse` to
 * `OnAgentResponse` before the runtime sees it.
 *
 * Websockets are connection numbers; a send on one is recorded in `sends`. What the
 * runtime does with a publish after the hook (delivery to subscribed agents) is
 * not modelled: `published` is the list of messages handed to it, in order.
 */
module RuntimeManagement {
  import opened Wrappers
  import opened PyStrings
  import opened Messages

  const AuthTopic: string := "Auth"
  const ClassifierTopic: string := "DomainClassifier"
  const UserSource: string := "User"

  /** `ws.send_json({"type": kind, "text": text})` on connection `socket`. */
  datatype SocketSend = SocketSend(socket: nat, kind: string, text: string)

  /** `str(msg.content)` for every turn: all four turn types carry a `content`. */
  function Texts(ctx: seq<LLMMessage>): seq<string> {
    seq(|ctx|, i requires 0 <= i < |ctx| => ContentText(ctx[i]))
  }

  /** The text a websocket is sent for a response: the turns' contents, one per line. */
  function ResponseText(ctx: seq<LLMMessage>): string {
    Join("\n", Texts(ctx))
  }

  /** The loop of `_on_agent_response` that collects the texts and joins them. */
  method JoinedText(ctx: seq<LLMMessage>) returns (joined: string)
    ensures joined == ResponseText(ctx)
  {
    var texts: seq<string> := [];
    for i := 0 to |ctx|
      invariant texts == Texts(ctx[..i])
    {
      assert Texts(ctx[..i + 1]) == Texts(ctx[..i]) + [ContentText(ctx[i])];
      texts := texts + [ContentText(ctx[i])];
    }
    assert ctx[..|ctx|] == ctx;
    joined := Join("\n", texts);
  }

  /** A response one turn longer is sent as the previous text plus one more line. */
  lemma ResponseTextGrows(ctx: seq<LLMMessage>, m: LLMMessage)
    ensures ResponseText(ctx + [m])
            == if ctx == [] then ContentText(m) else ResponseText(ctx) + "\n" + ContentText(m)
  {
    assert Texts(ctx + [m]) == Texts(ctx) + [ContentText(m)];
    JoinSnoc("\n", Texts(ctx), ContentText(m));
  }

  /** Every turn the web conversation keeps is a user turn. */
  predicate UserTurnsOnly(ctx: seq<LLMMessage>) {
    forall i :: 0 <= i < |ctx| ==> ctx[i].UserMessage? && ctx[i].source == UserSource
  }

  class RuntimeManager {
    /** `_conversation_context`: the user turns typed so far, per session (a defaultdict). */
    var conversationContext: map<string, seq<LLMMessage>>
    /** `_response_queues`: responses for sessions without a websocket (a defaultdict). */
    var responseQueues: map<string, seq<AgentResponse>>
    /** `_websockets`: the open connection of each session. */
    var websockets: map<string, nat>
    /** Everything handed to the underlying runtime, in order. */
    var published: seq<Envelope>
    /** Everything sent on a websocket, in order. */
    var sends: seq<SocketSend>

    /** The conversation never holds anything but the user's own turns. */
    ghost predicate Valid()
      reads this
    {
      forall s :: s in conversationContext ==> UserTurnsOnly(conversationContext[s])
    }

    /** `self._conversation_context[session]` as the defaultdict reads it. */
    function ContextOf(session: string): seq<LLMMessage>
      reads this
    {
      if session in conversationContext then conversationContext[session] else []
    }

    /** `self._response_queues[session]` as the defaultdict reads it. */
    function QueueOf(session: string): seq<AgentResponse>
      reads this
    {
      if session in responseQueues then responseQueues[session] else []
    }

    constructor ()
      ensures Valid()
      ensures conversationContext == map[] && responseQueues == map[] && websockets == map[]
      ensures published == [] && sends == []
    {
      conversationContext := map[];
      responseQueues := map[];
      websockets := map[];
      published := [];
      sends := [];
    }

    /**
     * `_on_agent_response`: the response is sent, as text, on the session's websocket
     * when one is open, and queued for the session otherwise.
     */
    method OnAgentResponse(response: AgentResponse, topic: TopicId)
      modifies this
      ensures var session := topic.source;
        if session in old(websockets) then
          sends == old(sends) + [SocketSend(old(websockets)[session], "agent_response", ResponseText(response.context))]
          && responseQueues == old(responseQueues)
        else
          responseQueues == old(responseQueues)[session := old(QueueOf(session)) + [response]]
          && sends == old(sends)
      ensures conversationContext == old(conversationContext) && websockets == old(websockets)
      ensures published == old(published)
    {
      var session := topic.source;
      if session in websockets {
        var ws := websockets[session];
        var joined := JoinedText(response.context);
        sends := sends + [SocketSend(ws, "agent_response", joined)];
      } else {
        responseQueues := responseQueues[session := QueueOf(session) + [response]];
      }
    }

    /**
     * `HookedAgentRuntime.publish_message`. An `AgentResponse` first goes to the
     * callback, which reads `topic_id.source`: when the destination is not a
     * `TopicId` that raises `AttributeError` and nothing is published.
     */
    method Publish(e: Envelope) returns (raised: Option<string>)
      modifies this
      ensures raised.Some? <==> e.payload.ResponseMsg? && !e.dest.ToTopic?
      ensures raised.Some? ==> published == old(published) && sends == old(sends)
                               && responseQueues == old(responseQueues)
      ensures raised.None? ==> published == old(published) + [e]
      ensures !e.payload.ResponseMsg? ==> sends == old(sends) && responseQueues == old(responseQueues)
      ensures e.payload.ResponseMsg? && e.dest.ToTopic? ==>
        var session := e.dest.topic.source;
        if session in old(websockets) then
          sends == old(sends) + [SocketSend(old(websockets)[session], "agent_response", ResponseText(e.payload.response.context))]
          && responseQueues == old(responseQueues)
        else
          responseQueues == old(responseQueues)[session := old(QueueOf(session)) + [e.payload.response]]
          && sends == old(sends)
      ensures conversationContext == old(conversationContext) && websockets == old(websockets)
    {
      if e.payload.ResponseMsg? {
        match e.dest
        case ToBareType(_) =>
          return Some("AttributeError: 'str' object has no attribute 'source'");
        case ToAgent(_, _) =>
          return Some("AttributeError: 'AgentId' object has no attribute 'source'");
        case ToTopic(topic) =>
          OnAgentResponse(e.payload.response, topic);
      }
      published := published + [e];
      return None;
    }

    /** `publish_credentials`: the credentials go to the "Auth" topic of the session. */
    method PublishCredentials(creds: UserCredentials, session: string)
      modifies this
      ensures published == old(published) + [Envelope(ToTopic(TopicId(AuthTopic, session)), CredentialsMsg(creds))]
      ensures conversationContext == old(conversationContext) && responseQueues == old(responseQueues)
      ensures websockets == old(websockets) && sends == old(sends)
    {
      var _ := Publish(Envelope(ToTopic(TopicId(AuthTopic, session)), CredentialsMsg(creds)));
    }

    /**
     * `publish_user_message`: the line becomes one more user turn of the session's
     * conversation, and the whole conversation goes to the classifier.
     */
    method PublishUserMessage(userText: string, session: string)
      modifies this
      ensures conversationContext == old(conversationContext)[session := old(ContextOf(session)) + [UserMessage(userText, UserSource)]]
      ensures published == old(published)
                           + [Envelope(ToTopic(TopicId(ClassifierTopic, session)), TaskMsg(UserTask(ContextOf(session))))]
      ensures responseQueues == old(responseQueues) && websockets == old(websockets) && sends == old(sends)
      ensures old(Valid()) ==> Valid()
    {
      var context := ContextOf(session) + [UserMessage(userText, UserSource)];
      conversationContext := conversationContext[session := context];
      var _ := Publish(Envelope(ToTopic(TopicId(ClassifierTopic, session)), TaskMsg(UserTask(context))));
    }

    /** `register_websocket`: a later connection of the same session replaces the earlier one. */
    method RegisterWebsocket(session: string, ws: nat)
      modifies this
      ensures websockets == old(websockets)[session := ws]
      ensures conversationContext == old(conversationContext) && responseQueues == old(responseQueues)
      ensures published == old(published) && sends == old(sends)
    {
      websockets := websockets[session := ws];
    }

    /** `unregister_websocket`: whichever connection the session holds is dropped. */
    method UnregisterWebsocket(session: Option<string>)
      modifies this
      ensures session.Some? ==> websockets == old(websockets) - {session.value}
      ensures session.None? ==> websockets == old(websockets)
      ensures conversationContext == old(conversationContext) && responseQueues == old(responseQueues)
      ensures published == old(published) && sends == old(sends)
    {
      if session.Some? && session.value in websockets {
        websockets := websockets - {session.value};
      }
    }

    /**
     * `drain_agent_responses`: the queued responses, oldest first; the queue is
     * emptied, and a session never queued for gets no entry.
     */
    method DrainAgentResponses(session: string) returns (out: seq<AgentResponse>)
      modifies this
      ensures out == old(QueueOf(session))
      ensures session in old(responseQueues) ==> responseQueues == old(responseQueues)[session := []]
      ensures session !in old(responseQueues) ==> responseQueues == old(responseQueues)
      ensures conversationContext == old(conversationContext) && websockets == old(websockets)
      ensures published == old(published) && sends == old(sends)
    {
      if session !in responseQueues {
        return [];
      }
      out := responseQueues[session];
      responseQueues := responseQueues[session := []];
    }
  }
}
