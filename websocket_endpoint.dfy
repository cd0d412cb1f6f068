/**
 * The websocket endpoint of banking_chatbot/app/main.py: a conversation state
 * machine that asks for a username, a password and a name, then forwards every
 * further line the client sends to the classifier through the runtime manager.
 *
 * `inputs` is every text the client sends before it disconnects; the prompts the
 * endpoint sends back are returned. The connection itself is the number `ws`.
 */
module WebsocketEndpoint {
  import opened Wrappers
  import opened PyStrings
  import opened Messages
  import opened RuntimeManagement

  datatype State = AwaitUsername | AwaitPassword | AwaitName | AwaitQuery | InConversation

  const AskUsername: string := "Enter your username:"
  const AskPassword: string := "Enter your password:"
  const AskName: string := "May I know your name?"
  const AskIssue: string := "Please describe your banking issue or question:"

  function Greeting(name: string): string {
    "Hello, " + name + "!"
  }

  /** The state after `n` lines have been received. */
  function StateAfter(n: nat): State {
    if n == 0 then AwaitUsername
    else if n == 1 then AwaitPassword
    else if n == 2 then AwaitName
    else if n == 3 then AwaitQuery
    else InConversation
  }

  /** What a state sends before it waits for the next line. */
  function Ask(s: State): seq<string> {
    match s
    case AwaitUsername => [AskUsername]
    case AwaitPassword => [AskPassword]
    case AwaitName => [AskName]
    case AwaitQuery => []
    case InConversation => []
  }

  /** Everything sent while the lines received so far were handled. */
  function SentFor(inputs: seq<string>): seq<string> {
    if |inputs| == 0 then []
    else if |inputs| == 1 then [AskUsername]
    else if |inputs| == 2 then [AskUsername, AskPassword]
    else [AskUsername, AskPassword, AskName, Greeting(inputs[2]), AskIssue]
  }

  /** The session id: the first line, stripped; none before it arrives. */
  function SessionOf(inputs: seq<string>): Option<string> {
    if |inputs| == 0 then None else Some(Strip(inputs[0]))
  }

  /** The session id the later lines are handled under (unused while no line has arrived). */
  function SessionId(inputs: seq<string>): string {
    if |inputs| == 0 then "" else Strip(inputs[0])
  }

  /** One user turn per line. */
  function UserTurns(lines: seq<string>): (r: seq<LLMMessage>)
    ensures |r| == |lines|
  {
    seq(|lines|, i requires 0 <= i < |lines| => UserMessage(lines[i], UserSource))
  }

  /** One classifier publish per query, each carrying the conversation up to and including it. */
  function QueryPublishes(session: string, base: seq<LLMMessage>, queries: seq<string>): (r: seq<Envelope>)
    ensures |r| == |queries|
  {
    if queries == [] then []
    else QueryPublishes(session, base, queries[..|queries| - 1])
         + [Envelope(ToTopic(TopicId(ClassifierTopic, session)), TaskMsg(UserTask(base + UserTurns(queries))))]
  }

  function ContextIn(contexts: map<string, seq<LLMMessage>>, session: string): seq<LLMMessage> {
    if session in contexts then contexts[session] else []
  }

  /** What the endpoint hands to the runtime for the lines received, under the given session. */
  function EndpointPublishes(session: string, inputs: seq<string>, contexts: map<string, seq<LLMMessage>>): seq<Envelope> {
    if |inputs| < 2 then []
    else
      [Envelope(ToTopic(TopicId(AuthTopic, session)), CredentialsMsg(UserCredentials(session, inputs[1])))]
      + (if |inputs| > 3 then QueryPublishes(session, ContextIn(contexts, session), inputs[3..]) else [])
  }

  /** The conversations after the lines received: the queries extend the session's. */
  function EndpointContexts(session: string, inputs: seq<string>, contexts: map<string, seq<LLMMessage>>): map<string, seq<LLMMessage>> {
    if |inputs| < 4 then contexts
    else contexts[session := ContextIn(contexts, session) + UserTurns(inputs[3..])]
  }

  /** What the endpoint has done so far: its state, the prompts sent, the publishes and the conversations. */
  datatype Progress = Progress(state: State, sent: seq<string>, published: seq<Envelope>,
                               contexts: map<string, seq<LLMMessage>>)

  /** One pass of the endpoint's loop: the prompt of the current state, then the line received, handled. */
  function Receive(p: Progress, session: string, line: string): Progress {
    match p.state
    case AwaitUsername =>
      p.(state := AwaitPassword, sent := p.sent + [AskUsername])
    case AwaitPassword =>
      p.(state := AwaitName, sent := p.sent + [AskPassword],
         published := p.published + [Envelope(ToTopic(TopicId(AuthTopic, session)), CredentialsMsg(UserCredentials(session, line)))])
    case AwaitName =>
      p.(state := AwaitQuery, sent := p.sent + [AskName, Greeting(line), AskIssue])
    case _ =>
      var ctx := ContextIn(p.contexts, session) + [UserMessage(line, UserSource)];
      p.(state := InConversation,
         published := p.published + [Envelope(ToTopic(TopicId(ClassifierTopic, session)), TaskMsg(UserTask(ctx)))],
         contexts := p.contexts[session := ctx])
  }

  /** The lines handled one after the other under the session `session`. */
  function Replay(session: string, inputs: seq<string>, contexts: map<string, seq<LLMMessage>>): Progress {
    if inputs == [] then Progress(AwaitUsername, [], [], contexts)
    else Receive(Replay(session, inputs[..|inputs| - 1], contexts), session, inputs[|inputs| - 1])
  }

  /** The progress the closed forms above describe for the lines received. */
  function Described(session: string, inputs: seq<string>, contexts: map<string, seq<LLMMessage>>): Progress {
    Progress(StateAfter(|inputs|), SentFor(inputs), EndpointPublishes(session, inputs, contexts),
             EndpointContexts(session, inputs, contexts))
  }

  /** Handling the lines one by one gives the prompts, publishes and conversations described above. */
  lemma {:induction false} ReplayMatches(session: string, inputs: seq<string>, contexts: map<string, seq<LLMMessage>>)
    ensures Replay(session, inputs, contexts) == Described(session, inputs, contexts)
  {
    if inputs != [] {
      ReplayMatches(session, inputs[..|inputs| - 1], contexts);
      ReceiveLine(session, inputs, contexts);
    }
  }

  /** Handling one more line takes the described progress of the earlier lines to that of all of them. */
  lemma ReceiveLine(session: string, inputs: seq<string>, contexts: map<string, seq<LLMMessage>>)
    requires inputs != []
    ensures Receive(Described(session, inputs[..|inputs| - 1], contexts), session, inputs[|inputs| - 1])
            == Described(session, inputs, contexts)
  {
    var init := inputs[..|inputs| - 1];
    if |inputs| == 2 {
      assert init == [inputs[0]];
    } else if |inputs| == 3 {
      assert init == [inputs[0], inputs[1]];
    } else if |inputs| == 4 {
      FirstQuery(session, inputs, contexts);
    } else if |inputs| > 4 {
      NextQuery(session, inputs, contexts);
    }
  }

  /**
   * `websocket_endpoint`: the prompts sent, and the manager afterwards. The
   * connection is registered under the session once the username is read and
   * unregistered when the client disconnects, so the map of open sockets ends as
   * it began less that session.
   */
  method Endpoint(rm: RuntimeManager, ws: nat, inputs: seq<string>) returns (prompts: seq<string>)
    modifies rm
    ensures prompts == SentFor(inputs) + Ask(StateAfter(|inputs|))
    ensures rm.published == old(rm.published) + EndpointPublishes(SessionId(inputs), inputs, old(rm.conversationContext))
    ensures rm.conversationContext == EndpointContexts(SessionId(inputs), inputs, old(rm.conversationContext))
    ensures SessionOf(inputs).None? ==> rm.websockets == old(rm.websockets)
    ensures SessionOf(inputs).Some? ==> rm.websockets == old(rm.websockets) - {SessionOf(inputs).value}
    ensures rm.responseQueues == old(rm.responseQueues) && rm.sends == old(rm.sends)
  {
    var state := AwaitUsername;
    var session: Option<string> := None;
    var i := 0;
    prompts := [];
    ghost var sid, published0, contexts0 := SessionId(inputs), rm.published, rm.conversationContext;
    ghost var p := Replay(sid, [], contexts0);
    while true
      invariant 0 <= i <= |inputs| && state == StateAfter(i) && p == Replay(sid, inputs[..i], contexts0)
      invariant i == 0 ==> session == None && rm.websockets == old(rm.websockets)
      invariant i > 0 ==> session == Some(sid) && rm.websockets == old(rm.websockets)[sid := ws]
      invariant p.state == state && prompts == p.sent
      invariant rm.published == published0 + p.published && rm.conversationContext == p.contexts
      invariant rm.responseQueues == old(rm.responseQueues) && rm.sends == old(rm.sends)
      decreases |inputs| - i
    {
      prompts := prompts + Ask(state);
      if i == |inputs| { break; }
      var line := inputs[i];
      p := Receive(p, sid, line);
      i := i + 1;
      assert inputs[..i][..i - 1] == inputs[..i - 1];
      match state
      case AwaitUsername =>
        session := Some(Strip(line));
        rm.RegisterWebsocket(session.value, ws);
        state := AwaitPassword;
      case AwaitPassword =>
        rm.PublishCredentials(UserCredentials(session.value, line), session.value);
        state := AwaitName;
      case AwaitName =>
        prompts := prompts + [Greeting(line), AskIssue];
        state := AwaitQuery;
      case AwaitQuery =>
        rm.PublishUserMessage(line, session.value);
        state := InConversation;
      case InConversation =>
        rm.PublishUserMessage(line, session.value);
    }
    assert inputs[..i] == inputs;
    ReplayMatches(sid, inputs, contexts0);
    rm.UnregisterWebsocket(session);
  }

  /** When the last line is a query, it adds one turn to the session's conversation and one classifier publish. */
  predicate QueryGrowth(session: string, inputs: seq<string>, contexts: map<string, seq<LLMMessage>>)
    requires |inputs| > 3
  {
    var init := inputs[..|inputs| - 1];
    var prev := ContextIn(EndpointContexts(session, init, contexts), session);
    var turn := UserMessage(inputs[|inputs| - 1], UserSource);
    SentFor(inputs) == SentFor(init)
    && EndpointContexts(session, inputs, contexts) == EndpointContexts(session, init, contexts)[session := prev + [turn]]
    && EndpointPublishes(session, inputs, contexts)
       == EndpointPublishes(session, init, contexts) + [Envelope(ToTopic(TopicId(ClassifierTopic, session)), TaskMsg(UserTask(prev + [turn])))]
  }

  /** The first query starts from the session's earlier conversation. */
  lemma FirstQuery(session: string, inputs: seq<string>, contexts: map<string, seq<LLMMessage>>)
    requires |inputs| == 4
    ensures QueryGrowth(session, inputs, contexts)
  {
    var init := inputs[..3];
    var base := ContextIn(contexts, session);
    var turn := UserMessage(inputs[3], UserSource);
    assert init[1] == inputs[1] && init[2] == inputs[2];
    assert inputs[3..] == [inputs[3]];
    LaterQuery(session, base, [], inputs[3]);
    assert [] + [inputs[3]] == [inputs[3]];
    assert UserTurns(inputs[3..]) == [turn];
    assert EndpointContexts(session, init, contexts) == contexts;
  }

  /** A later query extends the conversation the earlier queries built. */
  lemma NextQuery(session: string, inputs: seq<string>, contexts: map<string, seq<LLMMessage>>)
    requires |inputs| > 4
    ensures QueryGrowth(session, inputs, contexts)
  {
    var init := inputs[..|inputs| - 1];
    var base := ContextIn(contexts, session);
    var qs := init[3..];
    var turn := UserMessage(inputs[|inputs| - 1], UserSource);
    var prev := base + UserTurns(qs);
    assert init[1] == inputs[1] && init[2] == inputs[2];
    assert inputs[3..] == qs + [inputs[|inputs| - 1]];
    LaterQuery(session, base, qs, inputs[|inputs| - 1]);
    assert ContextIn(EndpointContexts(session, init, contexts), session) == prev;
    assert base + UserTurns(inputs[3..]) == prev + [turn];
    assert contexts[session := prev][session := prev + [turn]] == contexts[session := prev + [turn]];
  }

  /** A further query adds one user turn and one classifier publish carrying the whole conversation. */
  lemma LaterQuery(session: string, base: seq<LLMMessage>, qs: seq<string>, q: string)
    ensures UserTurns(qs + [q]) == UserTurns(qs) + [UserMessage(q, UserSource)]
    ensures QueryPublishes(session, base, qs + [q])
            == QueryPublishes(session, base, qs)
               + [Envelope(ToTopic(TopicId(ClassifierTopic, session)), TaskMsg(UserTask(base + UserTurns(qs) + [UserMessage(q, UserSource)])))]
  {
    assert UserTurns(qs + [q]) == UserTurns(qs) + [UserMessage(q, UserSource)];
    assert (qs + [q])[..|qs|] == qs;
    assert base + UserTurns(qs + [q]) == base + UserTurns(qs) + [UserMessage(q, UserSource)];
  }

  /** The k-th classifier publish carries the base conversation and exactly the first k+1 queries. */
  lemma {:induction false} QueryPublishesCarryHistory(session: string, base: seq<LLMMessage>, queries: seq<string>, k: nat)
    requires k < |queries|
    ensures QueryPublishes(session, base, queries)[k]
            == Envelope(ToTopic(TopicId(ClassifierTopic, session)), TaskMsg(UserTask(base + UserTurns(queries[..k + 1]))))
  {
    if k < |queries| - 1 {
      var init := queries[..|queries| - 1];
      QueryPublishesCarryHistory(session, base, init, k);
      assert init[..k + 1] == queries[..k + 1];
    } else {
      assert queries[..k + 1] == queries;
    }
  }

  /** The name typed at the third prompt is only echoed back: nothing published depends on it. */
  lemma NameNeverPublished(inputs: seq<string>, other: string, contexts: map<string, seq<LLMMessage>>)
    requires |inputs| >= 3
    ensures var renamed := inputs[2 := other];
      EndpointPublishes(SessionId(renamed), renamed, contexts) == EndpointPublishes(SessionId(inputs), inputs, contexts)
      && EndpointContexts(SessionId(renamed), renamed, contexts) == EndpointContexts(SessionId(inputs), inputs, contexts)
  {
    assert inputs[2 := other][3..] == inputs[3..];
  }

  /** The credentials carry the stripped username as both the session and the user name. */
  lemma CredentialsUnderSession(inputs: seq<string>, contexts: map<string, seq<LLMMessage>>)
    requires |inputs| >= 2
    ensures var e := EndpointPublishes(SessionId(inputs), inputs, contexts)[0];
      e.dest == ToTopic(TopicId(AuthTopic, SessionOf(inputs).value))
      && e.payload == CredentialsMsg(UserCredentials(SessionOf(inputs).value, inputs[1]))
  {
  }
}
