/** The live-message hook (src/hooks/use-websocket-queue.ts): a queue is
    provisioned over REST once on mount, a STOMP client is created as soon as
    a queue name is known, every frame received on the subscription is
    normalised into exactly one `Message` appended to the list, and the
    client's callbacks drive the connection and error state. */
module WebSocketQueue {
  import opened Js

  datatype Message = Message(id: string, content: string, createdAt: int,
                             senderType: string, conversationId: string)

  /** A `timestamp` field: an epoch number or a date text. */
  datatype Stamp = EpochStamp(millis: int) | TextStamp(text: string)

  predicate TruthyStamp(s: Option<Stamp>) {
    match s
    case None => false
    case Some(EpochStamp(n)) => n != 0
    case Some(TextStamp(t)) => t != ""
  }

  /** The fields a frame's JSON body may carry; each may be missing. */
  datatype Payload = Payload(
    id: Option<string>, content: Option<string>, text: Option<string>,
    createdAt: Option<int>, timestamp: Option<Stamp>,
    senderType: Option<string>, conversationId: Option<string>)

  /** What `JSON.parse` makes of a frame's body. A body that does not parse
      and one that parses to `null` (reading a field of it throws) both take
      the `catch` path. */
  datatype Body = Unparseable | Parsed(payload: Payload)

  const UnknownContent := "Unknown content"
  const DefaultSender := "bot"
  const ErrorSender := "error"
  const UnknownConversation := "unknown"

  /** The value of a chain `a || b || ... || fallback` over optional strings:
      the first truthy candidate, or the fallback when there is none. */
  function FirstTruthy(candidates: seq<Option<string>>, fallback: string): (r: string)
    ensures (forall i :: 0 <= i < |candidates| ==> !Truthy(candidates[i])) ==> r == fallback
    ensures forall i :: 0 <= i < |candidates| && Truthy(candidates[i])
                        && (forall j :: 0 <= j < i ==> !Truthy(candidates[j]))
                        ==> r == candidates[i].value
    ensures r == fallback || (exists i :: 0 <= i < |candidates| && Truthy(candidates[i]) && r == candidates[i].value)
  {
    if candidates == [] then fallback
    else if Truthy(candidates[0]) then candidates[0].value
    else FirstTruthy(candidates[1..], fallback)
  }

  /** `created_at || (timestamp ? toMillis(timestamp) : now)`. */
  function CreatedAt(p: Payload, now: int, toMillis: Stamp -> int): (r: int)
    ensures TruthyNumber(p.createdAt) ==> r == p.createdAt.value
    ensures !TruthyNumber(p.createdAt) && TruthyStamp(p.timestamp) ==> r == toMillis(p.timestamp.value)
    ensures !TruthyNumber(p.createdAt) && !TruthyStamp(p.timestamp) ==> r == now
  {
    if TruthyNumber(p.createdAt) then p.createdAt.value
    else if TruthyStamp(p.timestamp) then toMillis(p.timestamp.value)
    else now
  }

  /** The subscribe handler's message for one frame. `raw` is the frame's
      body text, `now` the clock reading, `toMillis` the date conversion
      `new Date(timestamp).getTime()`. */
  function Normalise(body: Body, raw: string, now: int, toMillis: Stamp -> int): (m: Message)
    ensures body.Unparseable? ==>
      m == Message("error-" + IntText(now), raw, now, ErrorSender, UnknownConversation)
    ensures body.Parsed? ==>
      var p := body.payload;
      m.content == FirstTruthy([p.content, p.text], UnknownContent)
      && m.id == FirstTruthy([p.id], "ws-" + IntText(now))
      && m.senderType == FirstTruthy([p.senderType], DefaultSender)
      && m.conversationId == FirstTruthy([p.conversationId], UnknownConversation)
      && m.createdAt == CreatedAt(p, now, toMillis)
  {
    match body
    case Unparseable =>
      Message("error-" + IntText(now), raw, now, ErrorSender, UnknownConversation)
    case Parsed(p) =>
      Message(FirstTruthy([p.id], "ws-" + IntText(now)),
              FirstTruthy([p.content, p.text], UnknownContent),
              CreatedAt(p, now, toMillis),
              FirstTruthy([p.senderType], DefaultSender),
              FirstTruthy([p.conversationId], UnknownConversation))
  }

  /** A parsed frame never yields an empty id, content, sender or
      conversation: every field falls back to a non-empty default. */
  lemma NormalisedFieldsFilled(p: Payload, raw: string, now: int, toMillis: Stamp -> int)
    ensures var m := Normalise(Parsed(p), raw, now, toMillis);
      m.id != "" && m.content != "" && m.senderType != "" && m.conversationId != ""
  {
  }

  /** The error category appears only on the `catch` path or when the
      payload itself says so; the `catch` path keeps the raw body. */
  lemma ErrorSenderOnlyFromFallback(body: Body, raw: string, now: int, toMillis: Stamp -> int)
    ensures Normalise(body, raw, now, toMillis).senderType == ErrorSender <==>
      body.Unparseable? || body.payload.senderType == Some(ErrorSender)
    ensures body.Unparseable? ==> Normalise(body, raw, now, toMillis).content == raw
  {
  }

  /** The payload a well-formed message is sent as. */
  function Encode(m: Message): Payload {
    Payload(Some(m.id), Some(m.content), None, Some(m.createdAt), None,
            Some(m.senderType), Some(m.conversationId))
  }

  predicate WellFormed(m: Message) {
    m.id != "" && m.content != "" && m.createdAt != 0 && m.senderType != "" && m.conversationId != ""
  }

  /** A payload carrying every field is taken over verbatim: normalisation
      inverts encoding, whatever the clock says. */
  lemma NormaliseRoundTrip(m: Message, raw: string, now: int, toMillis: Stamp -> int)
    requires WellFormed(m)
    ensures Normalise(Parsed(Encode(m)), raw, now, toMillis) == m
  {
  }

  /** Ids synthesised for two frames that both lack an id, or that both fail
      to parse, differ when the clock readings differ, and the two kinds of
      synthesised id never coincide. */
  lemma SynthesisedIdsDistinct(b1: Body, b2: Body, raw1: string, raw2: string,
                               now1: int, now2: int, toMillis: Stamp -> int)
    requires now1 != now2
    requires b1.Unparseable? == b2.Unparseable?
    requires b1.Parsed? ==> !Truthy(b1.payload.id) && !Truthy(b2.payload.id)
    ensures Normalise(b1, raw1, now1, toMillis).id != Normalise(b2, raw2, now2, toMillis).id
  {
    var prefix := if b1.Unparseable? then "error-" else "ws-";
    if Normalise(b1, raw1, now1, toMillis).id == Normalise(b2, raw2, now2, toMillis).id {
      PrefixedInjective(prefix, IntText(now1), IntText(now2));
      IntTextInjective(now1, now2);
    }
  }

  lemma FallbackAndSynthesisedIdsDiffer(p: Payload, raw1: string, raw2: string,
                                        now1: int, now2: int, toMillis: Stamp -> int)
    requires !Truthy(p.id)
    ensures Normalise(Unparseable, raw1, now1, toMillis).id != Normalise(Parsed(p), raw2, now2, toMillis).id
  {
    var e := Normalise(Unparseable, raw1, now1, toMillis).id;
    var w := Normalise(Parsed(p), raw2, now2, toMillis).id;
    assert e[0] == 'e' && w[0] == 'w';
  }

  datatype ErrorKind = ConnectionError | StompError | QueueError
  /** One call of the `onError` option. */
  datatype ErrorReport = ErrorReport(message: string, kind: ErrorKind)
  /** One `client.subscribe` call: destination and subscription id. */
  datatype Subscription = Subscription(destination: string, id: string)

  const QueueFailedText := "Failed to create queue"
  const WebSocketErrorText := "WebSocket connection error"

  function StompErrorText(header: Option<string>): string {
    "STOMP Error: " + (if header.Some? then header.value else "undefined")
  }

  function SubscriptionFor(queueName: string): (s: Subscription)
    ensures s.destination == "/queue/" + queueName && s.id == "sub-" + queueName
  {
    Subscription("/queue/" + queueName, "sub-" + queueName)
  }

  datatype HookState = HookState(
    queueName: Option<string>, connected: bool, messages: seq<Message>,
    connectionError: Option<string>, queueRequests: nat, queueSettled: bool,
    queueFailure: Option<string>, clientActive: bool, clientsCreated: nat,
    subscriptions: seq<Subscription>, reported: seq<ErrorReport>, clientConnected: bool)

  /** The hook's state. `queueFailure` is the queue mutation's error as
      `String(error)` prints it; `clientActive` says whether a STOMP client
      was activated and not deactivated; `clientsCreated` counts the clients
      constructed; `subscriptions` and `reported` record the calls of
      `client.subscribe` and of `onError`. `connected` is the hook's own
      state, set by its callbacks; `clientConnected` is the STOMP client's
      `connected` property, which the client keeps by itself and which a
      closed socket clears without any callback of the hook running. */
  class QueueHook {
    var queueName: Option<string>
    var connected: bool
    var messages: seq<Message>
    var connectionError: Option<string>
    var queueRequests: nat
    var queueSettled: bool
    var queueFailure: Option<string>
    var clientActive: bool
    var clientsCreated: nat
    var subscriptions: seq<Subscription>
    var reported: seq<ErrorReport>
    var clientConnected: bool

    ghost function State(): HookState
      reads this
    {
      HookState(queueName, connected, messages, connectionError, queueRequests, queueSettled,
                queueFailure, clientActive, clientsCreated, subscriptions, reported, clientConnected)
    }

    /** No client exists before a non-empty queue name is known, the queue
        is requested exactly once, and only the queue's name is subscribed. */
    ghost predicate Valid()
      reads this
    {
      queueRequests == 1
      && (clientsCreated > 0 ==> queueName.Some? && queueName.value != "")
      && (clientActive ==> clientsCreated > 0)
      && (clientConnected ==> clientActive)
      && clientsCreated <= 1
      && (queueName.Some? ==> queueSettled)
      && (queueName.None? ==> subscriptions == [])
      && (forall i :: 0 <= i < |subscriptions| ==>
            queueName.Some? && subscriptions[i] == SubscriptionFor(queueName.value))
    }

    /** Mounting: the queue is requested once; the client effect finds no
        queue name and creates nothing. */
    constructor ()
      ensures Valid()
      ensures queueName == None && !connected && messages == [] && connectionError == None
      ensures queueRequests == 1 && !queueSettled && queueFailure == None
      ensures !clientActive && clientsCreated == 0 && subscriptions == [] && reported == []
      ensures !clientConnected
    {
      queueName := None;
      connected := false;
      messages := [];
      connectionError := None;
      queueRequests := 1;
      queueSettled := false;
      queueFailure := None;
      clientActive := false;
      clientsCreated := 0;
      subscriptions := [];
      reported := [];
      clientConnected := false;
    }

    /** The exposed `error`: the connection error when one is set, otherwise
        the queue mutation's error. */
    function Error(): (e: Option<string>)
      reads this
      ensures Truthy(connectionError) ==> e == connectionError
      ensures !Truthy(connectionError) ==> e == queueFailure
      ensures e.Some? <==> IsError()
    {
      if Truthy(connectionError) then connectionError else queueFailure
    }

    /** The exposed `isError`. */
    predicate IsError()
      reads this
    {
      Truthy(connectionError) || queueFailure.Some?
    }

    /** The queue request succeeded with `name`; a client is created and
        activated when the name is non-empty. The queue is requested once,
        so its outcome arrives once. */
    method QueueSucceeded(name: string)
      requires Valid() && !queueSettled
      modifies this
      ensures Valid()
      ensures State() == old(State()).(queueName := Some(name), queueSettled := true,
                                       queueFailure := None,
                                       clientActive := name != "",
                                       clientsCreated := if name != "" then 1 else 0)
    {
      queueName := Some(name);
      queueSettled := true;
      queueFailure := None;
      if name != "" {
        clientActive := true;
        clientsCreated := 1;
      }
    }

    /** The queue request failed: a `queue` error is reported and no client
        is ever created. */
    method QueueFailed(err: string)
      requires Valid() && !queueSettled
      modifies this
      ensures Valid()
      ensures State() == old(State()).(queueSettled := true, queueFailure := Some(err),
                                       connectionError := Some(QueueFailedText),
                                       reported := old(reported) + [ErrorReport(QueueFailedText, QueueError)])
      ensures IsError() && Error() == Some(QueueFailedText)
    {
      queueSettled := true;
      queueFailure := Some(err);
      connectionError := Some(QueueFailedText);
      reported := reported + [ErrorReport(QueueFailedText, QueueError)];
    }

    /** `client.onConnect`, which only a running client calls: connected,
        the error cleared, and the queue subscribed. */
    method Connected()
      requires Valid() && clientActive
      modifies this
      ensures Valid()
      ensures State() == old(State()).(connected := true, connectionError := None, clientConnected := true,
                                       subscriptions := old(subscriptions) + [SubscriptionFor(old(queueName.value))])
      ensures !Truthy(connectionError)
    {
      connected := true;
      clientConnected := true;
      connectionError := None;
      subscriptions := subscriptions + [SubscriptionFor(queueName.value)];
    }

    /** `client.onStompError`: the error is set; `connected` is left as it
        was. */
    method StompFailure(header: Option<string>)
      requires Valid() && clientActive
      modifies this
      ensures Valid()
      ensures State() == old(State()).(connectionError := Some(StompErrorText(header)),
                                       reported := old(reported) + [ErrorReport(StompErrorText(header), StompError)])
    {
      connectionError := Some(StompErrorText(header));
      reported := reported + [ErrorReport(StompErrorText(header), StompError)];
    }

    /** `client.onWebSocketError`: the error is set and the hook reports
        itself disconnected. */
    method WebSocketFailure()
      requires Valid() && clientActive
      modifies this
      ensures Valid()
      ensures State() == old(State()).(connectionError := Some(WebSocketErrorText), connected := false,
                                       reported := old(reported) + [ErrorReport(WebSocketErrorText, ConnectionError)])
    {
      connectionError := Some(WebSocketErrorText);
      connected := false;
      reported := reported + [ErrorReport(WebSocketErrorText, ConnectionError)];
    }

    /** A frame delivered on the subscription: exactly one message is
        appended, earlier ones are untouched, and nothing is filtered by
        conversation. */
    method FrameReceived(body: Body, raw: string, now: int, toMillis: Stamp -> int) returns (m: Message)
      requires Valid() && clientActive && subscriptions != []
      modifies this
      ensures Valid()
      ensures m == Normalise(body, raw, now, toMillis)
      ensures State() == old(State()).(messages := old(messages) + [m])
      ensures |messages| == |old(messages)| + 1 && messages[..|old(messages)|] == old(messages)
    {
      m := Normalise(body, raw, now, toMillis);
      messages := messages + [m];
    }

    /** The socket under a running client closes (the broker closing it
        after an ERROR frame, a missed heartbeat, a network drop): the
        client's own `connected` turns false and it schedules a reconnect.
        The hook sets no close or disconnect handler, so none of its state
        changes. */
    method SocketClosed()
      requires Valid() && clientActive
      modifies this
      ensures Valid()
      ensures State() == old(State()).(clientConnected := false)
    {
      clientConnected := false;
    }

    /** The effect's cleanup as written: the client is deactivated only when
        the client itself reports being connected; the hook's `connected`
        is not consulted. */
    method Cleanup()
      requires Valid()
      modifies this
      ensures Valid()
      ensures old(clientConnected) ==>
        State() == old(State()).(clientActive := false, clientConnected := false, connected := false)
      ensures !old(clientConnected) ==> State() == old(State())
    {
      if clientConnected {
        clientActive := false;
        clientConnected := false;
        connected := false;
      }
    }

    /** A cleanup that always deactivates the client: on unmount none of
        its callbacks can run afterwards. */
    method CleanupDeactivating()
      requires Valid()
      modifies this
      ensures Valid()
      ensures State() == old(State()).(clientActive := false, clientConnected := false, connected := false)
      ensures !clientActive
    {
      clientActive := false;
      clientConnected := false;
      connected := false;
    }
  }

  /** Unmounting before the broker connection is established leaves the
      client active (it keeps reconnecting) under the cleanup as written. */
  method UnmountBeforeConnect() returns (stillActive: bool)
    ensures stillActive
  {
    var hook := new QueueHook();
    hook.QueueSucceeded("q-42");
    hook.Cleanup();
    stillActive := hook.clientActive;
  }

  /** The same sequence under the deactivating cleanup stops the client. */
  method UnmountBeforeConnectDeactivating() returns (stillActive: bool)
    ensures !stillActive
  {
    var hook := new QueueHook();
    hook.QueueSucceeded("q-42");
    hook.CleanupDeactivating();
    stillActive := hook.clientActive;
  }

  /** A broker ERROR frame followed by the socket closing, then unmount:
      the hook still shows itself connected, but the client does not, so
      the cleanup as written skips `deactivate()` and the client keeps
      reconnecting. The corrected cleanup stops it. */
  method UnmountAfterSocketClosed() returns (hookConnected: bool, stillActive: bool, stoppedIfCorrected: bool)
    ensures hookConnected && stillActive && stoppedIfCorrected
  {
    var hook := new QueueHook();
    hook.QueueSucceeded("q-42");
    hook.Connected();
    hook.StompFailure(Some("access refused"));
    hook.SocketClosed();
    hook.Cleanup();
    hookConnected := hook.connected;
    stillActive := hook.clientActive;
    hook.CleanupDeactivating();
    stoppedIfCorrected := !hook.clientActive;
  }
}
