/** The two POST endpoints. Each is a pure decision over the results of the
    external calls (what to answer and which effects happen, in order) and a
    method that carries the decision out on the connection registry. */
module Handlers {
  import opened Payloads
  import opened Sockets
  import opened Tokens

  /** The gateway's verdict on one device token. */
  datatype TokenResult = Accepted(messageId: string) | Rejected(error: string)

  /** The batch response of one multicast call, passed through unread. */
  datatype BatchResponse = BatchResponse(successCount: nat, failureCount: nat, responses: seq<TokenResult>)

  /** What reading the `/tokens` node gave: its value, or the message of the
      error the read threw. */
  datatype StoreReply = Snapshot(data: Option<seq<Entry>>) | StoreFailed(message: string)

  /** What the multicast call gave: its batch response, or the message of
      the error it threw. */
  datatype GatewayReply = Delivered(report: BatchResponse) | GatewayFailed(message: string)

  /** The JSON body of an answer; a `None` key is absent from the object. */
  datatype ResponseBody = ResponseBody(
    success: Option<bool>,
    message: Option<string>,
    error: Option<string>,
    response: Option<BatchResponse>)

  datatype Response = Response(status: nat, body: ResponseBody)

  /** A visible step of a handler other than its answer. */
  datatype Effect =
    | FetchTokens
    | Multicast(tokens: seq<string>, title: string, body: string)
    | Broadcast(msg: Message)

  /** The answer of one request and its effects in the order they happen. */
  datatype Outcome = Outcome(response: Response, effects: seq<Effect>)

  const MissingFields := "Missing title or body"
  const NoTokensFound := "No tokens found"

  /** 400 `{error: "Missing title or body"}` */
  const BadRequest := Response(400, ResponseBody(None, None, Some(MissingFields), None))
  /** 200 `{success: false, message: "No tokens found"}` */
  const NoTokens := Response(200, ResponseBody(Some(false), Some(NoTokensFound), None, None))
  /** 200 `{success: true}` */
  const Acknowledged := Response(200, ResponseBody(Some(true), None, None, None))

  /** 200 `{success: true, response}` */
  function Sent(report: BatchResponse): Response {
    Response(200, ResponseBody(Some(true), None, None, Some(report)))
  }

  /** 500 `{success: false, error: message}` */
  function ServerError(message: string): Response {
    Response(500, ResponseBody(Some(false), None, Some(message), None))
  }

  /** The guard of `/send`: both `title` and `body` are truthy. */
  predicate HasTitleAndBody(req: NotificationRequest) {
    Truthy(req.title) && Truthy(req.body)
  }

  predicate Broadcasts(effects: seq<Effect>) {
    exists i | 0 <= i < |effects| :: effects[i].Broadcast?
  }

  predicate CallsGateway(effects: seq<Effect>) {
    exists i | 0 <= i < |effects| :: effects[i].Multicast?
  }

  /** `handleSend`: validate, read the tokens, stop when there are none,
      multicast once, broadcast, answer; a throw from either external call
      becomes a 500 answer. */
  function SendDecision(req: NotificationRequest, store: StoreReply, gateway: GatewayReply): (o: Outcome)
    // a request without a truthy title and body is refused before anything else happens
    ensures o.response.status == 400 <==> !HasTitleAndBody(req)
    ensures o.response.status == 400 ==> o.response == BadRequest && o.effects == []
    // otherwise the token store is read first, and only once
    ensures HasTitleAndBody(req) ==> |o.effects| >= 1 && o.effects[0] == FetchTokens
    ensures forall i | 1 <= i < |o.effects| :: !o.effects[i].FetchTokens?
    // no tokens: answered without calling the gateway or broadcasting
    ensures o.response == NoTokens <==>
              HasTitleAndBody(req) && store.Snapshot? && GetAllUserTokens(store.data) == []
    ensures o.response == NoTokens ==> o.effects == [FetchTokens]
    // the gateway is called at most once, right after the read, with every token
    ensures CallsGateway(o.effects) <==>
              HasTitleAndBody(req) && store.Snapshot? && GetAllUserTokens(store.data) != []
    ensures forall i | 0 <= i < |o.effects| && o.effects[i].Multicast? ::
              i == 1 && store.Snapshot? &&
              o.effects[i] == Multicast(GetAllUserTokens(store.data), req.title.value, req.body.value)
    // the broadcast comes last, only after the gateway returned, with title, body and icon
    ensures forall i | 0 <= i < |o.effects| && o.effects[i].Broadcast? ::
              i == |o.effects| - 1 && i == 2 && o.effects[1].Multicast? && gateway.Delivered? &&
              o.effects[i].msg == Message(req.title, req.body, req.icon)
    // success is reported exactly when the broadcast happened, with the gateway's report as is
    ensures o.response.body.success == Some(true) <==> Broadcasts(o.effects)
    ensures Broadcasts(o.effects) ==> gateway.Delivered? && o.response == Sent(gateway.report)
    // and it happens whenever the tokens are non-empty and the multicast returned
    ensures HasTitleAndBody(req) && store.Snapshot? && GetAllUserTokens(store.data) != [] && gateway.Delivered? ==>
              o.response == Sent(gateway.report) && Broadcasts(o.effects)
    // a failed read or a failed multicast is a 500 carrying the error's message
    ensures o.response.status == 500 <==>
              HasTitleAndBody(req) &&
              (store.StoreFailed? || (GetAllUserTokens(store.data) != [] && gateway.GatewayFailed?))
    ensures o.response.status == 500 ==>
              o.response == ServerError(if store.StoreFailed? then store.message else gateway.message)
    ensures o.response.status in {200, 400, 500}
  {
    if !HasTitleAndBody(req) then Outcome(BadRequest, [])
    else match store
      case StoreFailed(e) => Outcome(ServerError(e), [FetchTokens])
      case Snapshot(data) =>
        var tokens := GetAllUserTokens(data);
        if |tokens| == 0 then Outcome(NoTokens, [FetchTokens])
        else
          var call := Multicast(tokens, req.title.value, req.body.value);
          match gateway
          case GatewayFailed(e) =>
            var effects := [FetchTokens, call];
            assert effects[1].Multicast?;
            Outcome(ServerError(e), effects)
          case Delivered(report) =>
            var effects := [FetchTokens, call, Broadcast(Message(req.title, req.body, req.icon))];
            assert effects[1].Multicast? && effects[2].Broadcast?;
            Outcome(Sent(report), effects)
  }

  /** `/send-notification`: no validation, no token read, no gateway call;
      `{title, body}` is broadcast (any `icon` is dropped) and the answer is
      always `{success: true}`. */
  function SendNotificationDecision(req: NotificationRequest): (o: Outcome)
    ensures o.response == Acknowledged
    ensures !CallsGateway(o.effects) && forall i | 0 <= i < |o.effects| :: !o.effects[i].FetchTokens?
    ensures |o.effects| == 1 && o.effects[0].Broadcast?
    ensures o.effects[0].msg.title == req.title && o.effects[0].msg.body == req.body
    ensures o.effects[0].msg.icon == None
  {
    Outcome(Acknowledged, [Broadcast(Message(req.title, req.body, None))])
  }

  /** Whenever `/send` broadcasts, `/send-notification` on the same request
      broadcasts the same message except for the icon: the two agree
      exactly when the request has no icon. */
  lemma EndpointsAgreeWithoutIcon(req: NotificationRequest, store: StoreReply, gateway: GatewayReply)
    requires Broadcasts(SendDecision(req, store, gateway).effects)
    ensures var sent := SendDecision(req, store, gateway).effects[2].msg;
            var notified := SendNotificationDecision(req).effects[0].msg;
            sent.title == notified.title && sent.body == notified.body &&
            (sent == notified <==> req.icon.None?)
  {
  }

  /** Runs `handleSend` against the registry: the answer is the one
      `SendDecision` gives, and the registry's outbox grows by one fan-out to
      the open sockets exactly when the decision broadcasts. */
  method HandleSend(reg: Registry, req: NotificationRequest, store: StoreReply, gateway: GatewayReply)
    returns (resp: Response)
    requires reg.Valid()
    modifies reg`outbox
    ensures reg.Valid()
    ensures reg.sockets == old(reg.sockets) && reg.readyState == old(reg.readyState)
    ensures resp == SendDecision(req, store, gateway).response
    ensures Broadcasts(SendDecision(req, store, gateway).effects) ==>
              BroadcastStep(old(reg.outbox), reg.outbox, reg.OpenSockets(), Message(req.title, req.body, req.icon))
    ensures !Broadcasts(SendDecision(req, store, gateway).effects) ==> reg.outbox == old(reg.outbox)
  {
    if !HasTitleAndBody(req) {
      return BadRequest;
    }
    match store
    case StoreFailed(e) =>
      return ServerError(e);
    case Snapshot(data) =>
      var tokens := GetAllUserTokens(data);
      if |tokens| == 0 {
        return NoTokens;
      }
      match gateway
      case GatewayFailed(e) =>
        return ServerError(e);
      case Delivered(report) =>
        reg.Broadcast(Message(req.title, req.body, req.icon));
        return Sent(report);
  }

  /** Runs `/send-notification` against the registry: every open socket
      receives `{title, body}` once and the answer is `{success: true}`. */
  method SendNotification(reg: Registry, req: NotificationRequest) returns (resp: Response)
    requires reg.Valid()
    modifies reg`outbox
    ensures reg.Valid()
    ensures reg.sockets == old(reg.sockets) && reg.readyState == old(reg.readyState)
    ensures resp == SendNotificationDecision(req).response
    ensures BroadcastStep(old(reg.outbox), reg.outbox, reg.OpenSockets(), SendNotificationDecision(req).effects[0].msg)
  {
    reg.Broadcast(Message(req.title, req.body, None));
    resp := Acknowledged;
  }

  /** Three clients, one of which has started closing, and a `/send` whose
      two tokens are both accepted: the answer carries the report and each
      open client receives the notification once. */
  method ScenarioOneClientClosing() {
    var reg := new Registry();
    reg.Connect(1);
    reg.Connect(2);
    reg.Connect(3);
    reg.ReadyStateChanged(2, Closing);
    assert reg.OpenSockets() == {1, 3};
    var req := NotificationRequest(Some("Hi"), Some("There"), None);
    var report := BatchResponse(2, 0, [Accepted("m1"), Accepted("m2")]);
    var store := Snapshot(Some([Entry("u1", "tokenA"), Entry("u2", "tokenB")]));
    var resp := HandleSend(reg, req, store, Delivered(report));
    assert resp == Sent(report);
    BroadcastReceipts([], reg.outbox, {1, 3}, Message(req.title, req.body, None), 1);
    BroadcastReceipts([], reg.outbox, {1, 3}, Message(req.title, req.body, None), 2);
    BroadcastReceipts([], reg.outbox, {1, 3}, Message(req.title, req.body, None), 3);
    assert Received(reg.outbox, 1) == 1 && Received(reg.outbox, 2) == 0 && Received(reg.outbox, 3) == 1;
  }
}
