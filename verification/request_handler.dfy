/**
 * The LINE webhook entry point: the signature header lookup, the classification
 * of each webhook event (only text messages go on), the request record that is
 * put on the queue for the conversation workflow, the fallback reply when the
 * queue does not accept it, and the handler's response. The queue, the LINE
 * client, the signature check, the JSON parser and SHA-256 are opaque: their
 * outcomes arrive in an `Io` value.
 */
module RequestHandler {
  import opened Wrappers
  import opened Json

  /** The header LINE puts its signature in, as the handler looks it up first, then second. */
  const SignatureHeader := "x-line-signature"
  const SignatureHeaderTitle := "X-Line-Signature"

  /** The text of the fallback reply sent when the queue does not accept a message. */
  const FallbackText := "Sorry, cannot accept your message. Please retry."

  /** The mode every queued request carries. */
  const ChatMode := "chat"

  /**
   * The signature the request claims: the lower-case header when present,
   * otherwise the title-case one, otherwise the empty string.
   */
  function LineSignature(headers: map<string, string>): (sig: string)
    ensures SignatureHeader in headers ==> sig == headers[SignatureHeader]
    ensures SignatureHeader !in headers && SignatureHeaderTitle in headers ==> sig == headers[SignatureHeaderTitle]
    ensures SignatureHeader !in headers && SignatureHeaderTitle !in headers ==> sig == ""
    ensures sig != "" ==> (SignatureHeader in headers && sig == headers[SignatureHeader]) ||
                          (SignatureHeaderTitle in headers && sig == headers[SignatureHeaderTitle])
  {
    if SignatureHeader in headers then headers[SignatureHeader]
    else if SignatureHeaderTitle in headers then headers[SignatureHeaderTitle]
    else ""
  }

  /** Only the two signature headers matter: requests that agree on them carry the same signature. */
  lemma SignatureOnlyFromItsHeaders(h1: map<string, string>, h2: map<string, string>)
    requires SignatureHeader in h1 <==> SignatureHeader in h2
    requires SignatureHeader in h1 ==> h1[SignatureHeader] == h2[SignatureHeader]
    requires SignatureHeaderTitle in h1 <==> SignatureHeaderTitle in h2
    requires SignatureHeaderTitle in h1 ==> h1[SignatureHeaderTitle] == h2[SignatureHeaderTitle]
    ensures LineSignature(h1) == LineSignature(h2)
  {
  }

  /** Without either header the signature is empty. */
  lemma SignatureMissing(headers: map<string, string>)
    requires SignatureHeader !in headers && SignatureHeaderTitle !in headers
    ensures LineSignature(headers) == ""
  {
  }

  /** Where a message came from. A user source always names the user; in groups and rooms the user may be unknown. */
  datatype Source =
    | UserSource(userId: string)
    | GroupSource(groupId: string, member: Option<string>)
    | RoomSource(roomId: string, member: Option<string>)

  /** A message: a text message, or one of the other kinds (sticker, image, ...). */
  datatype Message = TextMessage(id: string, text: string) | OtherMessage(id: string, kind: string)

  /** A webhook event: a message event, or an event of another type (follow, join, postback, ...). */
  datatype WebhookEvent =
    | MessageEvent(replyToken: string, source: Source, timestamp: int, message: Message)
    | OtherEvent(kind: string)

  /** The user id of the source, when there is one. */
  function UserId(s: Source): Option<string>
  {
    match s
    case UserSource(u) => Some(u)
    case GroupSource(_, m) => m
    case RoomSource(_, m) => m
  }

  /** The group id the request records: the source's group id for a group, and `""` otherwise. */
  function GroupId(s: Source): (g: string)
    ensures !s.GroupSource? ==> g == ""
  {
    if s.GroupSource? then s.groupId else ""
  }

  /**
   * The text the chat id is the hash of: the group id when it is not empty,
   * otherwise the user id. None when there is no user id to fall back on, in
   * which case hashing fails.
   */
  function ChatKeyText(s: Source): Option<string>
  {
    if GroupId(s) == "" then UserId(s) else Some(GroupId(s))
  }

  /** Every member of a group, known or not, shares the group's chat key. */
  lemma GroupMembersShareKey(g: string, m1: Option<string>, m2: Option<string>)
    requires g != ""
    ensures ChatKeyText(GroupSource(g, m1)) == ChatKeyText(GroupSource(g, m2)) == Some(g)
  {
  }

  /** Outside groups the key is the user's own: one chat per user, rooms included. */
  lemma UserKeyOutsideGroups(s: Source)
    requires !s.GroupSource?
    ensures ChatKeyText(s) == UserId(s)
  {
  }

  /** `Math.round(ms / 1000)`: the nearest whole second, halves rounded up. */
  function RoundSeconds(ms: int): int
  {
    (ms as real / 1000.0 + 0.5).Floor
  }

  /** Rounding to seconds is integer arithmetic: add half a second, then divide (rounding down). */
  lemma RoundSecondsInteger(ms: int)
    ensures RoundSeconds(ms) == (ms + 500) / 1000
  {
    var q := (ms + 500) / 1000;
    var x := ms as real / 1000.0 + 0.5;
    assert q * 1000 <= ms + 500 < q * 1000 + 1000;
    assert (ms + 500) as real == 1000.0 * x;
    assert q as real <= x < q as real + 1.0;
  }

  /** The record put on the queue for one text message. */
  datatype ChatRequest = ChatRequest(
    messageId: string,
    chatId: string,
    userId: Option<string>,
    groupId: string,
    replyToken: string,
    timestampSecond: int,
    timestamp: int,
    message: string,
    mode: string)

  /** The queued message body: the record as JSON, with `userId` left out when there is none. */
  function RequestJson(r: ChatRequest): Json
  {
    var fields := map["messageId" := Str(r.messageId), "chatId" := Str(r.chatId), "groupId" := Str(r.groupId),
                      "replyToken" := Str(r.replyToken), "timestampSecond" := Num(r.timestampSecond),
                      "timestamp" := Num(r.timestamp), "message" := Str(r.message), "mode" := Str(r.mode)];
    Obj(if r.userId.Some? then fields["userId" := Str(r.userId.value)] else fields)
  }

  /** What the classification of one event decides. */
  datatype Classified =
    | BadRequest           // answered with status 400, "Bad Request"
    | HashFailed           // hashing an absent user id throws
    | Enqueue(request: ChatRequest)

  /**
   * The checks and derivations of the event handler, in the order it makes
   * them: the event type, then the chat id (whose hashing fails without a user
   * id), then the message type, then the record.
   */
  function Classify(e: WebhookEvent, sha256Hex: string -> string): (c: Classified)
    ensures c.Enqueue? ==> e.MessageEvent? && e.message.TextMessage?
    ensures c.Enqueue? ==> c.request.mode == ChatMode && c.request.message == e.message.text
    ensures c.Enqueue? ==> ChatKeyText(e.source).Some? && c.request.chatId == sha256Hex(ChatKeyText(e.source).value)
  {
    if !e.MessageEvent? then BadRequest
    else
      match ChatKeyText(e.source)
      case None => HashFailed
      case Some(key) =>
        if !e.message.TextMessage? then BadRequest
        else
          Enqueue(ChatRequest(
            messageId := e.message.id,
            chatId := sha256Hex(key),
            userId := UserId(e.source),
            groupId := GroupId(e.source),
            replyToken := e.replyToken,
            timestampSecond := RoundSeconds(e.timestamp),
            timestamp := e.timestamp,
            message := e.message.text,
            mode := ChatMode))
  }

  /** A text message from a source with a chat key is enqueued, with every field of the record taken from the event. */
  lemma TextMessageEnqueued(replyToken: string, source: Source, timestamp: int, id: string, text: string,
                            sha256Hex: string -> string)
    requires ChatKeyText(source).Some?
    ensures Classify(MessageEvent(replyToken, source, timestamp, TextMessage(id, text)), sha256Hex) ==
      Enqueue(ChatRequest(id, sha256Hex(ChatKeyText(source).value), UserId(source), GroupId(source),
                          replyToken, (timestamp + 500) / 1000, timestamp, text, ChatMode))
  {
    RoundSecondsInteger(timestamp);
  }

  /** An event that is not a message is a bad request, whatever its source. */
  lemma NonMessageRejected(kind: string, sha256Hex: string -> string)
    ensures Classify(OtherEvent(kind), sha256Hex) == BadRequest
  {
  }

  /** A message that is not text is a bad request, once its chat id could be derived. */
  lemma NonTextRejected(replyToken: string, source: Source, timestamp: int, id: string, kind: string,
                        sha256Hex: string -> string)
    ensures Classify(MessageEvent(replyToken, source, timestamp, OtherMessage(id, kind)), sha256Hex) ==
      if ChatKeyText(source).None? then HashFailed else BadRequest
  {
  }

  /** The outcome of sending to the queue: a response with its HTTP status (possibly absent), or an error. */
  datatype SendResult = SendStatus(code: Option<int>) | SendFailed

  /** What the outside world observes of one event. */
  datatype Effect =
    | SendAttempted(body: Json)                  // a message handed to the queue's send call, which may still fail
    | Replied(replyToken: string, text: string)  // a reply sent through the LINE client

  /** How the event handler's promise settles. */
  datatype EventResult =
    | Answered(statusCode: int, body: string)  // resolved with a response object
    | Settled                                  // resolved with nothing
    | Rejected                                 // rejected

  /**
   * The outcomes of the foreign calls. `sqs(i)` and `replyOk(i)` answer the
   * calls made for the `i`-th event of the request.
   */
  datatype Io = Io(
    validSignature: (string, string) -> bool,
    parse: string -> Option<seq<WebhookEvent>>,
    sha256Hex: string -> string,
    sqs: nat -> SendResult,
    replyOk: nat -> bool)

  /** The HTTP request API Gateway delivers. */
  datatype HttpRequest = HttpRequest(headers: map<string, string>, body: string)

  /** How the handler ends: a response, or one of the errors it throws. */
  datatype HandlerResult =
    | Response(statusCode: int, body: string)
    | SignatureValidationFailed(signature: string)
    | BodyNotParsed

  /** The effects of the `i`-th event of a request: its send to the queue, then the fallback reply if the queue answered with a status other than 200. */
  function EventEffects(e: WebhookEvent, i: nat, io: Io): seq<Effect>
  {
    match Classify(e, io.sha256Hex)
    case Enqueue(r) =>
      (match io.sqs(i)
       case SendStatus(code) =>
         if code != Some(200) then [SendAttempted(RequestJson(r)), Replied(r.replyToken, FallbackText)]
         else [SendAttempted(RequestJson(r))]
       case SendFailed => [SendAttempted(RequestJson(r))])
    case _ => []
  }

  /** The effects of a list of events, in order; the `k`-th event is event number `first + k`. */
  function AllEffects(events: seq<WebhookEvent>, first: nat, io: Io): seq<Effect>
    decreases |events|
  {
    if events == [] then [] else EventEffects(events[0], first, io) + AllEffects(events[1..], first + 1, io)
  }

  /**
   * The event handler for the `i`-th event: classify it, put its record on
   * the queue, and reply with the fallback text when the queue's status is not
   * 200. A failed send is caught and logged; a failed fallback reply is not,
   * because it is returned without being awaited.
   */
  method HandleEvent(e: WebhookEvent, i: nat, io: Io) returns (result: EventResult, effects: seq<Effect>)
    ensures effects == EventEffects(e, i, io)
    ensures result == Answered(400, "Bad Request") <==> Classify(e, io.sha256Hex) == BadRequest
    ensures result == Rejected <==>
      Classify(e, io.sha256Hex).HashFailed? ||
      (Classify(e, io.sha256Hex).Enqueue? && io.sqs(i).SendStatus? && io.sqs(i).code != Some(200) && !io.replyOk(i))
  {
    var classified := Classify(e, io.sha256Hex);
    if classified.BadRequest? {
      return Answered(400, "Bad Request"), [];
    }
    if classified.HashFailed? {
      return Rejected, [];
    }
    var request := classified.request;
    effects := [SendAttempted(RequestJson(request))];
    var output := io.sqs(i);
    if output.SendFailed? {
      return Settled, effects;
    }
    if output.code != Some(200) {
      effects := effects + [Replied(request.replyToken, FallbackText)];
      result := if io.replyOk(i) then Settled else Rejected;
      return;
    }
    result := Settled;
  }

  /**
   * The handler: check the signature before anything else, parse the body,
   * run the event handler for every event, and answer 202 whatever the events'
   * outcomes were: a rejection among them is caught and its value discarded.
   */
  method Handle(request: HttpRequest, io: Io) returns (result: HandlerResult, effects: seq<Effect>)
    ensures !io.validSignature(request.body, LineSignature(request.headers)) ==>
      result == SignatureValidationFailed(LineSignature(request.headers)) && effects == []
    ensures io.validSignature(request.body, LineSignature(request.headers)) && io.parse(request.body).None? ==>
      result == BodyNotParsed && effects == []
    ensures result == Response(202, "Accepted") <==>
      io.validSignature(request.body, LineSignature(request.headers)) && io.parse(request.body).Some?
    ensures result.Response? ==> effects == AllEffects(io.parse(request.body).value, 0, io)
  {
    var signature := LineSignature(request.headers);
    if !io.validSignature(request.body, signature) {
      return SignatureValidationFailed(signature), [];
    }
    var parsed := io.parse(request.body);
    if parsed.None? {
      return BodyNotParsed, [];
    }
    effects := HandleEvents(parsed.value, io);
    result := Response(202, "Accepted");
  }

  /**
   * `Promise.all` over the events: the event handler runs for each event, and
   * the effects are every event's effects, event by event.
   */
  method HandleEvents(events: seq<WebhookEvent>, io: Io) returns (effects: seq<Effect>)
    ensures effects == AllEffects(events, 0, io)
  {
    effects := [];
    var i := 0;
    while i < |events|
      invariant 0 <= i <= |events|
      invariant effects + AllEffects(events[i..], i, io) == AllEffects(events, 0, io)
    {
      var _, eventEffects := HandleEvent(events[i], i, io);
      AllEffectsStep(events, i, io);
      effects := effects + eventEffects;
      i := i + 1;
    }
    assert events[i..] == [];
  }

  lemma AllEffectsStep(events: seq<WebhookEvent>, i: nat, io: Io)
    requires i < |events|
    ensures AllEffects(events[i..], i, io) == EventEffects(events[i], i, io) + AllEffects(events[i + 1..], i + 1, io)
  {
    assert events[i..][1..] == events[i + 1..];
  }

  /** What is sent to the queue: every body handed to the send call is the record of a text message of the request, mode "chat". */
  lemma {:induction false} SendsAreChatRequests(events: seq<WebhookEvent>, first: nat, io: Io, k: nat)
    requires k < |AllEffects(events, first, io)| && AllEffects(events, first, io)[k].SendAttempted?
    ensures exists i | 0 <= i < |events| ::
      && events[i].MessageEvent? && events[i].message.TextMessage?
      && Classify(events[i], io.sha256Hex).Enqueue?
      && AllEffects(events, first, io)[k].body == RequestJson(Classify(events[i], io.sha256Hex).request)
      && Classify(events[i], io.sha256Hex).request.mode == ChatMode
    decreases |events|
  {
    var head := EventEffects(events[0], first, io);
    var all := AllEffects(events, first, io);
    assert all == head + AllEffects(events[1..], first + 1, io);
    if k < |head| {
      assert all[k] == head[k];
      assert Classify(events[0], io.sha256Hex).Enqueue?;
    } else {
      assert all[k] == AllEffects(events[1..], first + 1, io)[k - |head|];
      SendsAreChatRequests(events[1..], first + 1, io, k - |head|);
      var i :| 0 <= i < |events[1..]|
        && events[1..][i].MessageEvent? && events[1..][i].message.TextMessage?
        && Classify(events[1..][i], io.sha256Hex).Enqueue?
        && AllEffects(events[1..], first + 1, io)[k - |head|].body == RequestJson(Classify(events[1..][i], io.sha256Hex).request)
        && Classify(events[1..][i], io.sha256Hex).request.mode == ChatMode;
      assert events[1..][i] == events[i + 1];
    }
  }

  /** The number of effects of one kind. */
  function Count(effects: seq<Effect>, replies: bool): nat
  {
    if effects == [] then 0
    else (if effects[0].Replied? == replies then 1 else 0) + Count(effects[1..], replies)
  }

  lemma {:induction false} CountAppend(a: seq<Effect>, b: seq<Effect>, replies: bool)
    ensures Count(a + b, replies) == Count(a, replies) + Count(b, replies)
    decreases |a|
  {
    if a == [] {
      assert a + b == b;
    } else {
      CountAppend(a[1..], b, replies);
      assert (a + b)[1..] == a[1..] + b;
    }
  }

  /**
   * Fallback replies never outnumber sends: each one answers a send of
   * the same event whose status was not 200.
   */
  lemma {:induction false} RepliesFollowSends(events: seq<WebhookEvent>, first: nat, io: Io)
    ensures Count(AllEffects(events, first, io), true) <= Count(AllEffects(events, first, io), false)
    decreases |events|
  {
    if events != [] {
      var head := EventEffects(events[0], first, io);
      var rest := AllEffects(events[1..], first + 1, io);
      RepliesFollowSends(events[1..], first + 1, io);
      CountAppend(head, rest, true);
      CountAppend(head, rest, false);
      if |head| == 2 {
        assert head[1..][1..] == [];
      } else if |head| == 1 {
        assert head[1..] == [];
      }
    }
  }

  /** One event's fallback reply is sent exactly when its record was sent to the queue and the queue's status was not 200. */
  lemma FallbackExactly(e: WebhookEvent, i: nat, io: Io)
    ensures (exists k | 0 <= k < |EventEffects(e, i, io)| :: EventEffects(e, i, io)[k].Replied?) <==>
      Classify(e, io.sha256Hex).Enqueue? && io.sqs(i).SendStatus? && io.sqs(i).code != Some(200)
  {
    var effects := EventEffects(e, i, io);
    if Classify(e, io.sha256Hex).Enqueue? && io.sqs(i).SendStatus? && io.sqs(i).code != Some(200) {
      assert effects[1].Replied?;
    }
  }
}
