/** The shape of what the WhatsApp Cloud API posts to the webhook, the
    dispatch decision both routers take on it, and the GET verification
    handshake both routers answer. */
module Inbound {
  import opened Wrappers

  /** A media sub-object (`audio`, `voice`, `image`, `document`). */
  datatype Media = Media(id: string, url: Option<string>)

  /** One inbound message. `text` is `message.text.body`, `None` when the
      `text` sub-object is absent; each media field is `None` when its
      sub-object is absent. */
  datatype Message = Message(
    from: string,
    timestamp: int,
    kind: string,
    text: Option<string>,
    audio: Option<Media>,
    voice: Option<Media>,
    image: Option<Media>,
    document: Option<Media>)

  datatype ChangeValue = ChangeValue(messages: Option<seq<Message>>)
  datatype Change = Change(value: Option<ChangeValue>)
  datatype Entry = Entry(changes: seq<Change>)
  /** The POST body; `objectName` is its `object` field. A missing `entry`
      or `changes` array reads as empty. */
  datatype WebhookBody = WebhookBody(objectName: Option<string>, entry: seq<Entry>)

  const BUSINESS_ACCOUNT: string := "whatsapp_business_account"

  const OK: nat := 200
  const BAD_REQUEST: nat := 400
  const FORBIDDEN: nat := 403
  const NOT_FOUND: nat := 404
  const SERVER_ERROR: nat := 500

  /** What the POST handler does before looking at the message. */
  datatype Dispatch =
    | NotForUs          // `object` field is not the business account: 404
    | Broken            // `entry[0]`, `changes[0]` or `value` is missing: a TypeError, 500
    | NoMessage         // no `messages` or an empty list: 200 and nothing else
    | Deliver(message: Message)   // only `messages[0]` is processed

  function DispatchOf(body: WebhookBody): (d: Dispatch)
    ensures d.NotForUs? <==> body.objectName != Some(BUSINESS_ACCOUNT)
    ensures d.Broken? <==>
      body.objectName == Some(BUSINESS_ACCOUNT)
      && (body.entry == [] || body.entry[0].changes == [] || body.entry[0].changes[0].value.None?)
    ensures d.Deliver? <==>
      && body.objectName == Some(BUSINESS_ACCOUNT)
      && body.entry != [] && body.entry[0].changes != [] && body.entry[0].changes[0].value.Some?
      && body.entry[0].changes[0].value.value.messages.Some?
      && body.entry[0].changes[0].value.value.messages.value != []
    ensures d.Deliver? ==> d.message == body.entry[0].changes[0].value.value.messages.value[0]
  {
    if body.objectName != Some(BUSINESS_ACCOUNT) then NotForUs
    else if body.entry == [] || body.entry[0].changes == [] then Broken
    else
      match body.entry[0].changes[0].value
      case None => Broken
      case Some(value) =>
        match value.messages
        case Some(messages) => if messages != [] then Deliver(messages[0]) else NoMessage
        case None => NoMessage
  }

  /** The answer to `GET /webhook`. */
  datatype HandshakeReply = HandshakeReply(status: nat, challenge: Option<string>)

  /** Both routers: 400 unless `hub.mode` and `hub.verify_token` are truthy;
      then 200 with the challenge if the mode is `subscribe` and the token
      equals the configured one, 403 otherwise. */
  function Handshake(mode: Option<string>, token: Option<string>, challenge: Option<string>,
                     configured: Option<string>): (r: HandshakeReply)
    ensures r.status == BAD_REQUEST <==> !(IsTruthy(mode) && IsTruthy(token))
    ensures r.status == OK <==>
      IsTruthy(mode) && IsTruthy(token) && mode.value == "subscribe" && configured == token
    ensures r.status in {OK, BAD_REQUEST, FORBIDDEN}
    ensures r.status == OK ==> r.challenge == challenge
    ensures r.status != OK ==> r.challenge.None?
  {
    if IsTruthy(mode) && IsTruthy(token) then
      if mode.value == "subscribe" && token == configured then HandshakeReply(OK, challenge)
      else HandshakeReply(FORBIDDEN, None)
    else
      HandshakeReply(BAD_REQUEST, None)
  }

  /** With no configured token nothing is ever verified. */
  lemma HandshakeNeedsConfiguredToken(mode: Option<string>, token: Option<string>, challenge: Option<string>)
    ensures Handshake(mode, token, challenge, None).status != OK
  {
  }
}
