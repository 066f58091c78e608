/** The pure parts of `WhatsAppService`: the inbound message classifier, the
    error-text table, the service's own webhook verification, and the
    payloads `sendMessage` and `sendMessageWithButtons` post. */
module WhatsAppService {
  import opened Wrappers
  import opened Inbound
  import opened Effects

  // ---------------------------------------------------------------------------
  // processIncomingMessage
  // ---------------------------------------------------------------------------

  /** The flattened record `processIncomingMessage` returns. */
  datatype Incoming = Incoming(
    from: string,
    timestamp: int,
    kind: string,
    content: string,
    mediaUrl: Option<string>,
    mediaId: Option<string>)

  const UNSUPPORTED_CONTENT: string := "Tipo de mensaje no soportado"

  /** The media kinds the classifier knows, with their fixed labels. */
  function MediaLabel(kind: string): Option<string> {
    if kind == "audio" then Some("Mensaje de audio")
    else if kind == "voice" then Some("Nota de voz")
    else if kind == "image" then Some("Imagen")
    else if kind == "document" then Some("Documento")
    else None
  }

  /** The sub-object named like the media kind. */
  function MediaOf(m: Message, kind: string): Option<Media> {
    if kind == "audio" then m.audio
    else if kind == "voice" then m.voice
    else if kind == "image" then m.image
    else if kind == "document" then m.document
    else None
  }

  function WithMedia(m: Message, content: string, media: Option<Media>): Option<Incoming> {
    match media
    case Some(x) => Some(Incoming(m.from, m.timestamp, m.kind, content, x.url, Some(x.id)))
    case None => None
  }

  /** `processIncomingMessage(message)`; `None` stands for the TypeError
      thrown when the sub-object the type names is absent. */
  function ProcessIncomingMessage(m: Message): (r: Option<Incoming>)
    ensures r.None? <==>
      (m.kind == "text" && m.text.None?) || (MediaLabel(m.kind).Some? && MediaOf(m, m.kind).None?)
    ensures r.Some? ==> r.value.from == m.from && r.value.timestamp == m.timestamp && r.value.kind == m.kind
    ensures r.Some? && m.kind == "text" ==>
      r.value.content == m.text.value && r.value.mediaUrl.None? && r.value.mediaId.None?
    ensures r.Some? && MediaLabel(m.kind).Some? ==>
      && r.value.content == MediaLabel(m.kind).value
      && r.value.mediaUrl == MediaOf(m, m.kind).value.url
      && r.value.mediaId == Some(MediaOf(m, m.kind).value.id)
    ensures m.kind != "text" && MediaLabel(m.kind).None? ==>
      r == Some(Incoming(m.from, m.timestamp, m.kind, UNSUPPORTED_CONTENT, None, None))
  {
    match m.kind
    case "text" =>
      (match m.text
       case Some(body) => Some(Incoming(m.from, m.timestamp, m.kind, body, None, None))
       case None => None)
    case "audio" => WithMedia(m, "Mensaje de audio", m.audio)
    case "voice" => WithMedia(m, "Nota de voz", m.voice)
    case "image" => WithMedia(m, "Imagen", m.image)
    case "document" => WithMedia(m, "Documento", m.document)
    case _ => Some(Incoming(m.from, m.timestamp, m.kind, UNSUPPORTED_CONTENT, None, None))
  }

  /** The labels tell the media kinds apart. */
  lemma MediaLabelsAreDistinct(k1: string, k2: string)
    requires MediaLabel(k1).Some? && MediaLabel(k1) == MediaLabel(k2)
    ensures k1 == k2
  {
  }

  // ---------------------------------------------------------------------------
  // sendErrorMessage: the text chosen for an error type
  // ---------------------------------------------------------------------------

  const ERROR_GENERAL: string :=
    "Lo siento, hubo un error procesando tu mensaje. "
    + "Por favor, intenta de nuevo."
  const ERROR_AUDIO: string :=
    "No pude entender el audio. Por favor, intenta "
    + "grabar de nuevo o envía un mensaje de texto."
  const ERROR_TIMEOUT: string :=
    "La solicitud tardó demasiado. Por favor, "
    + "intenta de nuevo."
  const ERROR_UNSUPPORTED: string :=
    "Este tipo de mensaje no está soportado. "
    + "Por favor, envía texto o una nota de voz."

  /** The own properties of the `errorMessages` object literal. */
  const ERROR_MESSAGES: map<string, string> :=
    map["general" := ERROR_GENERAL, "audio" := ERROR_AUDIO, "timeout" := ERROR_TIMEOUT,
        "unsupported" := ERROR_UNSUPPORTED]

  /** The methods every object literal inherits from `Object.prototype`. */
  const INHERITED_METHODS: set<string> :=
    {"constructor", "hasOwnProperty", "isPrototypeOf", "propertyIsEnumerable", "toLocaleString",
     "toString", "valueOf", "__defineGetter__", "__defineSetter__", "__lookupGetter__",
     "__lookupSetter__"}

  /** The JavaScript values a property read on the table can produce. */
  datatype JsValue = JsString(s: string) | JsFunction(name: string) | JsObject | JsUndefined

  predicate JsTruthy(v: JsValue) {
    match v
    case JsString(s) => s != []
    case JsUndefined => false
    case _ => true
  }

  /** `errorMessages[key]`: own properties first, then the prototype chain
      (`__proto__` reads the prototype object itself). */
  function TableRead(key: string): JsValue {
    if key in ERROR_MESSAGES then JsString(ERROR_MESSAGES[key])
    else if key == "__proto__" then JsObject
    else if key in INHERITED_METHODS then JsFunction(key)
    else JsUndefined
  }

  /** The key looked up; an omitted error type defaults to `general`. */
  function ErrorKey(errorType: Option<string>): string {
    if errorType.Some? then errorType.value else "general"
  }

  /** As written: `errorMessages[errorType] || errorMessages.general`. */
  function ErrorMessageAsWritten(errorType: Option<string>): (v: JsValue)
    ensures JsTruthy(v)
  {
    var found := TableRead(ErrorKey(errorType));
    if JsTruthy(found) then found else JsString(ERROR_GENERAL)
  }

  /** As intended: the mapped text for the four keys of the table, the
      general text for every other key. */
  function ErrorMessageFor(errorType: Option<string>): (r: string)
    ensures ErrorKey(errorType) in ERROR_MESSAGES ==> r == ERROR_MESSAGES[ErrorKey(errorType)]
    ensures ErrorKey(errorType) !in ERROR_MESSAGES ==> r == ERROR_GENERAL
    ensures r in ERROR_MESSAGES.Values
  {
    var key := ErrorKey(errorType);
    assert "general" in ERROR_MESSAGES;
    if key in ERROR_MESSAGES then ERROR_MESSAGES[key] else ERROR_MESSAGES["general"]
  }

  /** The lookup as written agrees with the intended one except on the
      names inherited from `Object.prototype`. */
  lemma ErrorLookupAgreesOffPrototype(errorType: Option<string>)
    requires ErrorKey(errorType) !in INHERITED_METHODS && ErrorKey(errorType) != "__proto__"
    ensures ErrorMessageAsWritten(errorType) == JsString(ErrorMessageFor(errorType))
  {
  }

  /** The error type `toString` makes the lookup as written yield a
      function instead of the general text. */
  lemma ErrorLookupHitsPrototype()
    ensures ErrorMessageAsWritten(Some("toString")) == JsFunction("toString")
    ensures ErrorMessageFor(Some("toString")) == ERROR_GENERAL
  {
    assert "toString" !in ERROR_MESSAGES;
  }

  // ---------------------------------------------------------------------------
  // verifyWebhook
  // ---------------------------------------------------------------------------

  datatype Verification = Verified(challenge: Option<string>) | Rejected(reason: string)

  const INVALID_TOKEN: string := "Token de verificación inválido"

  /** As written: `mode === 'subscribe' && token === process.env.WHATSAPP_VERIFY_TOKEN`. */
  function VerifyWebhookAsWritten(mode: Option<string>, token: Option<string>, challenge: Option<string>,
                                  configured: Option<string>): Verification
  {
    if mode == Some("subscribe") && token == configured then Verified(challenge) else Rejected(INVALID_TOKEN)
  }

  /** As intended: a present token is required, as the routers' own GET
      handlers require it. */
  function VerifyWebhook(mode: Option<string>, token: Option<string>, challenge: Option<string>,
                         configured: Option<string>): (r: Verification)
    ensures r.Verified? <==> Handshake(mode, token, challenge, configured).status == OK
    ensures r.Verified? ==> r.challenge == challenge
    ensures r.Rejected? ==> r.reason == INVALID_TOKEN
  {
    if mode == Some("subscribe") && IsTruthy(token) && token == configured then Verified(challenge)
    else Rejected(INVALID_TOKEN)
  }

  /** With no token configured, the check as written verifies a request that
      carries no token at all. */
  lemma VerifyAsWrittenAcceptsMissingToken(challenge: Option<string>)
    ensures VerifyWebhookAsWritten(Some("subscribe"), None, challenge, None) == Verified(challenge)
    ensures VerifyWebhook(Some("subscribe"), None, challenge, None).Rejected?
  {
  }

  /** Whenever the request carries a non-empty token, both agree. */
  lemma VerifyAgreesOnPresentToken(mode: Option<string>, token: Option<string>, challenge: Option<string>,
                                   configured: Option<string>)
    requires IsTruthy(token)
    ensures VerifyWebhookAsWritten(mode, token, challenge, configured) == VerifyWebhook(mode, token, challenge, configured)
  {
  }

  // ---------------------------------------------------------------------------
  // Payloads of sendMessage and sendMessageWithButtons
  // ---------------------------------------------------------------------------

  /** The text-message body posted to the Graph API. */
  datatype TextPayload = TextPayload(messagingProduct: string, to: string, kind: string, body: string)

  /** The payload `sendMessage` and app.js's `sendWhatsAppMessage` post:
      a WhatsApp `text` message to the recipient whose body is the message. */
  function TextPayloadFor(to: string, message: string): (p: TextPayload)
    ensures p.messagingProduct == "whatsapp" && p.kind == "text"
    ensures p.to == to && p.body == message
  {
    TextPayload("whatsapp", to, "text", message)
  }

  const SEND_ERROR_PREFIX: string := "Error enviando mensaje: "

  /** The message of the Error `sendMessage` re-throws: the prefix, then the
      API's error message when it is truthy, else the HTTP client's own
      error message. */
  function SendErrorText(f: SendFailure): (r: string)
    ensures SEND_ERROR_PREFIX <= r
    ensures r[|SEND_ERROR_PREFIX|..] == if IsTruthy(f.apiMessage) then f.apiMessage.value else f.errorMessage
  {
    SEND_ERROR_PREFIX + (if IsTruthy(f.apiMessage) then f.apiMessage.value else f.errorMessage)
  }

  /** One reply button of an interactive message. */
  datatype ButtonReply = ButtonReply(kind: string, id: string, title: string)

  const BUTTON_ID_PREFIX: string := "btn_"

  predicate IsDigits(s: string) {
    forall k :: 0 <= k < |s| ==> '0' <= s[k] <= '9'
  }

  /** The decimal numeral of `n`, as a template literal prints it. */
  function DecimalString(n: nat): (s: string)
    ensures s != [] && IsDigits(s)
    decreases n
  {
    if n < 10 then [('0' as int + n) as char]
    else DecimalString(n / 10) + [('0' as int + n % 10) as char]
  }

  /** The value of a decimal numeral. */
  function ParseDecimal(s: string): nat
    requires IsDigits(s)
    decreases |s|
  {
    if s == [] then 0
    else ParseDecimal(s[..|s| - 1]) * 10 + (s[|s| - 1] as int - '0' as int)
  }

  lemma {:induction false} DecimalRoundTrip(n: nat)
    ensures ParseDecimal(DecimalString(n)) == n
    decreases n
  {
    var s := DecimalString(n);
    if n >= 10 {
      DecimalRoundTrip(n / 10);
      assert s[..|s| - 1] == DecimalString(n / 10);
    }
  }

  /** `buttons.map((button, index) => ...)`: button `i` becomes a reply with
      id `btn_i` and the button's title. */
  function ButtonPayload(titles: seq<string>): (r: seq<ButtonReply>)
    ensures |r| == |titles|
    ensures forall i :: 0 <= i < |r| ==> r[i].kind == "reply" && r[i].title == titles[i]
  {
    seq(|titles|, i requires 0 <= i < |titles| => ButtonReply("reply", BUTTON_ID_PREFIX + DecimalString(i), titles[i]))
  }

  /** The position a button id stands for. */
  function ButtonIndex(id: string): Option<nat> {
    if BUTTON_ID_PREFIX <= id && IsDigits(id[|BUTTON_ID_PREFIX|..]) then
      Some(ParseDecimal(id[|BUTTON_ID_PREFIX|..]))
    else
      None
  }

  /** Each id names its button's position, so the ids are pairwise distinct. */
  lemma ButtonIdsIdentifyPositions(titles: seq<string>, i: nat, j: nat)
    requires i < |titles| && j < |titles|
    ensures ButtonIndex(ButtonPayload(titles)[i].id) == Some(i)
    ensures i != j ==> ButtonPayload(titles)[i].id != ButtonPayload(titles)[j].id
  {
    var r := ButtonPayload(titles);
    assert r[i].id[|BUTTON_ID_PREFIX|..] == DecimalString(i);
    assert r[j].id[|BUTTON_ID_PREFIX|..] == DecimalString(j);
    DecimalRoundTrip(i);
    DecimalRoundTrip(j);
  }
}
