/** app.js: the self-contained router with its own module-level profile
    store. Text is routed to the onboarding extraction or to the generator;
    audio and voice notes only get an acknowledgement. */
module App {
  import opened Wrappers
  import opened Text
  import opened Onboarding
  import opened Effects
  import opened Generation
  import opened Inbound
  import opened WhatsAppService

  const MEDIA_ACK: string :=
    "He recibido tu nota de voz. Estoy procesando "
    + "el audio para transcribirlo y generar una "
    + "respuesta. Por favor, espera un momento."
  const TEXT_AND_VOICE_ONLY: string :=
    "Lo siento, solo puedo procesar mensajes "
    + "de texto y notas de voz por el momento."

  /** What one POST to the webhook does: the status, the calls made, and
      the profile store afterwards. */
  datatype Outcome = Outcome(status: nat, effects: seq<Effect>, info: map<string, Profile>)

  /** A failed delivery is re-thrown and answered with 500. */
  function StatusAfterSend(delivered: bool): nat {
    if delivered then OK else SERVER_ERROR
  }

  /** The POST webhook handler of app.js, as a function of the store, the
      body and the world's answers. */
  function WebhookOutcome(master: string, info: map<string, Profile>, body: WebhookBody, world: World): Outcome {
    match DispatchOf(body)
    case NotForUs => Outcome(NOT_FOUND, [], info)
    case Broken => Outcome(SERVER_ERROR, [], info)
    case NoMessage => Outcome(OK, [], info)
    case Deliver(m) =>
      if m.kind == "text" then
        match m.text
        case None => Outcome(SERVER_ERROR, [], info)
        case Some(text) =>
          if IsOnboardingText(text) then
            var reply := OnboardingReply(text);
            Outcome(StatusAfterSend(world.deliver(m.from, reply)), [Send(m.from, reply)],
                    StoreProfile(info, m.from, text))
          else
            var g := Respond(master, APP_INDENT, info, text, Some(m.from), world.complete);
            Outcome(StatusAfterSend(world.deliver(m.from, g.reply)), CompletionCalls(g) + [Send(m.from, g.reply)], info)
      else
        var reply := if m.kind == "audio" || m.kind == "voice" then MEDIA_ACK else TEXT_AND_VOICE_ONLY;
        Outcome(StatusAfterSend(world.deliver(m.from, reply)), [Send(m.from, reply)], info)
  }

  class App {
    const masterPrompt: string
    /** `WHATSAPP_VERIFY_TOKEN`. */
    const verifyToken: Option<string>
    /** The module-level `psychologistInfo` map. */
    var psychologistInfo: map<string, Profile>
    /** Every call made to the outside world so far. */
    var effects: seq<Effect>

    constructor (masterPrompt: string, verifyToken: Option<string>)
      ensures this.masterPrompt == masterPrompt && this.verifyToken == verifyToken
      ensures psychologistInfo == map[] && effects == []
    {
      this.masterPrompt := masterPrompt;
      this.verifyToken := verifyToken;
      psychologistInfo := map[];
      effects := [];
    }

    /** `generateResponse(userInput, psychologistId)`. */
    function GenerateResponse(userInput: string, psychologistId: Option<string>,
                              complete: CompletionRequest -> Option<string>): (g: Generation)
      reads this
      ensures g.request.None? <==> AwaitsProfile(psychologistInfo, psychologistId)
      ensures g.request.Some? ==>
        g.request.value == CompletionRequest(SystemPrompt(masterPrompt, APP_INDENT, psychologistInfo, psychologistId),
                                             userInput, MAX_TOKENS)
    {
      Respond(masterPrompt, APP_INDENT, psychologistInfo, userInput, psychologistId, complete)
    }

    /** `handlePsychologistInfo(from, text)`: store the three trimmed
        captures when all three markers match. */
    method HandlePsychologistInfo(from: string, text: string) returns (reply: string)
      modifies this`psychologistInfo
      ensures ExtractProfile(text).Some? ==>
        reply == CONFIRMATION && psychologistInfo == old(psychologistInfo)[from := ExtractProfile(text).value]
      ensures ExtractProfile(text).None? ==>
        reply == FORMAT_INSTRUCTION && psychologistInfo == old(psychologistInfo)
    {
      match ExtractProfile(text)
      case Some(p) =>
        psychologistInfo := psychologistInfo[from := p];
        reply := CONFIRMATION;
      case None =>
        reply := FORMAT_INSTRUCTION;
    }

    /** `sendWhatsAppMessage(to, message)`: one delivery attempt. */
    method SendWhatsAppMessage(to: string, message: string, world: World) returns (delivered: bool)
      modifies this`effects
      ensures effects == old(effects) + [Send(to, message)]
      ensures delivered == world.deliver(to, message)
    {
      var payload := TextPayloadFor(to, message);
      effects := effects + [Send(payload.to, payload.body)];
      delivered := world.deliver(payload.to, payload.body);
    }

    /** `POST /api/whatsapp/webhook`. */
    method PostWebhook(body: WebhookBody, world: World) returns (status: nat)
      modifies this`psychologistInfo, this`effects
      ensures var o := WebhookOutcome(masterPrompt, old(psychologistInfo), body, world);
        status == o.status && effects == old(effects) + o.effects && psychologistInfo == o.info
    {
      var dispatch := DispatchOf(body);
      if dispatch.NotForUs? {
        return NOT_FOUND;
      } else if dispatch.Broken? {
        return SERVER_ERROR;
      } else if dispatch.NoMessage? {
        return OK;
      }
      var m := dispatch.message;
      var reply: string;
      if m.kind == "text" {
        if m.text.None? {
          return SERVER_ERROR;
        }
        var text := m.text.value;
        if IsOnboardingText(text) {
          reply := HandlePsychologistInfo(m.from, text);
        } else {
          var g := GenerateResponse(text, Some(m.from), world.complete);
          effects := effects + CompletionCalls(g);
          reply := g.reply;
        }
      } else if m.kind == "audio" || m.kind == "voice" {
        reply := MEDIA_ACK;
      } else {
        reply := TEXT_AND_VOICE_ONLY;
      }
      var delivered := SendWhatsAppMessage(m.from, reply, world);
      status := StatusAfterSend(delivered);
    }

    /** `GET /api/whatsapp/webhook`. */
    function GetWebhook(mode: Option<string>, token: Option<string>, challenge: Option<string>): (r: HandshakeReply)
      reads this
      ensures r.status == OK <==>
        IsTruthy(mode) && IsTruthy(token) && mode.value == "subscribe" && verifyToken == token
    {
      Handshake(mode, token, challenge, verifyToken)
    }
  }

  // ---------------------------------------------------------------------------
  // Properties of the app.js webhook
  // ---------------------------------------------------------------------------

  /** 404 exactly for another `object`; then nothing is called and nothing
      stored. Every status is 200, 404 or 500. */
  lemma AppStatusCodes(master: string, info: map<string, Profile>, body: WebhookBody, world: World)
    ensures var o := WebhookOutcome(master, info, body, world);
      && o.status in {OK, NOT_FOUND, SERVER_ERROR}
      && (o.status == NOT_FOUND <==> body.objectName != Some(BUSINESS_ACCOUNT))
      && (o.status == NOT_FOUND ==> o.effects == [] && o.info == info)
  {
  }

  /** The store changes only when an onboarding text has all three fields;
      it then gains exactly the extracted profile under the sender, and no
      entry is ever removed. */
  lemma AppStoreChangesOnlyOnProfile(master: string, info: map<string, Profile>, body: WebhookBody, world: World)
    ensures var o := WebhookOutcome(master, info, body, world);
      && info.Keys <= o.info.Keys
      && (o.info != info ==>
            && DispatchOf(body).Deliver?
            && var m := DispatchOf(body).message;
            && m.kind == "text" && m.text.Some? && IsOnboardingText(m.text.value)
            && ExtractProfile(m.text.value).Some?
            && o.info == info[m.from := ExtractProfile(m.text.value).value])
  {
  }

  /** An onboarding text gets the extraction's reply and never reaches the
      generator. */
  lemma AppOnboardingSkipsGenerator(master: string, info: map<string, Profile>, body: WebhookBody, world: World)
    requires DispatchOf(body).Deliver?
    requires var m := DispatchOf(body).message;
      m.kind == "text" && m.text.Some? && IsOnboardingText(m.text.value)
    ensures var m := DispatchOf(body).message;
      WebhookOutcome(master, info, body, world).effects == [Send(m.from, OnboardingReply(m.text.value))]
  {
  }

  /** A sender without a profile who writes anything else receives exactly
      the welcome text, and no completion is requested. */
  lemma AppNewSenderIsWelcomed(master: string, info: map<string, Profile>, body: WebhookBody, world: World)
    requires DispatchOf(body).Deliver?
    requires var m := DispatchOf(body).message;
      m.kind == "text" && m.text.Some? && !IsOnboardingText(m.text.value) && m.from != [] && m.from !in info
    ensures var o := WebhookOutcome(master, info, body, world);
      o.effects == [Send(DispatchOf(body).message.from, WELCOME)] && o.info == info
  {
  }

  /** A sender with a profile gets one completion request whose system
      prompt is the master prompt followed by that profile's block; the
      reply sent is the trimmed content, or the apology. */
  lemma AppKnownSenderIsPersonalised(master: string, info: map<string, Profile>, body: WebhookBody, world: World)
    requires DispatchOf(body).Deliver?
    requires var m := DispatchOf(body).message;
      m.kind == "text" && m.text.Some? && !IsOnboardingText(m.text.value) && m.from != [] && m.from in info
    ensures var m := DispatchOf(body).message;
      var request := CompletionRequest(master + ProfileBlock(APP_INDENT, info[m.from]), m.text.value, MAX_TOKENS);
      var reply := if world.complete(request).Some? then Trim(world.complete(request).value) else APOLOGY;
      WebhookOutcome(master, info, body, world).effects == [Complete(request), Send(m.from, reply)]
  {
  }

  /** Audio and voice notes get only the acknowledgement, any other
      non-text type the fixed refusal; the store is untouched. */
  lemma AppMediaIsOnlyAcknowledged(master: string, info: map<string, Profile>, body: WebhookBody, world: World)
    requires DispatchOf(body).Deliver? && DispatchOf(body).message.kind != "text"
    ensures var m := DispatchOf(body).message;
      var o := WebhookOutcome(master, info, body, world);
      && o.info == info
      && o.effects == [Send(m.from, if m.kind in {"audio", "voice"} then MEDIA_ACK else TEXT_AND_VOICE_ONLY)]
  {
  }

  /** Only `messages[0]` is answered, with one delivery attempt that comes
      last; a failed delivery gives 500. */
  lemma AppOneReplyPerPost(master: string, info: map<string, Profile>, body: WebhookBody, world: World)
    ensures var o := WebhookOutcome(master, info, body, world);
      o.effects == [] || (
        && DispatchOf(body).Deliver?
        && var last := o.effects[|o.effects| - 1];
        && last.Send? && last.to == DispatchOf(body).message.from
        && (o.status == OK <==> world.deliver(last.to, last.body))
        && forall i :: 0 <= i < |o.effects| - 1 ==> !o.effects[i].Send?)
  {
  }
}
