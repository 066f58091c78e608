/** api/whatsapp.js: the router that delegates to `AIService` and
    `WhatsAppService`, transcribes audio and voice notes, and logs each
    answered turn to the sender's conversation document. */
module WhatsAppRoute {
  import opened Wrappers
  import opened Text
  import opened Onboarding
  import opened Effects
  import opened Generation
  import opened Inbound
  import opened ConversationModel
  import opened AiService
  import opened WhatsAppService

  const TEXT_FAILURE: string :=
    "Lo siento, hubo un error procesando tu mensaje. "
    + "Por favor, intenta de nuevo."
  const MEDIA_FAILURE: string :=
    "Lo siento, hubo un error procesando tu nota "
    + "de voz. Por favor, intenta de nuevo."
  const AUDIO_NOT_UNDERSTOOD: string :=
    "No pude entender el audio. Por favor, intenta "
    + "grabar de nuevo o envía un mensaje de texto."
  const VOICE_NOT_UNDERSTOOD: string :=
    "No pude entender la nota de voz. Por favor, "
    + "intenta grabar de nuevo o envía un mensaje de texto."
  const UNSUPPORTED_REPLY: string :=
    "Lo siento, solo puedo procesar mensajes "
    + "de texto y notas de voz por el momento."

  /** The reply to a transcript that came back empty. */
  function NotUnderstood(kind: string): string {
    if kind == "audio" then AUDIO_NOT_UNDERSTOOD else VOICE_NOT_UNDERSTOOD
  }

  // ---------------------------------------------------------------------------
  // saveMessageToDatabase
  // ---------------------------------------------------------------------------

  /** The conversation collection: documents keyed by `psychologistId`,
      each one valid. */
  predicate DbValid(db: map<string, ConversationRecord>) {
    forall id :: id in db ==> db[id].psychologistId == id && ValidRecord(db[id])
  }

  /** The collection after `saveMessageToDatabase(from, kind, input,
      response, timestamp)`: with a database configured and reachable, the
      turn (timestamp in seconds, stored in milliseconds) is appended to the
      sender's document, created empty if missing, and the document is
      saved if the schema accepts it; every failure leaves the collection
      as it was. */
  function LogTurn(configured: bool, db: map<string, ConversationRecord>, from: string, kind: string,
                   input: string, response: string, timestamp: int, world: World): map<string, ConversationRecord>
  {
    if !configured || !world.dbReachable then db
    else
      var found := if from in db then db[from] else ConversationRecord(from, [], world.now, world.now);
      var edited := found.(messages := found.messages + [Turn(kind, input, response, timestamp * 1000)]);
      if ValidRecord(edited) then db[from := edited.(updatedAt := world.now)] else db
  }

  /** The log is append-only: it stays valid, other senders' documents are
      untouched, and the sender's earlier turns are kept in order with at
      most the new turn after them. The turn is stored exactly when the
      database is configured and reachable and the schema accepts it. */
  lemma LogTurnAppends(configured: bool, db: map<string, ConversationRecord>, from: string, kind: string,
                       input: string, response: string, timestamp: int, world: World)
    requires DbValid(db)
    ensures var after := LogTurn(configured, db, from, kind, input, response, timestamp, world);
      && DbValid(after)
      && db.Keys <= after.Keys
      && (forall id :: id in db && id != from ==> after[id] == db[id])
      && (after != db <==>
            configured && world.dbReachable && from != [] && ValidTurn(Turn(kind, input, response, timestamp * 1000)))
      && (after != db ==>
            && configured && world.dbReachable && from in after
            && after[from].messages
               == (if from in db then db[from].messages else []) + [Turn(kind, input, response, timestamp * 1000)]
            && after[from].updatedAt == world.now)
      && (!configured ==> after == db)
  {
    var after := LogTurn(configured, db, from, kind, input, response, timestamp, world);
    if configured && world.dbReachable {
      var found := if from in db then db[from] else ConversationRecord(from, [], world.now, world.now);
      var edited := found.(messages := found.messages + [Turn(kind, input, response, timestamp * 1000)]);
      var t := Turn(kind, input, response, timestamp * 1000);
      assert edited.messages[|edited.messages| - 1] == t;
      assert from in db ==> db[from].psychologistId == from;
      if ValidRecord(edited) {
        assert after == db[from := edited.(updatedAt := world.now)];
        assert |after[from].messages| > |Prior(db, from)|;
        forall id | id in after ensures after[id].psychologistId == id && ValidRecord(after[id]) {
          if id == from {
            assert ValidRecord(edited.(updatedAt := world.now));
          }
        }
      }
    }
  }

  /** A turn the schema refuses is never stored: an empty input or
      response, or an empty sender id. */
  lemma LogTurnRefusesInvalid(configured: bool, db: map<string, ConversationRecord>, from: string, kind: string,
                              input: string, response: string, timestamp: int, world: World)
    requires DbValid(db)
    requires from == [] || input == [] || response == [] || kind !in TURN_KINDS
    ensures LogTurn(configured, db, from, kind, input, response, timestamp, world) == db
  {
    var found := if from in db then db[from] else ConversationRecord(from, [], world.now, world.now);
    var t := Turn(kind, input, response, timestamp * 1000);
    var edited := found.(messages := found.messages + [t]);
    assert edited.messages[|edited.messages| - 1] == t;
    assert from in db ==> db[from].psychologistId == from;
  }

  // ---------------------------------------------------------------------------
  // The handlers, as functions of the state they read
  // ---------------------------------------------------------------------------

  /** What a handler did: the calls it made, the profile store and the
      collection afterwards, and whether it threw (its error message could
      not be delivered either). */
  datatype Step = Step(effects: seq<Effect>, info: map<string, Profile>, db: map<string, ConversationRecord>,
                       threw: bool)

  /** A handler's `catch`: one attempt to send its fixed error message. */
  function Recover(effects: seq<Effect>, info: map<string, Profile>, db: map<string, ConversationRecord>,
                   from: string, failure: string, world: World): Step {
    Step(effects + [Send(from, failure)], info, db, !world.deliver(from, failure))
  }

  /** The tail both handlers share: generate a reply for `input` (with the
      given sender id), then deliver it. */
  function AnswerStep(master: string, info: map<string, Profile>, configured: bool, db: map<string, ConversationRecord>,
                      from: string, input: string, id: Option<string>, logKind: string, failure: string,
                      timestamp: int, world: World): Step {
    ReplyStep(info, configured, db, from, input, Respond(master, SERVICE_INDENT, info, input, id, world.complete),
              logKind, failure, timestamp, world)
  }

  /** Send a generated reply after its completion call, and log the turn
      once the reply is delivered. */
  function ReplyStep(info: map<string, Profile>, configured: bool, db: map<string, ConversationRecord>,
                     from: string, input: string, g: Generation, logKind: string, failure: string,
                     timestamp: int, world: World): Step {
    var sent := CompletionCalls(g) + [Send(from, g.reply)];
    if world.deliver(from, g.reply) then
      Step(sent, info, LogTurn(configured, db, from, logKind, input, g.reply, timestamp, world), false)
    else
      Recover(sent, info, db, from, failure, world)
  }

  /** The onboarding branch of `handleTextMessage`: extract, store, reply,
      and return before any generation or logging. */
  function OnboardingStep(info: map<string, Profile>, db: map<string, ConversationRecord>, from: string, text: string,
                          world: World): Step {
    var reply := OnboardingReply(text);
    var stored := StoreProfile(info, from, text);
    if world.deliver(from, reply) then Step([Send(from, reply)], stored, db, false)
    else Recover([Send(from, reply)], stored, db, from, TEXT_FAILURE, world)
  }

  /** `handleTextMessage(from, text, timestamp)`. */
  function TextStep(master: string, info: map<string, Profile>, configured: bool, db: map<string, ConversationRecord>,
                    from: string, text: string, timestamp: int, world: World): Step {
    if IsOnboardingText(text) then OnboardingStep(info, db, from, text, world)
    else AnswerStep(master, info, configured, db, from, text, Some(from), "text", TEXT_FAILURE, timestamp, world)
  }

  /** What the audio and voice handlers do with a transcript: a falsy one
      gets the fixed "could not understand" reply; any other is answered
      without a sender id and logged as `voice`. */
  function TranscriptStep(master: string, info: map<string, Profile>, configured: bool,
                          db: map<string, ConversationRecord>, from: string, kind: string,
                          transcript: Option<string>, timestamp: int, world: World): Step {
    if !IsTruthy(transcript) then
      var sorry := NotUnderstood(kind);
      if world.deliver(from, sorry) then Step([Send(from, sorry)], info, db, false)
      else Recover([Send(from, sorry)], info, db, from, MEDIA_FAILURE, world)
    else
      AnswerStep(master, info, configured, db, from, transcript.value, None, "voice", MEDIA_FAILURE, timestamp, world)
  }

  /** A step preceded by calls made before it. */
  function After(before: seq<Effect>, s: Step): Step {
    s.(effects := before + s.effects)
  }

  /** `handleAudioMessage` (kind `audio`) and `handleVoiceMessage` (kind
      `voice`): download, transcribe, then answer. A missing media object
      fails on its first field access; a failed download throws. */
  function MediaStep(master: string, info: map<string, Profile>, configured: bool, db: map<string, ConversationRecord>,
                     from: string, kind: string, media: Option<Media>, timestamp: int, world: World): (s: Step)
    ensures s.info == info
  {
    match media
    case None => Recover([], info, db, from, MEDIA_FAILURE, world)
    case Some(x) =>
      match world.download(x.id)
      case None => Recover([Download(x.id)], info, db, from, MEDIA_FAILURE, world)
      case Some(file) =>
        After([Download(x.id), Transcribe(file)],
              TranscriptStep(master, info, configured, db, from, kind, world.transcribe(file), timestamp, world))
  }

  /** What one POST to the webhook does. */
  datatype Outcome = Outcome(status: nat, effects: seq<Effect>, info: map<string, Profile>,
                             db: map<string, ConversationRecord>)

  function Finish(s: Step): Outcome {
    Outcome(if s.threw then SERVER_ERROR else OK, s.effects, s.info, s.db)
  }

  /** One delivered message, by kind: text (one without its `text` object
      fails on its first field access), audio, voice, or anything else,
      which gets the fixed "text and voice notes only" reply. */
  function MessageStep(master: string, info: map<string, Profile>, configured: bool,
                       db: map<string, ConversationRecord>, m: Message, world: World): Step {
    if m.kind == "text" then
      match m.text
      case None => Step([], info, db, true)
      case Some(text) => TextStep(master, info, configured, db, m.from, text, m.timestamp, world)
    else if m.kind == "audio" then
      MediaStep(master, info, configured, db, m.from, "audio", m.audio, m.timestamp, world)
    else if m.kind == "voice" then
      MediaStep(master, info, configured, db, m.from, "voice", m.voice, m.timestamp, world)
    else
      Step([Send(m.from, UNSUPPORTED_REPLY)], info, db, !world.deliver(m.from, UNSUPPORTED_REPLY))
  }

  /** The POST webhook handler of api/whatsapp.js. */
  function WebhookOutcome(master: string, info: map<string, Profile>, configured: bool,
                          db: map<string, ConversationRecord>, body: WebhookBody, world: World): Outcome {
    match DispatchOf(body)
    case NotForUs => Outcome(NOT_FOUND, [], info, db)
    case Broken => Outcome(SERVER_ERROR, [], info, db)
    case NoMessage => Outcome(OK, [], info, db)
    case Deliver(m) => Finish(MessageStep(master, info, configured, db, m, world))
  }

  // ---------------------------------------------------------------------------
  // The router
  // ---------------------------------------------------------------------------

  class Router {
    /** The shared `AIService` instance. */
    const ai: AIService
    /** `DATABASE_URL` or `MONGODB_URI` is set. */
    const databaseConfigured: bool
    /** `WHATSAPP_VERIFY_TOKEN`. */
    const verifyToken: Option<string>
    /** Every call made to the outside world so far. */
    var effects: seq<Effect>
    /** The conversation collection. */
    var db: map<string, ConversationRecord>

    predicate Valid()
      reads this
    {
      DbValid(db)
    }

    constructor (ai: AIService, databaseConfigured: bool, verifyToken: Option<string>)
      ensures this.ai == ai && this.databaseConfigured == databaseConfigured && this.verifyToken == verifyToken
      ensures effects == [] && db == map[]
      ensures Valid()
    {
      this.ai := ai;
      this.databaseConfigured := databaseConfigured;
      this.verifyToken := verifyToken;
      effects := [];
      db := map[];
    }

    /** `whatsappService.sendMessage(to, message)`: one delivery attempt. */
    method SendMessage(to: string, message: string, world: World) returns (delivered: bool)
      modifies this`effects
      ensures effects == old(effects) + [Send(to, message)]
      ensures delivered == world.deliver(to, message)
    {
      var payload := TextPayloadFor(to, message);
      effects := effects + [Send(payload.to, payload.body)];
      delivered := world.deliver(payload.to, payload.body);
    }

    /** `handlePsychologistInfo(from, text)`: save the three trimmed
        captures through `AIService` when all three markers match. */
    method HandlePsychologistInfo(from: string, text: string) returns (reply: string)
      modifies ai
      ensures reply == OnboardingReply(text)
      ensures ai.psychologistInfo == StoreProfile(old(ai.psychologistInfo), from, text)
    {
      match ExtractProfile(text)
      case Some(p) =>
        reply := ai.SavePsychologistInfo(from, p.name, p.specialty, p.orientation);
      case None =>
        reply := FORMAT_INSTRUCTION;
    }

    /** `saveMessageToDatabase(from, type, input, response, timestamp)`. */
    method SaveMessageToDatabase(from: string, kind: string, input: string, response: string, timestamp: int,
                                 world: World)
      requires Valid()
      modifies this`db
      ensures db == LogTurn(databaseConfigured, old(db), from, kind, input, response, timestamp, world)
      ensures Valid()
    {
      LogTurnAppends(databaseConfigured, db, from, kind, input, response, timestamp, world);
      if !databaseConfigured || !world.dbReachable {
        return;
      }
      var conversation: Conversation;
      if from in db {
        conversation := new Conversation.Load(db[from]);
      } else {
        conversation := new Conversation(from, world.now);
      }
      conversation.PushMessage(Turn(kind, input, response, timestamp * 1000));
      var stored := conversation.Save(world.now);
      if stored.Some? {
        db := db[from := stored.value];
      }
    }

    /** The `catch` of a handler. */
    method Recover(from: string, failure: string, world: World) returns (threw: bool)
      modifies this`effects
      ensures effects == old(effects) + [Send(from, failure)]
      ensures threw == !world.deliver(from, failure)
    {
      var delivered := SendMessage(from, failure, world);
      threw := !delivered;
    }

    /** Generate, send, and log once delivered; the shared tail of the
        text and media handlers. */
    method Answer(from: string, input: string, id: Option<string>, inputType: string, logKind: string,
                  failure: string, timestamp: int, world: World) returns (threw: bool)
      requires Valid()
      modifies this`effects, this`db
      ensures var s := AnswerStep(ai.masterPrompt, ai.psychologistInfo, databaseConfigured, old(db),
                                  from, input, id, logKind, failure, timestamp, world);
        && effects == old(effects) + s.effects && db == s.db && threw == s.threw
      ensures Valid()
    {
      var g := ai.GenerateResponse(input, inputType, id, world.complete);
      threw := Reply(from, input, g, logKind, failure, timestamp, world);
    }

    /** Record the completion call, send the reply, and log the turn once
        the reply is delivered; on a failed delivery, the `catch`. */
    method Reply(from: string, input: string, g: Generation, logKind: string, failure: string, timestamp: int,
                 world: World) returns (threw: bool)
      requires Valid()
      modifies this`effects, this`db
      ensures var s := ReplyStep(ai.psychologistInfo, databaseConfigured, old(db), from, input, g, logKind, failure,
                                 timestamp, world);
        && effects == old(effects) + s.effects && db == s.db && threw == s.threw
      ensures Valid()
    {
      effects := effects + CompletionCalls(g);
      var delivered := SendMessage(from, g.reply, world);
      if !delivered {
        threw := Recover(from, failure, world);
        return;
      }
      SaveMessageToDatabase(from, logKind, input, g.reply, timestamp, world);
      threw := false;
    }

    /** `handleTextMessage(from, text, timestamp)`. */
    method HandleTextMessage(from: string, text: string, timestamp: int, world: World) returns (threw: bool)
      requires Valid()
      modifies this`effects, this`db, ai
      ensures var s := TextStep(ai.masterPrompt, old(ai.psychologistInfo), databaseConfigured, old(db),
                                from, text, timestamp, world);
        && effects == old(effects) + s.effects && ai.psychologistInfo == s.info && db == s.db && threw == s.threw
      ensures Valid()
    {
      if IsOnboardingText(text) {
        threw := Onboard(from, text, world);
      } else {
        threw := Answer(from, text, Some(from), "text", "text", TEXT_FAILURE, timestamp, world);
      }
    }

    /** The onboarding branch of `handleTextMessage`. */
    method Onboard(from: string, text: string, world: World) returns (threw: bool)
      modifies this`effects, ai
      ensures var s := OnboardingStep(old(ai.psychologistInfo), db, from, text, world);
        && effects == old(effects) + s.effects && ai.psychologistInfo == s.info && threw == s.threw
    {
      var reply := HandlePsychologistInfo(from, text);
      var delivered := SendMessage(from, reply, world);
      threw := false;
      if !delivered {
        threw := Recover(from, TEXT_FAILURE, world);
      }
    }

    /** What the audio and voice handlers do once the transcript is back. */
    method AnswerTranscript(from: string, kind: string, transcript: Option<string>, timestamp: int, world: World)
      returns (threw: bool)
      requires Valid()
      modifies this`effects, this`db
      ensures var s := TranscriptStep(ai.masterPrompt, ai.psychologistInfo, databaseConfigured, old(db),
                                      from, kind, transcript, timestamp, world);
        && effects == old(effects) + s.effects && db == s.db && threw == s.threw
      ensures Valid()
    {
      if !IsTruthy(transcript) {
        var delivered := SendMessage(from, NotUnderstood(kind), world);
        threw := false;
        if !delivered {
          threw := Recover(from, MEDIA_FAILURE, world);
        }
      } else {
        threw := Answer(from, transcript.value, None, "voice", "voice", MEDIA_FAILURE, timestamp, world);
      }
    }

    /** `handleAudioMessage(from, audio, timestamp)` for kind `audio` and
        `handleVoiceMessage(from, voice, timestamp)` for kind `voice`. */
    method HandleMediaMessage(from: string, kind: string, media: Option<Media>, timestamp: int, world: World)
      returns (threw: bool)
      requires Valid()
      modifies this`effects, this`db
      ensures var s := MediaStep(ai.masterPrompt, ai.psychologistInfo, databaseConfigured, old(db),
                                 from, kind, media, timestamp, world);
        && effects == old(effects) + s.effects && db == s.db && threw == s.threw
      ensures Valid()
    {
      if media.None? {
        threw := Recover(from, MEDIA_FAILURE, world);
        return;
      }
      var id := media.value.id;
      effects := effects + [Download(id)];
      var file := world.download(id);
      if file.None? {
        threw := Recover(from, MEDIA_FAILURE, world);
        return;
      }
      effects := effects + [Transcribe(file.value)];
      assert effects == old(effects) + [Download(id), Transcribe(file.value)];
      threw := AnswerTranscript(from, kind, world.transcribe(file.value), timestamp, world);
    }

    /** The branch of `POST /webhook` that hands one message to its handler. */
    method HandleMessage(m: Message, world: World) returns (threw: bool)
      requires Valid()
      modifies this`effects, this`db, ai
      ensures var s := MessageStep(ai.masterPrompt, old(ai.psychologistInfo), databaseConfigured, old(db), m, world);
        && effects == old(effects) + s.effects && ai.psychologistInfo == s.info && db == s.db && threw == s.threw
      ensures Valid()
    {
      if m.kind == "text" {
        if m.text.None? {
          return true;
        }
        threw := HandleTextMessage(m.from, m.text.value, m.timestamp, world);
      } else if m.kind == "audio" {
        threw := HandleMediaMessage(m.from, "audio", m.audio, m.timestamp, world);
      } else if m.kind == "voice" {
        threw := HandleMediaMessage(m.from, "voice", m.voice, m.timestamp, world);
      } else {
        var delivered := SendMessage(m.from, UNSUPPORTED_REPLY, world);
        threw := !delivered;
      }
    }

    /** `POST /webhook`. */
    method PostWebhook(body: WebhookBody, world: World) returns (status: nat)
      requires Valid()
      modifies this`effects, this`db, ai
      ensures var o := WebhookOutcome(ai.masterPrompt, old(ai.psychologistInfo), databaseConfigured, old(db), body, world);
        && status == o.status && effects == old(effects) + o.effects && ai.psychologistInfo == o.info && db == o.db
      ensures Valid()
    {
      var dispatch := DispatchOf(body);
      if dispatch.NotForUs? {
        return NOT_FOUND;
      } else if dispatch.Broken? {
        return SERVER_ERROR;
      } else if dispatch.NoMessage? {
        return OK;
      }
      var threw := HandleMessage(dispatch.message, world);
      status := if threw then SERVER_ERROR else OK;
    }

    /** `GET /webhook`. */
    function GetWebhook(mode: Option<string>, token: Option<string>, challenge: Option<string>): (r: HandshakeReply)
      reads this
      ensures r.status == OK <==>
        IsTruthy(mode) && IsTruthy(token) && mode.value == "subscribe" && verifyToken == token
    {
      Handshake(mode, token, challenge, verifyToken)
    }

    /** `POST /send`: 400 without a truthy `to` and `message`, and then no
        send is attempted; otherwise one send, 200 when it is delivered and
        500 when it fails. The result carries the `message` field of the
        JSON answer; after a failure it is the text of the Error that
        `sendMessage` re-throws. */
    method SendRoute(to: Option<string>, message: Option<string>, world: World) returns (status: nat, answer: string)
      modifies this`effects
      ensures !(IsTruthy(to) && IsTruthy(message)) ==>
        status == BAD_REQUEST && answer == MISSING_PARAMETERS && effects == old(effects)
      ensures IsTruthy(to) && IsTruthy(message) ==>
        && effects == old(effects) + [Send(to.value, message.value)]
        && (world.deliver(to.value, message.value) ==> status == OK && answer == SENT)
        && (!world.deliver(to.value, message.value) ==>
              status == SERVER_ERROR && answer == SendErrorText(world.failure(to.value, message.value)))
    {
      if !IsTruthy(to) || !IsTruthy(message) {
        return BAD_REQUEST, MISSING_PARAMETERS;
      }
      var delivered := SendMessage(to.value, message.value, world);
      if delivered {
        status, answer := OK, SENT;
      } else {
        status, answer := SERVER_ERROR, SendErrorText(world.failure(to.value, message.value));
      }
    }
  }

  /** The `message` field of the 200 and 400 answers of `POST /send`. */
  const SENT: string := "Mensaje enviado correctamente"
  const MISSING_PARAMETERS: string := "Se requiere \"to\" y \"message\""

  /** The `message` field of `POST /send` tells the three outcomes apart:
      a re-thrown send error is neither the success text nor the
      missing-parameters text, whatever the API answered. */
  lemma SendAnswersAreDistinct(f: SendFailure)
    ensures SendErrorText(f) != SENT && SendErrorText(f) != MISSING_PARAMETERS
    ensures SENT != MISSING_PARAMETERS
  {
    var r := SendErrorText(f);
    assert r[0] == SEND_ERROR_PREFIX[0] == 'E';
    assert SENT[0] == 'M' && MISSING_PARAMETERS[0] == 'S';
  }

  // ---------------------------------------------------------------------------
  // Properties of the api/whatsapp.js webhook
  // ---------------------------------------------------------------------------

  /** The sender's turns before a handler ran. */
  function Prior(db: map<string, ConversationRecord>, from: string): seq<Turn> {
    if from in db then db[from].messages else []
  }

  /** What every handler guarantees about the conversation log: it stays
      valid and keeps every document, other senders' documents are
      untouched, and the sender's document changes only by one more turn,
      with a configured and reachable database, whose reply was sent to the
      sender and delivered. */
  predicate LogGrowsByDeliveredTurn(configured: bool, db: map<string, ConversationRecord>, s: Step, from: string,
                                    world: World) {
    && DbValid(s.db) && db.Keys <= s.db.Keys
    && (forall id :: id in db && id != from ==> s.db[id] == db[id])
    && (s.db != db ==>
          && configured && world.dbReachable && from in s.db
          && var turns := s.db[from].messages;
          && turns != [] && turns[..|turns| - 1] == Prior(db, from)
          && Send(from, turns[|turns| - 1].response) in s.effects
          && world.deliver(from, turns[|turns| - 1].response))
  }

  /** The other half: a delivered reply, with the database configured and
      reachable and a turn the schema accepts, is logged: the turn is
      appended to the sender's document, which is created empty if
      missing. */
  predicate LogsAcceptedTurn(configured: bool, db: map<string, ConversationRecord>, s: Step, from: string,
                             turn: Turn, delivered: bool, world: World) {
    delivered && configured && world.dbReachable && from != [] && ValidTurn(turn) ==>
      from in s.db && s.db[from].messages == Prior(db, from) + [turn]
  }

  /** The last call of a handler was a message to the sender, and the
      handler fails exactly when that message could not be delivered. */
  predicate LastIsDeliveryAttempt(s: Step, from: string, world: World) {
    && s.effects != [] && s.effects[|s.effects| - 1].Send? && s.effects[|s.effects| - 1].to == from
    && (s.threw <==> !world.deliver(from, s.effects[|s.effects| - 1].body))
  }

  /** What every handler guarantees about its messages: one or two go out
      (the reply, then at most one error message), the last one is a
      delivery attempt to the sender, and when the handler fails that last
      one was its error message. */
  predicate ReportsFailureOnce(s: Step, from: string, failure: string, world: World) {
    && 1 <= SendCount(s.effects) <= 2
    && LastIsDeliveryAttempt(s, from, world)
    && (s.threw ==> s.effects[|s.effects| - 1].body == failure)
  }

  /** What a handler sends: its reply to the sender; once delivered,
      nothing else goes out and the handler succeeds; once refused, exactly
      one more message goes out, the handler's error message. */
  predicate RepliesThenReports(s: Step, from: string, reply: string, failure: string, world: World) {
    && s.effects != [] && Send(from, reply) in s.effects
    && (world.deliver(from, reply) ==>
          SendCount(s.effects) == 1 && !s.threw && s.effects[|s.effects| - 1] == Send(from, reply))
    && (!world.deliver(from, reply) ==>
          SendCount(s.effects) == 2 && s.effects[|s.effects| - 1] == Send(from, failure))
  }

  /** The reply `handleTextMessage` sends first: the extraction's reply to
      an onboarding text, the generated reply to any other. */
  function TextReply(master: string, info: map<string, Profile>, from: string, text: string, world: World): string {
    if IsOnboardingText(text) then OnboardingReply(text)
    else Respond(master, SERVICE_INDENT, info, text, Some(from), world.complete).reply
  }

  /** The reply sent for a transcript: the fixed one to a falsy transcript,
      the generated one (without a sender id) to any other. */
  function TranscriptReply(master: string, info: map<string, Profile>, kind: string, transcript: Option<string>,
                           world: World): string {
    if !IsTruthy(transcript) then NotUnderstood(kind)
    else Respond(master, SERVICE_INDENT, info, transcript.value, None, world.complete).reply
  }

  lemma SendCountOne(e: Effect)
    ensures SendCount([e]) == if e.Send? then 1 else 0
  {
    assert [e][1..] == [];
  }

  /** Delivering a generated reply keeps the store and logs only a
      delivered reply. */
  lemma ReplyStepLogs(info: map<string, Profile>, configured: bool, db: map<string, ConversationRecord>,
                      from: string, input: string, g: Generation, logKind: string, failure: string,
                      timestamp: int, world: World)
    requires DbValid(db)
    ensures var s := ReplyStep(info, configured, db, from, input, g, logKind, failure, timestamp, world);
      && s.info == info && LogGrowsByDeliveredTurn(configured, db, s, from, world)
      && LogsAcceptedTurn(configured, db, s, from, Turn(logKind, input, g.reply, timestamp * 1000),
                          world.deliver(from, g.reply), world)
  {
    LogTurnAppends(configured, db, from, logKind, input, g.reply, timestamp, world);
    var after := LogTurn(configured, db, from, logKind, input, g.reply, timestamp, world);
    if world.deliver(from, g.reply) && after != db {
      var sent := CompletionCalls(g) + [Send(from, g.reply)];
      assert sent[|sent| - 1] == Send(from, g.reply);
      var turns := after[from].messages;
      assert turns[..|turns| - 1] == Prior(db, from);
    }
  }

  /** Delivering a generated reply reports a failure with one error
      message. */
  lemma ReplyStepReports(info: map<string, Profile>, configured: bool, db: map<string, ConversationRecord>,
                         from: string, input: string, g: Generation, logKind: string, failure: string,
                         timestamp: int, world: World)
    ensures var s := ReplyStep(info, configured, db, from, input, g, logKind, failure, timestamp, world);
      ReportsFailureOnce(s, from, failure, world) && RepliesThenReports(s, from, g.reply, failure, world)
  {
    var sent := CompletionCalls(g) + [Send(from, g.reply)];
    SendCountOne(Send(from, g.reply));
    SendCountOne(Send(from, failure));
    SendCountAppend(CompletionCalls(g), [Send(from, g.reply)]);
    SendCountAppend(sent, [Send(from, failure)]);
  }

  /** A fixed reply, with the error message when it is not delivered. */
  lemma FixedReplyBehaves(configured: bool, info: map<string, Profile>, db: map<string, ConversationRecord>,
                          from: string, reply: string, failure: string, world: World)
    requires DbValid(db)
    ensures var s := if world.deliver(from, reply) then Step([Send(from, reply)], info, db, false)
                     else Recover([Send(from, reply)], info, db, from, failure, world);
      && LogGrowsByDeliveredTurn(configured, db, s, from, world)
      && ReportsFailureOnce(s, from, failure, world)
      && RepliesThenReports(s, from, reply, failure, world)
  {
    SendCountOne(Send(from, reply));
    SendCountOne(Send(from, failure));
    SendCountAppend([Send(from, reply)], [Send(from, failure)]);
  }

  /** `handleTextMessage` changes the store only through the extraction,
      logs only a delivered reply, and reports a failure with one error
      message. */
  lemma TextStepBehaves(master: string, info: map<string, Profile>, configured: bool,
                        db: map<string, ConversationRecord>, from: string, text: string, timestamp: int, world: World)
    requires DbValid(db)
    ensures var s := TextStep(master, info, configured, db, from, text, timestamp, world);
      && s.info == (if IsOnboardingText(text) then StoreProfile(info, from, text) else info)
      && LogGrowsByDeliveredTurn(configured, db, s, from, world)
      && ReportsFailureOnce(s, from, TEXT_FAILURE, world)
      && RepliesThenReports(s, from, TextReply(master, info, from, text, world), TEXT_FAILURE, world)
  {
    if IsOnboardingText(text) {
      FixedReplyBehaves(configured, StoreProfile(info, from, text), db, from, OnboardingReply(text), TEXT_FAILURE, world);
    } else {
      var g := Respond(master, SERVICE_INDENT, info, text, Some(from), world.complete);
      ReplyStepLogs(info, configured, db, from, text, g, "text", TEXT_FAILURE, timestamp, world);
      ReplyStepReports(info, configured, db, from, text, g, "text", TEXT_FAILURE, timestamp, world);
    }
  }

  /** The same for what the audio and voice handlers do with a transcript. */
  lemma TranscriptStepBehaves(master: string, info: map<string, Profile>, configured: bool,
                              db: map<string, ConversationRecord>, from: string, kind: string,
                              transcript: Option<string>, timestamp: int, world: World)
    requires DbValid(db)
    ensures var s := TranscriptStep(master, info, configured, db, from, kind, transcript, timestamp, world);
      && s.info == info
      && LogGrowsByDeliveredTurn(configured, db, s, from, world)
      && ReportsFailureOnce(s, from, MEDIA_FAILURE, world)
      && RepliesThenReports(s, from, TranscriptReply(master, info, kind, transcript, world), MEDIA_FAILURE, world)
  {
    if !IsTruthy(transcript) {
      FixedReplyBehaves(configured, info, db, from, NotUnderstood(kind), MEDIA_FAILURE, world);
    } else {
      var g := Respond(master, SERVICE_INDENT, info, transcript.value, None, world.complete);
      ReplyStepLogs(info, configured, db, from, transcript.value, g, "voice", MEDIA_FAILURE, timestamp, world);
      ReplyStepReports(info, configured, db, from, transcript.value, g, "voice", MEDIA_FAILURE, timestamp, world);
    }
  }

  /** Calls made before a step that sends nothing keep its guarantees. */
  lemma AfterBehaves(configured: bool, db: map<string, ConversationRecord>, before: seq<Effect>, s: Step,
                     from: string, reply: string, failure: string, world: World)
    requires SendCount(before) == 0
    requires LogGrowsByDeliveredTurn(configured, db, s, from, world)
    requires ReportsFailureOnce(s, from, failure, world)
    requires RepliesThenReports(s, from, reply, failure, world)
    ensures LogGrowsByDeliveredTurn(configured, db, After(before, s), from, world)
    ensures ReportsFailureOnce(After(before, s), from, failure, world)
    ensures RepliesThenReports(After(before, s), from, reply, failure, world)
  {
    SendCountAppend(before, s.effects);
    var t := After(before, s);
    if s.db != db {
      var turns := s.db[from].messages;
      var k :| 0 <= k < |s.effects| && s.effects[k] == Send(from, turns[|turns| - 1].response);
      assert t.effects[|before| + k] == s.effects[k];
    }
    assert t.effects[|t.effects| - 1] == s.effects[|s.effects| - 1];
    var k :| 0 <= k < |s.effects| && s.effects[k] == Send(from, reply);
    assert t.effects[|before| + k] == s.effects[k];
  }

  /** The audio and voice handlers keep the store, log only a delivered
      reply, and report a failure with one error message. */
  lemma MediaStepBehaves(master: string, info: map<string, Profile>, configured: bool,
                         db: map<string, ConversationRecord>, from: string, kind: string, media: Option<Media>,
                         timestamp: int, world: World)
    requires DbValid(db)
    ensures var s := MediaStep(master, info, configured, db, from, kind, media, timestamp, world);
      && s.info == info
      && LogGrowsByDeliveredTurn(configured, db, s, from, world)
      && ReportsFailureOnce(s, from, MEDIA_FAILURE, world)
      && (media.None? ==> s.effects == [Send(from, MEDIA_FAILURE)])
      && (media.Some? && world.download(media.value.id).None? ==>
            s.effects == [Download(media.value.id), Send(from, MEDIA_FAILURE)])
      && (media.Some? && world.download(media.value.id).Some? ==>
            var file := world.download(media.value.id).value;
            RepliesThenReports(s, from, TranscriptReply(master, info, kind, world.transcribe(file), world),
                               MEDIA_FAILURE, world))
  {
    SendCountOne(Send(from, MEDIA_FAILURE));
    match media
    case None =>
      assert [] + [Send(from, MEDIA_FAILURE)] == [Send(from, MEDIA_FAILURE)];
    case Some(x) =>
      SendCountOne(Download(x.id));
      match world.download(x.id)
      case None =>
        SendCountAppend([Download(x.id)], [Send(from, MEDIA_FAILURE)]);
      case Some(file) =>
        var before := [Download(x.id), Transcribe(file)];
        SendCountOne(Transcribe(file));
        SendCountAppend([Download(x.id)], [Transcribe(file)]);
        assert [Download(x.id)] + [Transcribe(file)] == before;
        TranscriptStepBehaves(master, info, configured, db, from, kind, world.transcribe(file), timestamp, world);
        AfterBehaves(configured, db, before,
                     TranscriptStep(master, info, configured, db, from, kind, world.transcribe(file), timestamp, world),
                     from, TranscriptReply(master, info, kind, world.transcribe(file), world), MEDIA_FAILURE, world);
  }

  /** One delivered message changes the store only through an onboarding
      text, and the log only by a delivered turn. */
  lemma MessageStepKeepsLog(master: string, info: map<string, Profile>, configured: bool,
                            db: map<string, ConversationRecord>, m: Message, world: World)
    requires DbValid(db)
    ensures var s := MessageStep(master, info, configured, db, m, world);
      && s.info == (if m.kind == "text" && m.text.Some? && IsOnboardingText(m.text.value)
                    then StoreProfile(info, m.from, m.text.value) else info)
      && LogGrowsByDeliveredTurn(configured, db, s, m.from, world)
  {
    if m.kind == "text" {
      if m.text.Some? {
        TextStepBehaves(master, info, configured, db, m.from, m.text.value, m.timestamp, world);
      }
    } else if m.kind == "audio" {
      MediaStepBehaves(master, info, configured, db, m.from, "audio", m.audio, m.timestamp, world);
    } else if m.kind == "voice" {
      MediaStepBehaves(master, info, configured, db, m.from, "voice", m.voice, m.timestamp, world);
    }
  }

  /** For one delivered message at most two messages go out, the last one
      to the sender, and the handler fails exactly when that one was not
      delivered. */
  lemma MessageStepReports(master: string, info: map<string, Profile>, configured: bool,
                           db: map<string, ConversationRecord>, m: Message, world: World)
    requires DbValid(db)
    ensures var s := MessageStep(master, info, configured, db, m, world);
      && SendCount(s.effects) <= 2
      && (s.effects != [] ==> LastIsDeliveryAttempt(s, m.from, world))
  {
    if m.kind == "text" {
      if m.text.Some? {
        TextStepBehaves(master, info, configured, db, m.from, m.text.value, m.timestamp, world);
      }
    } else if m.kind == "audio" {
      MediaStepBehaves(master, info, configured, db, m.from, "audio", m.audio, m.timestamp, world);
    } else if m.kind == "voice" {
      MediaStepBehaves(master, info, configured, db, m.from, "voice", m.voice, m.timestamp, world);
    } else {
      SendCountOne(Send(m.from, UNSUPPORTED_REPLY));
    }
  }

  /** Only a message of type `text` that has no `text` object sends
      nothing: reading `message.text.body` throws before any handler runs,
      so it fails without touching the store or the log. */
  lemma MessageStepSilentOnlyWithoutText(master: string, info: map<string, Profile>, configured: bool,
                                         db: map<string, ConversationRecord>, m: Message, world: World)
    requires DbValid(db)
    ensures var s := MessageStep(master, info, configured, db, m, world);
      && (s.effects == [] <==> m.kind == "text" && m.text.None?)
      && (s.effects == [] ==> s.threw && s.info == info && s.db == db)
  {
    if m.kind == "text" {
      if m.text.Some? {
        TextStepBehaves(master, info, configured, db, m.from, m.text.value, m.timestamp, world);
      }
    } else if m.kind == "audio" {
      MediaStepBehaves(master, info, configured, db, m.from, "audio", m.audio, m.timestamp, world);
    } else if m.kind == "voice" {
      MediaStepBehaves(master, info, configured, db, m.from, "voice", m.voice, m.timestamp, world);
    }
  }

  /** One POST to the webhook: 404 exactly for another `object`, and every
      status is 200, 404 or 500. */
  lemma RouteStatusCodes(master: string, info: map<string, Profile>, configured: bool,
                         db: map<string, ConversationRecord>, body: WebhookBody, world: World)
    ensures var o := WebhookOutcome(master, info, configured, db, body, world);
      && o.status in {OK, NOT_FOUND, SERVER_ERROR}
      && (o.status == NOT_FOUND <==> body.objectName != Some(BUSINESS_ACCOUNT))
  {
  }

  /** One POST to the webhook: the store only grows; the log stays valid,
      only grows, and is never written without a configured database. */
  lemma RouteStateOnlyGrows(master: string, info: map<string, Profile>, configured: bool,
                            db: map<string, ConversationRecord>, body: WebhookBody, world: World)
    requires DbValid(db)
    ensures var o := WebhookOutcome(master, info, configured, db, body, world);
      && info.Keys <= o.info.Keys
      && DbValid(o.db) && db.Keys <= o.db.Keys
      && (!configured ==> o.db == db)
  {
    match DispatchOf(body)
    case Deliver(m) =>
      MessageStepKeepsLog(master, info, configured, db, m, world);
      var s := MessageStep(master, info, configured, db, m, world);
      assert WebhookOutcome(master, info, configured, db, body, world) == Finish(s);
      if s.info != info {
        assert s.info == StoreProfile(info, m.from, m.text.value);
      }
    case _ =>
  }

  /** At most two messages went out; with none, the store and the log
      are as they were; with some, the status is 500 exactly when the last
      one, a message, could not be delivered. */
  predicate ReportsDelivery(o: Outcome, info: map<string, Profile>, db: map<string, ConversationRecord>,
                            world: World) {
    && SendCount(o.effects) <= 2
    && (o.effects == [] ==> o.info == info && o.db == db)
    && (o.effects != [] ==>
          var last := o.effects[|o.effects| - 1];
          last.Send? && (o.status == SERVER_ERROR <==> !world.deliver(last.to, last.body)))
  }

  /** The outcome of one delivered message reports its delivery. */
  lemma MessageOutcomeReports(master: string, info: map<string, Profile>, configured: bool,
                              db: map<string, ConversationRecord>, m: Message, world: World)
    requires DbValid(db)
    ensures ReportsDelivery(Finish(MessageStep(master, info, configured, db, m, world)), info, db, world)
  {
    MessageStepReports(master, info, configured, db, m, world);
    MessageStepSilentOnlyWithoutText(master, info, configured, db, m, world);
  }

  /** One POST to the webhook reports its delivery: at most two messages
      go out, and when any does, the status is 500 exactly when the last
      one could not be delivered. */
  lemma RouteReportsFailure(master: string, info: map<string, Profile>, configured: bool,
                            db: map<string, ConversationRecord>, body: WebhookBody, world: World)
    requires DbValid(db)
    ensures ReportsDelivery(WebhookOutcome(master, info, configured, db, body, world), info, db, world)
  {
    match DispatchOf(body)
    case Deliver(m) =>
      MessageOutcomeReports(master, info, configured, db, m, world);
    case _ =>
  }

  /** An onboarding text gets the extraction's reply (and the text error
      message if that is not delivered) before any generation or logging:
      no completion is requested and the log is untouched. */
  lemma OnboardingSkipsGeneratorAndLog(master: string, info: map<string, Profile>, configured: bool,
                                       db: map<string, ConversationRecord>, from: string, text: string,
                                       timestamp: int, world: World)
    requires IsOnboardingText(text)
    ensures var s := TextStep(master, info, configured, db, from, text, timestamp, world);
      && s.effects[0] == Send(from, OnboardingReply(text))
      && NoCompletion(s.effects)
      && s.db == db
      && s.info == StoreProfile(info, from, text)
  {
  }

  /** A sender without a stored profile whose text is not an onboarding
      text receives exactly the welcome text, with no completion request,
      and the exchange is logged once it is delivered. */
  lemma RouteNewSenderIsWelcomed(master: string, info: map<string, Profile>, configured: bool,
                                 db: map<string, ConversationRecord>, from: string, text: string,
                                 timestamp: int, world: World)
    requires !IsOnboardingText(text) && from != [] && from !in info
    ensures var s := TextStep(master, info, configured, db, from, text, timestamp, world);
      && s.effects[0] == Send(from, WELCOME)
      && NoCompletion(s.effects)
      && (world.deliver(from, WELCOME) ==> s.db == LogTurn(configured, db, from, "text", text, WELCOME, timestamp, world))
  {
  }

  /** A generated answer to a text that is not an onboarding text is
      logged once it is delivered, when the database is configured and
      reachable and the schema accepts the turn. */
  lemma AnsweredTextIsLogged(master: string, info: map<string, Profile>, configured: bool,
                             db: map<string, ConversationRecord>, from: string, text: string,
                             timestamp: int, world: World)
    requires DbValid(db) && !IsOnboardingText(text)
    ensures var g := Respond(master, SERVICE_INDENT, info, text, Some(from), world.complete);
      var s := TextStep(master, info, configured, db, from, text, timestamp, world);
      LogsAcceptedTurn(configured, db, s, from, Turn("text", text, g.reply, timestamp * 1000),
                       world.deliver(from, g.reply), world)
  {
    var g := Respond(master, SERVICE_INDENT, info, text, Some(from), world.complete);
    ReplyStepLogs(info, configured, db, from, text, g, "text", TEXT_FAILURE, timestamp, world);
  }

  /** The same for a transcript, which is logged as `voice`. */
  lemma AnsweredTranscriptIsLogged(master: string, info: map<string, Profile>, configured: bool,
                                   db: map<string, ConversationRecord>, from: string, kind: string,
                                   transcript: string, timestamp: int, world: World)
    requires DbValid(db) && transcript != []
    ensures var g := Respond(master, SERVICE_INDENT, info, transcript, None, world.complete);
      var s := TranscriptStep(master, info, configured, db, from, kind, Some(transcript), timestamp, world);
      LogsAcceptedTurn(configured, db, s, from, Turn("voice", transcript, g.reply, timestamp * 1000),
                       world.deliver(from, g.reply), world)
  {
    var g := Respond(master, SERVICE_INDENT, info, transcript, None, world.complete);
    ReplyStepLogs(info, configured, db, from, transcript, g, "voice", MEDIA_FAILURE, timestamp, world);
  }

  /** A transcript is answered without a sender id: whatever the store
      holds, the request carries exactly the master prompt, so a voice
      note never gets the welcome text nor a personalised prompt. */
  lemma TranscriptIgnoresProfile(master: string, info: map<string, Profile>, configured: bool,
                                 db: map<string, ConversationRecord>, from: string, kind: string,
                                 transcript: string, timestamp: int, world: World)
    requires transcript != []
    ensures var s := TranscriptStep(master, info, configured, db, from, kind, Some(transcript), timestamp, world);
      s.effects[0] == Complete(CompletionRequest(master, transcript, MAX_TOKENS))
  {
    AnonymousUsesMasterPrompt(master, SERVICE_INDENT, info, transcript, None, world.complete);
  }

  /** A missing or empty transcript gets the fixed "could not understand"
      reply: no completion is requested and nothing is logged. */
  lemma UnclearTranscriptIsNotAnswered(master: string, info: map<string, Profile>, configured: bool,
                                       db: map<string, ConversationRecord>, from: string, kind: string,
                                       transcript: Option<string>, timestamp: int, world: World)
    requires !IsTruthy(transcript)
    ensures var s := TranscriptStep(master, info, configured, db, from, kind, transcript, timestamp, world);
      && s.effects[0] == Send(from, NotUnderstood(kind))
      && NoCompletion(s.effects)
      && s.db == db
  {
  }

  /** A failed download is answered with the media error message, and
      nothing is transcribed, generated or logged. */
  lemma FailedDownloadIsReported(master: string, info: map<string, Profile>, configured: bool,
                                 db: map<string, ConversationRecord>, from: string, kind: string, media: Media,
                                 timestamp: int, world: World)
    requires world.download(media.id).None?
    ensures var s := MediaStep(master, info, configured, db, from, kind, Some(media), timestamp, world);
      && s.effects == [Download(media.id), Send(from, MEDIA_FAILURE)]
      && s.db == db
      && s.threw == !world.deliver(from, MEDIA_FAILURE)
  {
  }
}
