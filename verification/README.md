# WhatsApp intake router and onboarding store — a Dafny model

This project models the core of the *asistente-psicologos* WhatsApp assistant. A psychologist writes to a WhatsApp Business number, and the router decides what to do with each inbound message:

- a text that introduces the sender ("Soy …, especialidad …, orientación …") is an onboarding text, and the sender's profile is extracted from it into a per-sender store;
- any other text goes to the reply generator;
- a sender with no stored profile receives the fixed welcome text instead of a generated answer;
- a known sender gets a completion request whose system prompt carries the stored profile.

The router exists in two versions, and both are modelled:

- **app.js** keeps its own profile map and only acknowledges audio and voice notes. It is modelled as the class `App.App`.
- **api/whatsapp.js** delegates the store and the generation to `AIService`. It downloads and transcribes audio and voice notes, and logs every delivered generated reply, to a text or to a transcript, in the sender's Mongoose conversation document, when the database is configured and reachable and the schema accepts the turn. Onboarding replies and the fixed replies are not logged. It is modelled as the class `WhatsAppRoute.Router`.

The rules both versions share are defined once as functions and used by both classes:

- the onboarding test, in module `Onboarding`;
- the three-field extraction with the case-insensitive expression `marker\s+([^,]+)`, modelled as the engine runs it, with backtracking;
- the welcome short-circuit and the prompt composition, in module `Generation`.

Supporting modules:

- `AiService` holds the profile store of `AIService`.
- `WhatsAppService` holds the pure parts of the WhatsApp service: the message classifier, the error-text table, the webhook verification, and the send and button payloads.
- `ConversationModel` holds the conversation document with its schema constraints and its pre-save hook.

External calls are not performed. Each router records the calls it makes, in order, in a trace of `Effect`s: Send, Complete, Download and Transcribe. The outside world's answers come from a `World` value given with the inbound event. That value supplies:

- the delivery verdict, and the API's error when a message is refused;
- the completion content;
- the downloaded file;
- the transcript;
- whether the database is reachable;
- the clock.

Each imperative handler is a method on its router class. Its `ensures` ties the new state to a pure function of the old state: `App.WebhookOutcome`, or `WhatsAppRoute.WebhookOutcome` and the step functions under it. The lemmas beside those functions state what the source promises.

Three behaviours of the code are easy to miss:

- "Soy Juan" alone is *not* an onboarding text. The test in app.js:242 and api/whatsapp.js:116 also requires "especialidad" or "orientación", so such a text goes to the generator.
- Audio and voice transcripts never go through the onboarding test, and they are answered without a sender id (api/whatsapp.js:185, 222).
- In both routers a message that cannot be delivered is not swallowed:
  - in app.js, `sendWhatsAppMessage` re-throws and the webhook answers 500;
  - in api/whatsapp.js, a handler's `catch` tries once to send its error message, and if that also fails the webhook answers 500.

## Model

| member | source | states |
|---|---|---|
| Text.LowerStr | app.js:242 | `toLowerCase` keeps the length and lowers each character independently (ASCII and Latin-1 letters) |
| Text.Trim | app.js:205-207 | the trimmed text neither starts nor ends with JavaScript white space |
| Text.TrimIsSlice | app.js:205-207 | the trimmed text is a slice `s[a..b]` of the input with only white space before `a` and after `b`: `trim` removes white space at the two ends and nothing else |
| Onboarding.SoyAloneIsNotOnboarding | api/whatsapp.js:116 | one example: the name alone, "Soy Juan", is not an onboarding text, so it goes to the generator |
| Onboarding.SpaceRun | api/whatsapp.js:142 | greedy `\s+` takes exactly the maximal white-space run at a position |
| Onboarding.NonCommaEnd | api/whatsapp.js:142 | greedy `[^,]+` stops at the first comma or at the end of the text |
| Onboarding.Leftmost | app.js:200-202 | reference: the first position where the marker, one white-space character and a non-comma occur, and no earlier one |
| Onboarding.TryGroupAgrees | api/whatsapp.js:142-144 | the backtracking of `\s+([^,]+)` succeeds iff one white-space character is followed by a non-comma; the capture trims to the run after that character |
| Onboarding.MatchAtAgrees | api/whatsapp.js:142-144 | one match attempt succeeds exactly where the reference says the pattern can start, and its capture is non-empty and comma-free (it may be only white space, so a stored field can be empty) |
| Onboarding.MatchFromAgrees | app.js:200-202 | the engine's first match exists iff the reference's leftmost position exists, and captures the same trimmed text |
| Onboarding.ExtractProfileMatchesReference | app.js:200-207 | a profile is extracted iff all three markers match; each field is the trimmed run after its marker's leftmost match, trimmed and comma-free |
| Onboarding.ExtractedIsDetected | api/whatsapp.js:116-144 | every text from which a profile can be extracted passes the onboarding test, so the test never sends such a text to the generator |
| Generation.GetWelcomeMessage | services/aiService.js:128-140 | the welcome text (the same in app.js:183-195) contains the sample profile message "Soy María González, especialidad Clínica, orientación TCC" |
| Generation.WelcomeExampleIsOnboarding | services/aiService.js:137 | the sample in the welcome text passes the onboarding test and all three fields are extracted from it, so a sender who copies it gets a stored profile |
| Generation.Respond | services/aiService.js:93-126 | no completion request iff the id is truthy and unknown, and then the reply is the welcome text; otherwise the request carries the input and 800 tokens, its system prompt starts with the master prompt, and the reply is the trimmed content or the apology |
| Generation.CompletionCalls | app.js:119-127 | a generation makes at most one completion call and sends nothing; none exactly when it was short-circuited |
| Generation.AnonymousUsesMasterPrompt | services/aiService.js:95-103 | without a truthy id the system prompt is exactly the master prompt |
| Generation.KnownSenderIsPersonalised | app.js:111-117 | a known sender's request is the master prompt followed by the block built from that sender's stored profile |
| Generation.ProfileBlockMentions | services/aiService.js:103-109 | the profile block contains the stored name, specialty and orientation |
| Generation.StoredSenderIsNeverWelcomed | app.js:106-108 | an id with a stored profile always gets a completion request, never the welcome text |
| AiService.AIService.constructor | services/aiService.js:90 | the store starts empty |
| AiService.AIService.GenerateResponse | services/aiService.js:93-126 | the short-circuit applies iff the id is truthy and absent; otherwise the request is the system prompt from the store, the input and 800 tokens |
| AiService.AIService.SavePsychologistInfo | services/aiService.js:143-150 | the entry for the id becomes exactly the three given fields, every other entry is unchanged, and the reply is the confirmation |
| AiService.ReplayKeepsKeys | services/aiService.js:143-150 | after any series of saves every earlier id and every saved id is still stored: entries are never removed |
| AiService.ReplayLatestWins | services/aiService.js:144 | an id no save named keeps its original entry, or stays absent; the final save's profile is stored under its id |
| AiService.ReplayLatestSaveWins | services/aiService.js:144 | an id holds the profile of its latest save, whatever saves of other ids follow it |
| AiService.SaveIdempotentAndOverwrites | services/aiService.js:144-148 | saving the same triple twice equals saving it once; a second save with new values overwrites the first |
| AiService.SavedSenderIsNeverWelcomed | services/aiService.js:98-100 | after any series of saves, generation for a saved id is never short-circuited to the welcome text |
| AiService.InputTypeIsIgnored | services/aiService.js:93-126 | the input type has no effect on the result |
| Inbound.DispatchOf | api/whatsapp.js:56-62 | 404 exactly for another `object`; a missing `entry[0]`, `changes[0]` or `value` is an error; only `messages[0]` is delivered, and an absent or empty list delivers nothing |
| Inbound.Handshake | api/whatsapp.js:93-108 | 400 iff mode or token is falsy; 200 with the challenge iff both are truthy, the mode is `subscribe` and the token equals the configured one; 403 otherwise |
| Inbound.HandshakeNeedsConfiguredToken | app.js:274-289 | with no configured token the handshake never succeeds |
| ConversationModel.AppendKeepsValid | models/Conversation.js:14-32 | appending a valid turn to a valid document keeps it valid and keeps the earlier turns as a prefix |
| ConversationModel.Conversation.constructor | api/whatsapp.js:249-254 | a new document has no turns, and both dates are the creation time |
| ConversationModel.Conversation.Load | api/whatsapp.js:247 | the document holds exactly the stored record |
| ConversationModel.Conversation.PushMessage | api/whatsapp.js:257-262 | the turn is appended at the end and nothing else changes |
| ConversationModel.Conversation.Save | models/Conversation.js:43-47 | a save succeeds iff the document is valid (known type, non-empty input, response and id); it then sets only `updatedAt` to the save time, and a refused save changes nothing |
| WhatsAppService.ProcessIncomingMessage | services/whatsappService.js:205-248 | `from`, `timestamp` and `type` are copied; a text gives its body with no media; each media kind gives its label with the url and id of its own sub-object; any other type gives the unsupported content; a missing sub-object throws |
| WhatsAppService.MediaLabelsAreDistinct | services/whatsappService.js:216-235 | the four media labels tell the kinds apart |
| WhatsAppService.ErrorMessageAsWritten | services/whatsappService.js:278 | the lookup as written always yields a truthy value |
| WhatsAppService.ErrorMessageFor | services/whatsappService.js:270-280 | the mapped text for `general`, `audio`, `timeout` and `unsupported`; the general text for every other key, including an omitted type |
| WhatsAppService.ErrorLookupAgreesOffPrototype | services/whatsappService.js:271-278 | off the names inherited from `Object.prototype`, the lookup as written gives the intended text |
| WhatsAppService.ErrorLookupHitsPrototype | services/whatsappService.js:278 | for the error type `toString`, the lookup as written yields a function instead of the general text |
| WhatsAppService.VerifyWebhook | services/whatsappService.js:195-202 | the challenge is returned iff the mode is `subscribe` and a present token equals the configured one, which is the routers' handshake; otherwise the invalid-token error |
| WhatsAppService.VerifyAsWrittenAcceptsMissingToken | services/whatsappService.js:196 | with no token configured, the check as written verifies a request that carries no token |
| WhatsAppService.VerifyAgreesOnPresentToken | services/whatsappService.js:195-202 | with a non-empty token in the request, the check as written and the intended one agree |
| WhatsAppService.SendErrorText | services/whatsappService.js:38-41 | the re-thrown error's text is "Error enviando mensaje: " followed by the API's error message when it is truthy, otherwise by the HTTP client's own error message |
| WhatsAppService.ButtonPayload | services/whatsappService.js:57-63 | count and order are preserved; button i is a `reply` with the same title |
| WhatsAppService.ButtonIdsIdentifyPositions | services/whatsappService.js:57-63 | button i has id `btn_i`, which names position i, so the ids are pairwise distinct |
| App.App.constructor | app.js:98 | the profile map starts empty and nothing has been called |
| App.App.GenerateResponse | app.js:101-134 | the short-circuit applies iff the sender id is truthy and unknown; otherwise the request is the master prompt plus the six-space profile block, the input and 800 tokens |
| App.App.HandlePsychologistInfo | app.js:198-213 | when all three markers match, the map gains the extracted profile under the sender and the reply is the confirmation; otherwise the reply is the format instruction and the map is unchanged |
| App.App.SendWhatsAppMessage | app.js:152-180 | one delivery attempt is recorded, and its outcome is the world's verdict |
| App.App.PostWebhook | app.js:221-271 | the status, the calls made and the new map are those of `App.WebhookOutcome` on the old map |
| App.App.GetWebhook | app.js:274-289 | 200 iff mode and token are truthy, the mode is `subscribe` and the token matches |
| App.AppStatusCodes | app.js:225-270 | every status is 200, 404 or 500; 404 iff the `object` is another one, and then nothing is called or stored |
| App.AppStoreChangesOnlyOnProfile | app.js:204-213 | the map only grows, and changes only for an onboarding text with all three fields, by exactly the extracted profile under the sender |
| App.AppOnboardingSkipsGenerator | app.js:242-244 | an onboarding text gets the extraction's reply and no completion request |
| App.AppNewSenderIsWelcomed | app.js:106-108 | an unknown sender's non-onboarding text gets exactly the welcome text, with no completion request |
| App.AppKnownSenderIsPersonalised | app.js:111-133 | a known sender gets one completion request with the personalised prompt, then the trimmed content or the apology |
| App.AppMediaIsOnlyAcknowledged | app.js:250-260 | audio and voice get only the acknowledgement, any other type the fixed refusal; the map is untouched |
| App.AppOneReplyPerPost | app.js:230-270 | only `messages[0]` is answered, with one delivery attempt that comes last; the status is 200 iff it was delivered |
| WhatsAppRoute.LogTurnAppends | api/whatsapp.js:238-270 | the log stays valid and keeps every document; other senders are untouched; it changes iff the database is configured and reachable, the sender id is non-empty and the schema accepts the turn, and then the turn, with the timestamp in milliseconds, is appended at the end of the sender's turns, which start empty for a new sender |
| WhatsAppRoute.LogTurnRefusesInvalid | models/Conversation.js:4-27 | a turn with an empty input, response or sender, or an unknown type, is never stored |
| WhatsAppRoute.MediaStep | api/whatsapp.js:164-235 | the audio and voice handlers never change the profile store |
| WhatsAppRoute.Router.constructor | api/whatsapp.js:47-49 | the router holds the shared `AIService`; the log starts empty and valid, and nothing has been called |
| WhatsAppRoute.Router.SendMessage | services/whatsappService.js:14-42 | one delivery attempt is recorded, and its outcome is the world's verdict |
| WhatsAppRoute.Router.HandlePsychologistInfo | api/whatsapp.js:139-161 | the reply is the confirmation or the format instruction, and the store is updated through `savePsychologistInfo` exactly when all three markers match |
| WhatsAppRoute.Router.SaveMessageToDatabase | api/whatsapp.js:238-270 | the log becomes `LogTurn` of the old log: find or create the document, push the turn, save; failures are swallowed; the log stays valid |
| WhatsAppRoute.Router.Recover | api/whatsapp.js:131-135 | a handler's catch makes one attempt to send its error message, and fails iff that attempt fails |
| WhatsAppRoute.Router.Answer | api/whatsapp.js:123-129 | generate, send and log, as `AnswerStep` says |
| WhatsAppRoute.Router.Reply | api/whatsapp.js:126-135 | record the completion call, send, log only a delivered reply, otherwise the catch, as `ReplyStep` says |
| WhatsAppRoute.Router.HandleTextMessage | api/whatsapp.js:111-136 | calls, store, log and failure are those of `TextStep` |
| WhatsAppRoute.Router.Onboard | api/whatsapp.js:116-119 | extract, store, reply and return, as `OnboardingStep` says |
| WhatsAppRoute.Router.AnswerTranscript | api/whatsapp.js:176-191 | a falsy transcript gets the fixed reply; any other is answered without a sender id and logged as `voice` |
| WhatsAppRoute.Router.HandleMediaMessage | api/whatsapp.js:164-235 | calls, log and failure are those of `MediaStep` |
| WhatsAppRoute.Router.HandleMessage | api/whatsapp.js:69-79 | the handler chosen by `type`, as `MessageStep` says |
| WhatsAppRoute.Router.PostWebhook | api/whatsapp.js:52-90 | status, calls, store and log are those of `WhatsAppRoute.WebhookOutcome` on the old state |
| WhatsAppRoute.Router.GetWebhook | api/whatsapp.js:93-108 | 200 iff mode and token are truthy, the mode is `subscribe` and the token matches |
| WhatsAppRoute.Router.SendRoute | api/whatsapp.js:273-299 | 400 with the missing-parameters text without a truthy `to` and `message`, and no send; otherwise one send, then 200 with the success text if it is delivered, or 500 with the text of the error `sendMessage` re-throws |
| WhatsAppRoute.SendAnswersAreDistinct | api/whatsapp.js:278-297 | the `message` field of `POST /send` tells its outcomes apart: no send error reads as the success or the missing-parameters text |
| WhatsAppRoute.ReplyStepLogs | api/whatsapp.js:123-129 | delivering a generated reply keeps the store and logs only a reply that was sent and delivered; a delivered reply whose turn the schema accepts, with the database configured and reachable, is appended to the sender's turns |
| WhatsAppRoute.AnsweredTextIsLogged | api/whatsapp.js:123-129 | the generated answer to a non-onboarding text, once delivered, is logged as a `text` turn when the database is configured and reachable and the schema accepts the turn |
| WhatsAppRoute.AnsweredTranscriptIsLogged | api/whatsapp.js:185-191 | the same for the answer to a transcript, logged as a `voice` turn |
| WhatsAppRoute.ReplyStepReports | api/whatsapp.js:126-135 | the reply goes out to the sender; once delivered it is the only message and the handler succeeds; once refused exactly one more message goes out, the handler's error message, and the handler fails iff that one is refused too |
| WhatsAppRoute.FixedReplyBehaves | api/whatsapp.js:176-180 | a fixed reply logs nothing; once delivered it is the only message; once refused the one further message is the handler's error message |
| WhatsAppRoute.TextStepBehaves | api/whatsapp.js:111-136 | the store changes only through the extraction, the log only by a delivered turn; the extraction's or the generated reply goes out, alone once delivered, followed by exactly the text error message once refused |
| WhatsAppRoute.TranscriptStepBehaves | api/whatsapp.js:174-197 | the same for a transcript: the fixed or the generated reply, alone once delivered, followed by exactly the media error message once refused |
| WhatsAppRoute.AfterBehaves | api/whatsapp.js:169-174 | the download and the transcription, which send nothing, keep those guarantees |
| WhatsAppRoute.MediaStepBehaves | api/whatsapp.js:164-235 | the audio and voice handlers keep the store and log only a delivered turn; a missing media object sends only the media error message, a failed download sends it after the download, and otherwise the transcript's reply goes out, followed by exactly the media error message once refused |
| WhatsAppRoute.MessageStepKeepsLog | api/whatsapp.js:69-79 | one message changes the store only through an onboarding text, and the log only by a delivered turn |
| WhatsAppRoute.MessageStepReports | api/whatsapp.js:69-79 | at most two messages go out; the last one goes to the sender, and the handler fails iff it was not delivered |
| WhatsAppRoute.MessageStepSilentOnlyWithoutText | api/whatsapp.js:69-70 | a message sends nothing exactly when it has type `text` and no `text` object, whose read throws to the webhook's catch (500); it then changes neither the store nor the log |
| WhatsAppRoute.RouteStatusCodes | api/whatsapp.js:56-89 | every status is 200, 404 or 500; 404 iff the `object` is another one |
| WhatsAppRoute.RouteStateOnlyGrows | api/whatsapp.js:52-90 | the store only grows; the log stays valid and only grows, and is never written without a configured database |
| WhatsAppRoute.MessageOutcomeReports | api/whatsapp.js:69-89 | one delivered message reports its delivery in the status |
| WhatsAppRoute.RouteReportsFailure | api/whatsapp.js:52-90 | at most two messages go out; with none, nothing changed; with some, the status is 500 iff the last one could not be delivered |
| WhatsAppRoute.OnboardingSkipsGeneratorAndLog | api/whatsapp.js:116-120 | an onboarding text gets the extraction's reply first, never a completion request, and the log is untouched |
| WhatsAppRoute.RouteNewSenderIsWelcomed | api/whatsapp.js:123-129 | an unknown sender's non-onboarding text gets the welcome text with no completion request, and the exchange is logged once delivered |
| WhatsAppRoute.TranscriptIgnoresProfile | api/whatsapp.js:185 | a transcript's request carries exactly the master prompt, so voice input is never welcomed or personalised |
| WhatsAppRoute.UnclearTranscriptIsNotAnswered | api/whatsapp.js:176-180 | a falsy transcript gets the fixed reply, with no completion request and nothing logged |
| WhatsAppRoute.FailedDownloadIsReported | api/whatsapp.js:169-171 | a failed download is answered with the media error message; nothing is transcribed, generated or logged |

## Left out

- Express request and response objects, JSON bodies, `console` logging and the `/`, `/health` and `/status` routes: transport and I/O. Only the status codes chosen are modelled.
- axios calls to the Graph API, and the file writes of `downloadMedia` (services/whatsappService.js:126-165): network and filesystem. Delivery and download are answers of the `World`.
- OpenAI chat completions and Whisper: foreign calls. They are functions of the request in the `World`. `temperature: 0.3` (a float) and the model name are dropped. The master prompt is an opaque string parameter.
- The `World` answers each call as a function of its arguments. Two identical calls in one event therefore get the same answer, and retries and transient failures are not modelled.
- `sendMessageWithList`, `getStatus`, `sendWelcomeMessage` and `sendErrorMessage`'s network call: only the payloads and the error-text choice are modelled.
- `transcribeAudio` in app.js (app.js:137-149) is never called by its router and is not modelled.
- `analyzeProjectiveTest` and `generateClinicalReport` in services/aiService.js: prompt-and-call wrappers outside the intake path.
- api/auth.js, api/ai.js, api/voice.js, the multer configuration, app-simple.js, app-minimal.js, utils/database.js and services/voiceService.js are not part of this model.
- The schema's `psychologistInfo` sub-document (models/Conversation.js:9-13) is never written by the routers and is not modelled.
- Concurrency: each inbound event is one sequential call. Concurrent handlers sharing the store or a document are not modelled.
- Text.LowerStr: lowers only the ASCII and Latin-1 letters, not the whole Unicode case mapping of `toLowerCase`. The three markers are ASCII plus "ó", so the onboarding test is unaffected.
- WhatsAppRoute.LogTurn: the message timestamp is an integer, and JavaScript's coercion of the string `timestamp` before `* 1000` is not modelled. The dates are integers in milliseconds.
- Inbound.Message: `text` stands for `text.body`. A `text` object present without `body` reaches `handleTextMessage` with `undefined` and is caught there. The model does not tell that case apart from a missing `text`, which throws in the webhook itself and gives 500.
- Inbound.Media: a media object always has an id. An object without one would be downloaded as `undefined`, which the `World`'s `download` covers as a failure.
- WhatsAppRoute.Router.HandlePsychologistInfo: the `catch` at api/whatsapp.js:157-160 and app.js:214-217 is unreachable in the model, because the extraction does not throw. Its reply text is not modelled.
- WhatsAppRoute.MediaStep: `audio.url` and `voice.url` are read and never used (api/whatsapp.js:169, 206), so `Media.url` plays no part. A missing url does not throw; a missing `audio` or `voice` object throws inside the handler's `try` and gets the media error message.
- WhatsAppService.TextPayloadFor: builds the JSON body of a text message field by field, and its contract only names the four fields. Both routers build their send effect from it. The JSON encoding itself is not modelled.
- ConversationModel.Turn: the schema's default timestamp (models/Conversation.js:28-31) is not modelled, because its only caller always passes one (api/whatsapp.js:257-262).

## Findings

| source | as written | input that shows it | evidently intended | confidence | as-written member | corrected member |
|---|---|---|---|---|---|---|
| services/whatsappService.js:278 | `errorMessages[errorType] \|\| errorMessages.general` reads through the prototype chain | `sendErrorMessage(to, 'toString')` passes the `Object.prototype.toString` function as the message; JSON serialisation drops it, so the request goes out with `text: {}` and no body | the general text for every key outside the table | not executed | WhatsAppService.ErrorLookupHitsPrototype | WhatsAppService.ErrorMessageFor |
| services/whatsappService.js:196 | `token === process.env.WHATSAPP_VERIFY_TOKEN` with no presence check | with `WHATSAPP_VERIFY_TOKEN` unset, mode `subscribe` and no token, `undefined === undefined` verifies | a present token equal to the configured one, as the routers' GET handlers require | not executed | WhatsAppService.VerifyAsWrittenAcceptsMissingToken | WhatsAppService.VerifyWebhook |
