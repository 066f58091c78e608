/** Reply generation shared by `generateResponse` in app.js and in
    `AIService`: the welcome short-circuit for a sender who has not given a
    profile yet, the system prompt with the sender's profile block, and the
    apology that replaces any failure of the completion call. */
module Generation {
  import opened Wrappers
  import opened Text
  import opened Onboarding
  import opened Effects

  /** The `max_tokens` of every completion request. */
  const MAX_TOKENS: nat := 800

  /** The welcome text of `getWelcomeMessage()`, in three parts around the
      sample profile message it shows. */
  const WELCOME_OPENING: string :=
    "Te doy la bienvenida a Aina, tu ecosistema "
    + "clínico inteligente. Con herramientas éticas, "
    + "dinámicas y especializadas, potenciamos "
    + "tu análisis, optimizamos tu tiempo y fortalecemos "
    + "tu impacto terapéutico en cada etapa del "
    + "proceso clínico.\n\n"
    + "Para personalizar mis intervenciones, necesito "
    + "que me proporciones:\n\n"
    + "1. Tu nombre completo\n"
    + "2. Tu especialidad profesional (Clínica, "
    + "Educativa, Laboral, Jurídica)\n"
    + "3. Tu orientación terapéutica (TCC, ACT, "
    + "Psicodinámica, Sistémica, Humanista, Integrativa)\n\n"
    + "Ejemplo: \""
  const WELCOME_EXAMPLE: string :=
    "Soy" + (SAMPLE_NAME + (ESPECIALIDAD + (SAMPLE_SPECIALTY + (ORIENTACION + SAMPLE_ORIENTATION))))
  const SAMPLE_NAME: string := " María González, "
  const SAMPLE_SPECIALTY: string := " Clínica, "
  const SAMPLE_ORIENTATION: string := " TCC"
  const WELCOME_CLOSING: string :=
    "\"\n\n"
    + "Una vez que me proporciones esta información, "
    + "podré adaptar todas mis respuestas a tu "
    + "perfil profesional y estilo de trabajo."
  const WELCOME: string := WELCOME_OPENING + WELCOME_EXAMPLE + WELCOME_CLOSING

  /** `getWelcomeMessage()`: the welcome text, which shows the sender a
      sample profile message. */
  function GetWelcomeMessage(): (r: string)
    ensures Contains(r, WELCOME_EXAMPLE)
  {
    ContainsSuffix(WELCOME_OPENING, WELCOME_EXAMPLE);
    ContainsExtend(WELCOME_OPENING + WELCOME_EXAMPLE, WELCOME_CLOSING, WELCOME_EXAMPLE);
    WELCOME
  }

  /** The sample in the welcome text is itself a profile message: a sender
      who copies it passes the routers' onboarding test and all three
      fields are extracted, so a profile is stored for them. */
  lemma WelcomeExampleIsOnboarding()
    ensures IsOnboardingText(WELCOME_EXAMPLE)
    ensures ExtractProfile(WELCOME_EXAMPLE).Some?
  {
    var i := 3 + |SAMPLE_NAME|;
    var j := i + |ESPECIALIDAD| + |SAMPLE_SPECIALTY|;
    SampleMatches();
    ExtractsWhereAllMatch(WELCOME_EXAMPLE, 0, i, j);
    MarkersAreLowerCase();
    MarkerAtContains(WELCOME_EXAMPLE, SOY, 0);
    MarkerAtContains(WELCOME_EXAMPLE, ESPECIALIDAD, i);
  }

  /** Where each of the three patterns starts in the sample. */
  lemma SampleMatches()
    ensures MatchesAt(WELCOME_EXAMPLE, SOY, 0)
    ensures MatchesAt(WELCOME_EXAMPLE, ESPECIALIDAD, 3 + |SAMPLE_NAME|)
    ensures MatchesAt(WELCOME_EXAMPLE, ORIENTACION, 3 + |SAMPLE_NAME| + |ESPECIALIDAD| + |SAMPLE_SPECIALTY|)
  {
    SampleNameMatches();
    SampleSpecialtyMatches();
    SampleOrientationMatches();
  }

  lemma SampleNameMatches()
    ensures MatchesAt(WELCOME_EXAMPLE, SOY, 0)
  {
    assert Lower('S') == Lower('s');
    MatchesAtFront("Soy", SAMPLE_NAME + (ESPECIALIDAD + (SAMPLE_SPECIALTY + (ORIENTACION + SAMPLE_ORIENTATION))), SOY);
  }

  lemma SampleSpecialtyMatches()
    ensures MatchesAt(WELCOME_EXAMPLE, ESPECIALIDAD, 3 + |SAMPLE_NAME|)
  {
    var r2 := SAMPLE_SPECIALTY + (ORIENTACION + SAMPLE_ORIENTATION);
    MatchesAtFront(ESPECIALIDAD, r2, ESPECIALIDAD);
    MatchesAtShift(SAMPLE_NAME, ESPECIALIDAD + r2, ESPECIALIDAD, 0);
    MatchesAtShift("Soy", SAMPLE_NAME + (ESPECIALIDAD + r2), ESPECIALIDAD, |SAMPLE_NAME|);
  }

  lemma SampleOrientationMatches()
    ensures MatchesAt(WELCOME_EXAMPLE, ORIENTACION, 3 + |SAMPLE_NAME| + |ESPECIALIDAD| + |SAMPLE_SPECIALTY|)
  {
    var r3 := ORIENTACION + SAMPLE_ORIENTATION;
    var r2 := SAMPLE_SPECIALTY + r3;
    var r1 := ESPECIALIDAD + r2;
    MatchesAtFront(ORIENTACION, SAMPLE_ORIENTATION, ORIENTACION);
    MatchesAtShift(SAMPLE_SPECIALTY, r3, ORIENTACION, 0);
    MatchesAtShift(ESPECIALIDAD, r2, ORIENTACION, |SAMPLE_SPECIALTY|);
    MatchesAtShift(SAMPLE_NAME, r1, ORIENTACION, |ESPECIALIDAD| + |SAMPLE_SPECIALTY|);
    MatchesAtShift("Soy", SAMPLE_NAME + r1, ORIENTACION, |SAMPLE_NAME| + |ESPECIALIDAD| + |SAMPLE_SPECIALTY|);
  }

  /** The reply when the completion call fails. */
  const APOLOGY: string :=
    "Lo siento, hubo un error generando la respuesta. "
    + "Por favor, intenta de nuevo."

  /** The template literal of the profile block keeps the source's
      indentation: six spaces in app.js, eight in `AIService`. */
  const APP_INDENT: string := "      "
  const SERVICE_INDENT: string := "        "

  const PROFILE_HEADING: string := "\n\nINFORMACIÓN DEL PSICÓLOGO:"
  const NAME_LABEL: string := "- Nombre: "
  const SPECIALTY_LABEL: string := "- Especialidad: "
  const ORIENTATION_LABEL: string := "- Orientación terapéutica: "

  /** One line of the profile block: a line break, the indentation, the
      label and the stored value. */
  function ProfileLine(indent: string, caption: string, value: string): string {
    "\n" + indent + caption + value
  }

  /** The block appended to the master prompt for a known sender. */
  function ProfileBlock(indent: string, p: Profile): string {
    PROFILE_HEADING
    + ProfileLine(indent, NAME_LABEL, p.name)
    + ProfileLine(indent, SPECIALTY_LABEL, p.specialty)
    + ProfileLine(indent, ORIENTATION_LABEL, p.orientation)
  }

  /** A sender the welcome short-circuit applies to: a truthy id with no
      stored profile. */
  predicate AwaitsProfile(info: map<string, Profile>, id: Option<string>) {
    IsTruthy(id) && id.value !in info
  }

  /** The system prompt: the master prompt, followed by the profile block
      when the id is truthy and has a stored profile. */
  function SystemPrompt(master: string, indent: string, info: map<string, Profile>, id: Option<string>): string {
    if IsTruthy(id) && id.value in info then master + ProfileBlock(indent, info[id.value]) else master
  }

  /** The outcome of one `generateResponse` call: the reply and the
      completion request it made, if any. */
  datatype Generation = Generation(reply: string, request: Option<CompletionRequest>)

  /** `generateResponse(userInput, psychologistId)` given the profile store,
      with the completion API as a function of the request. */
  function Respond(master: string, indent: string, info: map<string, Profile>, userInput: string,
                   id: Option<string>, complete: CompletionRequest -> Option<string>): (g: Generation)
    ensures g.request.None? <==> AwaitsProfile(info, id)
    ensures g.request.None? ==> g.reply == WELCOME
    ensures g.request.Some? ==>
      && g.request.value.userInput == userInput
      && g.request.value.maxTokens == MAX_TOKENS
      && master <= g.request.value.systemPrompt
    ensures g.request.Some? && complete(g.request.value).None? ==> g.reply == APOLOGY
    ensures g.request.Some? && complete(g.request.value).Some? ==>
      g.reply == Trim(complete(g.request.value).value)
  {
    if AwaitsProfile(info, id) then
      Generation(GetWelcomeMessage(), None)
    else
      var request := CompletionRequest(SystemPrompt(master, indent, info, id), userInput, MAX_TOKENS);
      match complete(request)
      case Some(content) => Generation(Trim(content), Some(request))
      case None => Generation(APOLOGY, Some(request))
  }

  /** The completion call a generation made, as a trace. */
  function CompletionCalls(g: Generation): (calls: seq<Effect>)
    ensures |calls| <= 1 && SendCount(calls) == 0
    ensures NoCompletion(calls) <==> g.request.None?
  {
    if g.request.Some? then [Complete(g.request.value)] else []
  }

  /** Without a truthy id neither the short-circuit nor the personalisation
      applies: the system prompt is exactly the master prompt. */
  lemma AnonymousUsesMasterPrompt(master: string, indent: string, info: map<string, Profile>, userInput: string,
                                  id: Option<string>, complete: CompletionRequest -> Option<string>)
    requires !IsTruthy(id)
    ensures Respond(master, indent, info, userInput, id, complete).request
         == Some(CompletionRequest(master, userInput, MAX_TOKENS))
  {
  }

  /** A known sender's request carries the master prompt followed by the
      block built from that sender's stored profile. */
  lemma KnownSenderIsPersonalised(master: string, indent: string, info: map<string, Profile>, userInput: string,
                                  id: string, complete: CompletionRequest -> Option<string>)
    requires id != [] && id in info
    ensures Respond(master, indent, info, userInput, Some(id), complete).request
         == Some(CompletionRequest(master + ProfileBlock(indent, info[id]), userInput, MAX_TOKENS))
  {
  }

  /** The profile block mentions the stored name, specialty and orientation. */
  lemma ProfileBlockMentions(indent: string, p: Profile)
    ensures Contains(ProfileBlock(indent, p), p.name)
    ensures Contains(ProfileBlock(indent, p), p.specialty)
    ensures Contains(ProfileBlock(indent, p), p.orientation)
  {
    var name := ProfileLine(indent, NAME_LABEL, p.name);
    var specialty := ProfileLine(indent, SPECIALTY_LABEL, p.specialty);
    var orientation := ProfileLine(indent, ORIENTATION_LABEL, p.orientation);
    ContainsSuffix("\n" + indent + NAME_LABEL, p.name);
    ContainsPrepend(PROFILE_HEADING, name, p.name);
    ContainsExtend(PROFILE_HEADING + name, specialty, p.name);
    ContainsExtend(PROFILE_HEADING + name + specialty, orientation, p.name);
    ContainsSuffix("\n" + indent + SPECIALTY_LABEL, p.specialty);
    ContainsPrepend(PROFILE_HEADING + name, specialty, p.specialty);
    ContainsExtend(PROFILE_HEADING + name + specialty, orientation, p.specialty);
    ContainsSuffix("\n" + indent + ORIENTATION_LABEL, p.orientation);
    ContainsPrepend(PROFILE_HEADING + name + specialty, orientation, p.orientation);
  }

  /** Once a profile is stored for an id, no later call for that id is
      short-circuited: a request is always made. */
  lemma StoredSenderIsNeverWelcomed(master: string, indent: string, info: map<string, Profile>, userInput: string,
                                    id: string, complete: CompletionRequest -> Option<string>)
    requires id in info
    ensures Respond(master, indent, info, userInput, Some(id), complete).request.Some?
  {
  }
}
