/** The lesson-generation endpoint (api/generate-lesson.ts): the text
    selections that parameterise the prompt, and the classification of the
    model's answer. The prompt templates themselves and the model call are
    not modelled; the model's answer is an input. */
module GenerateLesson {
  import opened Js
  import opened Text
  import opened Http

  datatype NemParams = NemParams(
    formality: Option<string>,
    pedagogicalIntent: Option<string>,
    emphasis: Option<seq<string>>,
    decisionLevel: Option<string>)

  datatype LessonParams = LessonParams(
    grade: string,
    topic: string,
    tone: string,
    status: string,
    narrative: string,
    customNarrative: Option<string>,
    nemParams: Option<NemParams>)

  const SURPRISE_INSTRUCTION: string :=
    "SE EXTREMADAMENTE CREATIVO: Elige una narrativa sorpresa (ciencia ficción, espionaje, etc.) para toda la clase."
  const FORMAL_TEXT: string :=
    "MODO FORMAL SEP: Usa lenguaje técnico-pedagógico apropiado para revisión por supervisión o dirección. Sé preciso en términos NEM."
  const SAFETY_SENTINEL: string := "SEGURIDAD_BLOQUEADA"
  const SAFETY_ERROR: string :=
    "El tema o la narrativa elegida no es apta para un entorno escolar por razones de seguridad."
  const EMPTY_ANSWER: string := "No pude generar la clase."
  const AI_ERROR: string := "Error al conectar con la IA de planeación."

  /** `emphasisLabels`. */
  const EmphasisLabels: map<string, string> := map[
    "inclusion" := "Inclusión y diversidad",
    "convivencia" := "Convivencia y respeto",
    "comunidad" := "Comunidad y contexto local",
    "pensamiento" := "Pensamiento crítico",
    "expresion" := "Expresión emocional",
    "identidad" := "Identidad cultural"]

  /** `decisionLabels`. */
  const DecisionLabels: map<string, string> := map[
    "seguir" := "Los alumnos siguen indicaciones del docente",
    "elegir" := "Los alumnos eligen cómo expresarse o representar el aprendizaje",
    "proponer" := "Los alumnos proponen soluciones, toman posturas o deciden acciones"]

  /** `chosenNarrative`: the custom narrative exactly when the narrative is
      "Personalizada", otherwise the narrative itself. */
  function ChosenNarrative(p: LessonParams): (n: Option<string>)
    ensures p.narrative == "Personalizada" ==> n == p.customNarrative
    ensures p.narrative != "Personalizada" ==> n == Some(p.narrative)
  {
    if p.narrative == "Personalizada" then p.customNarrative else Some(p.narrative)
  }

  const THEMED_PRE: string := "Toda la clase debe girar en torno a la narrativa: "
  const THEMED_POST: string := ". Adapta el lenguaje y las dinámicas a este tema."

  function ThemedInstruction(chosen: string): string
  {
    THEMED_PRE + ("\"" + chosen + "\"") + THEMED_POST
  }

  /** `narrativeInstruction`: "Random" asks for a surprise; any other value
      quotes the chosen narrative. */
  function NarrativeInstruction(p: LessonParams): (s: string)
    ensures p.narrative == "Random" ==> s == SURPRISE_INSTRUCTION
    ensures p.narrative != "Random" ==> Contains(s, "\"" + Show(ChosenNarrative(p)) + "\"")
  {
    if p.narrative == "Random" then SURPRISE_INSTRUCTION
    else
      var chosen := Show(ChosenNarrative(p));
      ContainsInfix(THEMED_PRE, "\"" + chosen + "\"", THEMED_POST);
      ThemedInstruction(chosen)
  }

  /** `emphasisLabels[e] || e`: the label of a known key, the key itself
      otherwise; keys inherited from `Object.prototype` are not modelled. */
  function EmphasisLabel(e: string): (l: string)
    ensures e in EmphasisLabels ==> l == EmphasisLabels[e]
    ensures e !in EmphasisLabels ==> l == e
  {
    if e in EmphasisLabels then EmphasisLabels[e] else e
  }

  /** `keys.map(...)`. */
  function EmphasisLabelList(keys: seq<string>): (ls: seq<string>)
    ensures |ls| == |keys|
    ensures forall i :: 0 <= i < |keys| ==> ls[i] == EmphasisLabel(keys[i])
  {
    if keys == [] then [] else [EmphasisLabel(keys[0])] + EmphasisLabelList(keys[1..])
  }

  const EMPHASIS_PREFIX: string := "ÉNFASIS SOCIAL SOLICITADO: "
  const EMPHASIS_SUFFIX: string := ". Integra estos temas de manera natural en la clase."

  /** `emphasisText`: empty when no emphasis was chosen. */
  function EmphasisText(nem: NemParams): (s: string)
    ensures (nem.emphasis.None? || nem.emphasis.value == []) <==> s == ""
  {
    match nem.emphasis
    case Some(keys) =>
      if |keys| > 0 then
        EMPHASIS_PREFIX + JoinWith(EmphasisLabelList(keys), ", ") + EMPHASIS_SUFFIX
      else ""
    case None => ""
  }

  /** With emphasis chosen, the text names every key through its label (the
      raw key when it has none). */
  lemma EmphasisTextNamesEveryKey(nem: NemParams, i: nat)
    requires nem.emphasis.Some? && i < |nem.emphasis.value|
    ensures Contains(EmphasisText(nem), EmphasisLabel(nem.emphasis.value[i]))
  {
    var labels := EmphasisLabelList(nem.emphasis.value);
    JoinWithContainsItems(labels, ", ", i);
    ContainsInside(EMPHASIS_PREFIX, JoinWith(labels, ", "), EMPHASIS_SUFFIX, labels[i]);
  }

  /** `intentText`: empty exactly when no intent was given. */
  function IntentText(nem: NemParams): (s: string)
    ensures s == "" <==> !Truthy(nem.pedagogicalIntent)
    ensures Truthy(nem.pedagogicalIntent) ==> Contains(s, nem.pedagogicalIntent.value)
  {
    if Truthy(nem.pedagogicalIntent) then
      var pre := "INTENCIÓN PEDAGÓGICA DEL DOCENTE: \"";
      var post := "\". Usa esto para orientar el PDA y las actividades.";
      ContainsInfix(pre, nem.pedagogicalIntent.value, post);
      pre + nem.pedagogicalIntent.value + post
    else ""
  }

  /** `decisionLabels[level]`, printed as "undefined" for an unknown level;
      keys inherited from `Object.prototype` are not modelled. */
  function DecisionLabel(level: string): (l: string)
    ensures level in DecisionLabels ==> l == DecisionLabels[level]
    ensures level !in DecisionLabels ==> l == "undefined"
  {
    if level in DecisionLabels then DecisionLabels[level] else "undefined"
  }

  /** `decisionText`: empty exactly when no decision level was given;
      otherwise it carries the level's label. */
  function DecisionText(nem: NemParams): (s: string)
    ensures s == "" <==> !Truthy(nem.decisionLevel)
    ensures Truthy(nem.decisionLevel) ==> Contains(s, DecisionLabel(nem.decisionLevel.value))
  {
    if Truthy(nem.decisionLevel) then
      var pre := "NIVEL DE DECISIÓN DEL ALUMNADO: ";
      var post := ". Diseña la actividad central acorde a este nivel.";
      ContainsInfix(pre, DecisionLabel(nem.decisionLevel.value), post);
      pre + DecisionLabel(nem.decisionLevel.value) + post
    else ""
  }

  /** `formalityText`: the formal-register text only for "formal". */
  function FormalityText(nem: NemParams): (s: string)
    ensures nem.formality == Some("formal") ==> s == FORMAL_TEXT
    ensures nem.formality != Some("formal") ==> s == ""
  {
    if nem.formality == Some("formal") then FORMAL_TEXT else ""
  }

  /** `params.nemParams || {}`. */
  function NemOf(p: LessonParams): NemParams
  {
    if p.nemParams.Some? then p.nemParams.value else NemParams(None, None, None, None)
  }

  /** The texts the handler selects before building its prompt. */
  datatype Selections = Selections(
    chosenNarrative: Option<string>,
    narrativeInstruction: string,
    emphasisText: string,
    intentText: string,
    decisionText: string,
    formalityText: string)

  function Select(p: LessonParams): Selections
  {
    var nem := NemOf(p);
    Selections(ChosenNarrative(p), NarrativeInstruction(p), EmphasisText(nem),
               IntentText(nem), DecisionText(nem), FormalityText(nem))
  }

  /** Without NEM parameters every optional text is empty. */
  lemma NoNemParamsNoTexts(p: LessonParams)
    requires p.nemParams.None?
    ensures var s := Select(p);
      s.emphasisText == "" && s.intentText == "" && s.decisionText == "" && s.formalityText == ""
  {
  }

  /** The model call: its answer text (possibly missing), or a thrown error. */
  datatype ModelOutcome = Answered(content: Option<string>) | Threw

  datatype Body = Content(text: string) | Error(message: string)

  /** The final classification: a sentinel anywhere in the answer blocks the
      lesson with 400; otherwise 200 with the text or the fixed apology. */
  function ClassifyAnswer(content: Option<string>): (r: Response<Body>)
    ensures var text := OrElse(content, "");
      Contains(text, SAFETY_SENTINEL) ==> r == Response(BAD_REQUEST, Error(SAFETY_ERROR))
    ensures var text := OrElse(content, "");
      !Contains(text, SAFETY_SENTINEL) ==>
        r.status == OK && r.body == Content(if text == "" then EMPTY_ANSWER else text)
  {
    var text := OrElse(content, "");
    if Contains(text, SAFETY_SENTINEL) then Response(BAD_REQUEST, Error(SAFETY_ERROR))
    else Response(OK, Content(if text != "" then text else EMPTY_ANSWER))
  }

  /** `handler`: method check, then the model's answer is classified; a thrown
      error is a 500. */
  function Handle(verb: string, outcome: ModelOutcome): (r: Response<Body>)
    ensures verb != "POST" ==> r.status == METHOD_NOT_ALLOWED
    ensures verb == "POST" && outcome.Threw? ==> r == Response(SERVER_ERROR, Error(AI_ERROR))
    ensures verb == "POST" && outcome.Answered? ==> r == ClassifyAnswer(outcome.content)
  {
    if verb != "POST" then Response(METHOD_NOT_ALLOWED, Error("Method not allowed"))
    else match outcome
      case Threw => Response(SERVER_ERROR, Error(AI_ERROR))
      case Answered(content) => ClassifyAnswer(content)
  }

  /** An answer that carries the sentinel anywhere is refused; a 200 never
      carries it. */
  lemma SentinelAnywhereBlocks(before: string, after: string)
    ensures ClassifyAnswer(Some(before + SAFETY_SENTINEL + after)).status == BAD_REQUEST
  {
    ContainsInfix(before, SAFETY_SENTINEL, after);
  }

  /** The fallback text holds no `S`, so not the sentinel either. */
  lemma EmptyAnswerLacksSentinel(g: string)
    requires g == EMPTY_ANSWER
    ensures !Contains(g, SAFETY_SENTINEL)
  {
    forall i | 0 <= i < |g| ensures g[i] != 'S' {
    }
    NotContainsMissingChar(g, SAFETY_SENTINEL, 'S');
  }

  lemma OkNeverCarriesSentinel(content: Option<string>)
    requires ClassifyAnswer(content).status == OK
    ensures !Contains(ClassifyAnswer(content).body.text, SAFETY_SENTINEL)
  {
    var text := OrElse(content, "");
    if text == "" {
      EmptyAnswerLacksSentinel(EMPTY_ANSWER);
    }
  }
}
