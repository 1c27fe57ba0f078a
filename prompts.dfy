/** Grade classification for the lesson prompt (lib/prompts.ts): the
    educational level and the curriculum phase are read off the grade label by
    case-insensitive substring tests, and the level picks the prompt's intro
    and its level-specific rules. */
module Prompts {
  import opened Text

  datatype Level = Preescolar | Primaria | Secundaria

  /** A lower-cased grade names pre-school (`jardín` included). */
  predicate PreescolarWord(g: string)
  {
    Contains(g, "preescolar") || Contains(g, "kinder") || Contains(g, "jardín")
  }

  /** `detectEducationalLevel(grade)`. */
  function DetectEducationalLevel(grade: string): (level: Level)
    ensures level == Preescolar <==> PreescolarWord(ToLower(grade))
    ensures level == Secundaria <==>
      !PreescolarWord(ToLower(grade)) && Contains(ToLower(grade), "secundaria")
  {
    var g := ToLower(grade);
    if PreescolarWord(g) then Preescolar
    else if Contains(g, "secundaria") then Secundaria
    else Primaria
  }

  predicate FirstOrSecond(g: string)
  {
    Contains(g, "1°") || Contains(g, "2°") || Contains(g, "primero") || Contains(g, "segundo")
  }

  predicate ThirdOrFourth(g: string)
  {
    Contains(g, "3°") || Contains(g, "4°") || Contains(g, "tercero") || Contains(g, "cuarto")
  }

  predicate FifthOrSixth(g: string)
  {
    Contains(g, "5°") || Contains(g, "6°") || Contains(g, "quinto") || Contains(g, "sexto")
  }

  /** The phases `getPhase` can answer. */
  predicate IsPhase(p: string)
  {
    p in {"Fase 2", "Fase 3", "Fase 4", "Fase 5", "Fase 6"}
  }

  /** `getPhase(grade)`: always one of Fase 2 to Fase 6, and Fase 2 exactly
      for a label naming `preescolar` or `kinder`. */
  function GetPhase(grade: string): (phase: string)
    ensures IsPhase(phase)
    ensures phase == "Fase 2" <==> Contains(ToLower(grade), "preescolar") || Contains(ToLower(grade), "kinder")
  {
    var g := ToLower(grade);
    if Contains(g, "preescolar") || Contains(g, "kinder") then "Fase 2"
    else if FirstOrSecond(g) && Contains(g, "secundaria") then "Fase 6"
    else if FirstOrSecond(g) && Contains(g, "primaria") then "Fase 3"
    else if ThirdOrFourth(g) && Contains(g, "secundaria") then "Fase 6"
    else if ThirdOrFourth(g) && Contains(g, "primaria") then "Fase 4"
    else if FifthOrSixth(g) then "Fase 5"
    else if Contains(g, "secundaria") then "Fase 6"
    else "Fase 4"
  }

  /** Both classifiers only look at the lower-cased label: upper and lower case
      spellings classify alike. */
  lemma CaseInsensitive(grade: string)
    ensures DetectEducationalLevel(grade) == DetectEducationalLevel(ToLower(grade))
    ensures GetPhase(grade) == GetPhase(ToLower(grade))
  {
    ToLowerIdempotent(grade);
  }

  /** A pre-school word wins over `secundaria` in the same label. */
  lemma PreescolarWins(grade: string)
    requires PreescolarWord(ToLower(grade)) && Contains(ToLower(grade), "secundaria")
    ensures DetectEducationalLevel(grade) == Preescolar
  {
  }

  /** First to fourth grade: secondary school is Fase 6; primary school is
      Fase 3 for the first two grades and Fase 4 for the next two. */
  lemma GradePhases(grade: string)
    requires !Contains(ToLower(grade), "preescolar") && !Contains(ToLower(grade), "kinder")
    ensures var g := ToLower(grade);
      (FirstOrSecond(g) && Contains(g, "secundaria")) ==> GetPhase(grade) == "Fase 6"
    ensures var g := ToLower(grade);
      (FirstOrSecond(g) && !Contains(g, "secundaria") && Contains(g, "primaria")) ==>
      GetPhase(grade) == "Fase 3"
    ensures var g := ToLower(grade);
      (!FirstOrSecond(g) && ThirdOrFourth(g) && Contains(g, "secundaria")) ==>
      GetPhase(grade) == "Fase 6"
    ensures var g := ToLower(grade);
      (!FirstOrSecond(g) && ThirdOrFourth(g) && !Contains(g, "secundaria") && Contains(g, "primaria")) ==>
      GetPhase(grade) == "Fase 4"
  {
  }

  /** A grade word of the first four grades only decides the phase together
      with `primaria` or `secundaria`. */
  predicate LowerGradeRuleApplies(g: string)
  {
    (FirstOrSecond(g) || ThirdOrFourth(g)) && (Contains(g, "primaria") || Contains(g, "secundaria"))
  }

  /** Fifth or sixth grade is Fase 5 whatever the school, `5° Primaria`
      included, once no earlier rule applied. */
  lemma FifthSixthPhase(grade: string)
    requires !Contains(ToLower(grade), "preescolar") && !Contains(ToLower(grade), "kinder")
    requires !LowerGradeRuleApplies(ToLower(grade))
    requires FifthOrSixth(ToLower(grade))
    ensures GetPhase(grade) == "Fase 5"
  {
  }

  /** A label that no grade rule decides falls back on the school: Fase 6 for
      `secundaria`, Fase 4 otherwise. */
  lemma DefaultPhase(grade: string)
    requires !Contains(ToLower(grade), "preescolar") && !Contains(ToLower(grade), "kinder")
    requires !LowerGradeRuleApplies(ToLower(grade)) && !FifthOrSixth(ToLower(grade))
    ensures Contains(ToLower(grade), "secundaria") ==> GetPhase(grade) == "Fase 6"
    ensures !Contains(ToLower(grade), "secundaria") ==> GetPhase(grade) == "Fase 4"
  {
  }

  /** The app's own label style, `5° Primaria`, is Fase 5. */
  lemma FifthGradePrimary()
    ensures GetPhase(FIFTH_PRIMARY_LABEL) == "Fase 5"
  {
    var g := FIFTH_PRIMARY;
    LowerFifthPrimary();
    assert g[0..2] == "5°";
    ContainsAt(g, "5°", 0);
    FifthPrimaryOverLetters(g);
    FifthPrimaryNoEarlierWord(g);
  }

  /** The label the app's grade picker uses for fifth grade of primary school. */
  const FIFTH_PRIMARY_LABEL: string := "5° Primaria"
  const FIFTH_PRIMARY: string := "5° primaria"

  /** The letters "5° primaria" is made of. */
  const FIFTH_PRIMARY_LETTERS: set<char> := {'5', '°', ' ', 'p', 'r', 'i', 'm', 'a'}

  lemma LowerFifthPrimary()
    ensures ToLower(FIFTH_PRIMARY_LABEL) == FIFTH_PRIMARY
  {
    var s := FIFTH_PRIMARY_LABEL;
    assert LowerChar(s[3]) == 'p';
    forall i | 0 <= i < |s| && i != 3 ensures LowerChar(s[i]) == s[i] {}
  }

  lemma FifthPrimaryOverLetters(g: string)
    requires g == FIFTH_PRIMARY
    ensures OverLetters(g, FIFTH_PRIMARY_LETTERS)
  {
  }

  /** "5° primaria" holds no word an earlier rule of `getPhase` looks for. */
  lemma FifthPrimaryNoEarlierWord(g: string)
    requires OverLetters(g, FIFTH_PRIMARY_LETTERS)
    ensures !Contains(g, "preescolar") && !Contains(g, "kinder")
    ensures !FirstOrSecond(g) && !ThirdOrFourth(g)
  {
    var letters := FIFTH_PRIMARY_LETTERS;
    LacksLetter(g, letters, "preescolar", 'e');
    LacksLetter(g, letters, "kinder", 'k');
    LacksLetter(g, letters, "1°", '1');
    LacksLetter(g, letters, "2°", '2');
    LacksLetter(g, letters, "primero", 'e');
    LacksLetter(g, letters, "segundo", 's');
    LacksLetter(g, letters, "3°", '3');
    LacksLetter(g, letters, "4°", '4');
    LacksLetter(g, letters, "tercero", 't');
    LacksLetter(g, letters, "cuarto", 'c');
  }

  /** `jardín` makes the level pre-school but is not a Fase 2 trigger: a label
      with no other keyword lands on the default Fase 4. */
  lemma JardinLevelAndPhaseDisagree(grade: string)
    requires Contains(ToLower(grade), "jardín")
    requires !Contains(ToLower(grade), "preescolar") && !Contains(ToLower(grade), "kinder")
    requires !FirstOrSecond(ToLower(grade)) && !ThirdOrFourth(ToLower(grade))
    requires !FifthOrSixth(ToLower(grade)) && !Contains(ToLower(grade), "secundaria")
    ensures DetectEducationalLevel(grade) == Preescolar
    ensures GetPhase(grade) == "Fase 4"
  {
  }

  lemma LowerJardinDeNinos()
    ensures ToLower("Jardín de niños") == JARDIN_DE_NINOS
  {
    var s := "Jardín de niños";
    assert LowerChar(s[0]) == 'j';
    forall i | 1 <= i < |s| ensures LowerChar(s[i]) == s[i] {}
  }

  const JARDIN_DE_NINOS: string := "jardín de niños"

  /** The letters "jardín de niños" is made of. */
  const JARDIN_LETTERS: set<char> := {'j', 'a', 'r', 'd', 'í', 'n', ' ', 'e', 'i', 'ñ', 'o', 's'}

  /** Every character of `g` is one of `letters`. */
  predicate OverLetters(g: string, letters: set<char>)
  {
    forall i :: 0 <= i < |g| ==> g[i] in letters
  }

  lemma JardinOverLetters(g: string)
    requires g == JARDIN_DE_NINOS
    ensures OverLetters(g, JARDIN_LETTERS)
  {
  }

  /** A keyword holding a character outside a label's letters does not occur
      in the label. */
  lemma LacksLetter(g: string, letters: set<char>, t: string, c: char)
    requires OverLetters(g, letters) && c in t && c !in letters
    ensures !Contains(g, t)
  {
    forall i | 0 <= i < |g| ensures g[i] != c {
      assert g[i] in letters;
    }
    NotContainsMissingChar(g, t, c);
  }

  /** "jardín de niños" holds none of the other keywords. */
  lemma JardinDeNinosNoLevelWord(g: string)
    requires OverLetters(g, JARDIN_LETTERS)
    ensures !Contains(g, "preescolar") && !Contains(g, "kinder") && !Contains(g, "secundaria")
  {
    LacksLetter(g, JARDIN_LETTERS, "preescolar", 'p');
    LacksLetter(g, JARDIN_LETTERS, "kinder", 'k');
    LacksLetter(g, JARDIN_LETTERS, "secundaria", 'c');
  }

  lemma JardinDeNinosNoLowerGradeWord(g: string)
    requires OverLetters(g, JARDIN_LETTERS)
    ensures !FirstOrSecond(g)
  {
    LacksLetter(g, JARDIN_LETTERS, "1°", '1');
    LacksLetter(g, JARDIN_LETTERS, "2°", '2');
    LacksLetter(g, JARDIN_LETTERS, "primero", 'p');
    LacksLetter(g, JARDIN_LETTERS, "segundo", 'g');
  }

  lemma JardinDeNinosNoMiddleGradeWord(g: string)
    requires OverLetters(g, JARDIN_LETTERS)
    ensures !ThirdOrFourth(g)
  {
    LacksLetter(g, JARDIN_LETTERS, "3°", '3');
    LacksLetter(g, JARDIN_LETTERS, "4°", '4');
    LacksLetter(g, JARDIN_LETTERS, "tercero", 't');
    LacksLetter(g, JARDIN_LETTERS, "cuarto", 'c');
  }

  lemma JardinDeNinosNoUpperGradeWord(g: string)
    requires OverLetters(g, JARDIN_LETTERS)
    ensures !FifthOrSixth(g)
  {
    LacksLetter(g, JARDIN_LETTERS, "5°", '5');
    LacksLetter(g, JARDIN_LETTERS, "6°", '6');
    LacksLetter(g, JARDIN_LETTERS, "quinto", 'q');
    LacksLetter(g, JARDIN_LETTERS, "sexto", 'x');
  }

  /** The label "Jardín de niños" is such a label. */
  lemma JardinDeNinos()
    ensures DetectEducationalLevel("Jardín de niños") == Preescolar
    ensures GetPhase("Jardín de niños") == "Fase 4"
  {
    var g := JARDIN_DE_NINOS;
    LowerJardinDeNinos();
    assert g[0..6] == "jardín";
    ContainsAt(g, "jardín", 0);
    JardinOverLetters(g);
    JardinDeNinosNoLevelWord(g);
    JardinDeNinosNoLowerGradeWord(g);
    JardinDeNinosNoMiddleGradeWord(g);
    JardinDeNinosNoUpperGradeWord(g);
    JardinLevelAndPhaseDisagree("Jardín de niños");
  }

  /** The level-specific rules block of the prompt; its text is not modelled. */
  datatype Specifics = PreescolarSpecifics | PrimariaSpecifics | SecundariaSpecifics

  /** The head of the system prompt: the intro line and the rules block. */
  datatype PromptHead = PromptHead(intro: string, specifics: Specifics)

  function LevelName(level: Level): string
  {
    match level
    case Preescolar => "PREESCOLAR"
    case Primaria => "PRIMARIA"
    case Secundaria => "SECUNDARIA"
  }

  function IntroLine(name: string, phase: string): string
  {
    "Eres un asistente pedagógico experto en " + name + " (" + phase
      + ") bajo la Nueva Escuela Mexicana (Plan de Estudios 2022)."
  }

  /** The level switch of `buildSystemPrompt`: the rules block follows the
      detected level, and the intro names that level and embeds the phase. */
  function BuildPromptHead(grade: string): (h: PromptHead)
    ensures DetectEducationalLevel(grade) == Preescolar <==> h.specifics == PreescolarSpecifics
    ensures DetectEducationalLevel(grade) == Secundaria <==> h.specifics == SecundariaSpecifics
    ensures DetectEducationalLevel(grade) == Primaria <==> h.specifics == PrimariaSpecifics
    ensures Contains(h.intro, GetPhase(grade))
    ensures Contains(h.intro, LevelName(DetectEducationalLevel(grade)))
  {
    var level := DetectEducationalLevel(grade);
    var phase := GetPhase(grade);
    var name := LevelName(level);
    var specifics := match level
      case Preescolar => PreescolarSpecifics
      case Secundaria => SecundariaSpecifics
      case Primaria => PrimariaSpecifics;
    var pre := "Eres un asistente pedagógico experto en ";
    var post := ") bajo la Nueva Escuela Mexicana (Plan de Estudios 2022).";
    assert IntroLine(name, phase) == pre + name + (" (" + phase + post);
    ContainsInfix(pre, name, " (" + phase + post);
    assert IntroLine(name, phase) == (pre + name + " (") + phase + post;
    ContainsInfix(pre + name + " (", phase, post);
    PromptHead(IntroLine(name, phase), specifics)
  }
}
