/** The answer-style prompts: one base template with a `{context}` and a `{question}`
    slot, followed by a closing instruction chosen by persona. The longer texts are stored
    word by word and joined with single spaces, which gives back the same text. */
module Persona {
  import opened Text

  /** The sentence the model must give when the context lacks the answer. */
  const RefusalWords: seq<string> := [
    "🙁", "I'm", "afraid", "I", "don't", "have", "that", "info", "in", "the",
    "provided", "context."
  ]
  const RefusalPhrase: string := Join(" ", RefusalWords)

  const NoGuessWords: seq<string> := [
    "Do", "not", "guess", "or", "make", "up", "answers."
  ]
  const NoGuessPhrase: string := Join(" ", NoGuessWords)

  /** The first two lines of the base template, up to the quoted refusal sentence. */
  const IntroWords0: seq<string> := [
    "\n💬", "Hi", "there!", "Please", "help", "answer", "the", "user's", "question"
  ]
  const IntroWords1: seq<string> := [
    "based", "on", "the", "provided", "context", "below.", "", "\n📌", "If"
  ]
  const IntroWords2: seq<string> := [
    "the", "answer", "is", "not", "in", "the", "context,", "just", "say"
  ]
  const IntroWords: seq<string> := IntroWords0 + IntroWords1 + IntroWords2

  const ContextSlot: string := "{context}"
  const QuestionSlot: string := "{question}"

  const Intro: string := Join(" ", IntroWords) + " \""
  const Between: string := "\"  \n❌ "
  const ContextHeader: string := "  \n\n📄 Context:\n"

  /** The base template up to and including its "Context:" header. */
  const Preamble: string := Intro + RefusalPhrase + Between + NoGuessPhrase + ContextHeader

  const QuestionHeader: string := "\n\n❓ Question:\n"
  const AnswerHeader: string := "\n\n💡 Answer:\n"

  /** `base_template`. */
  const BaseTemplate: string := Preamble + ContextSlot + QuestionHeader + QuestionSlot + AnswerHeader

  const DefaultWords0: seq<string> := [
    "Please", "explain", "in", "a", "friendly", "and", "easy-to-understand", "way.", "You"
  ]
  const DefaultWords1: seq<string> := [
    "can", "also", "add", "tips", "or", "examples", "if", "it", "helps"
  ]
  const DefaultWords2: seq<string> := [
    "the", "user", "understand", "better.", "Thank", "you!", "🙏"
  ]
  const DefaultWords: seq<string> := DefaultWords0 + DefaultWords1 + DefaultWords2
  const DefaultSuffix: string := Join(" ", DefaultWords)

  const LawyerWords0: seq<string> := [
    "Analyze", "the", "information", "with", "legal", "precision", "and", "provide", "a"
  ]
  const LawyerWords1: seq<string> := [
    "structured,", "methodical", "response.", "Use", "legal", "terminology", "where", "appropriate", "and"
  ]
  const LawyerWords2: seq<string> := [
    "cite", "specific", "sections", "from", "the", "context.", "Break", "down", "complex"
  ]
  const LawyerWords3: seq<string> := [
    "concepts", "into", "clear,", "actionable", "points.", "🏛️"
  ]
  const LawyerWords: seq<string> := LawyerWords0 + LawyerWords1 + LawyerWords2 + LawyerWords3
  const LawyerSuffix: string := Join(" ", LawyerWords)

  const TeacherWords0: seq<string> := [
    "Explain", "the", "concepts", "in", "a", "clear,", "educational", "manner", "with"
  ]
  const TeacherWords1: seq<string> := [
    "relatable", "examples.", "Break", "down", "complex", "ideas", "into", "simpler", "parts"
  ]
  const TeacherWords2: seq<string> := [
    "and", "use", "analogies", "where", "helpful.", "Include", "key", "takeaways", "and"
  ]
  const TeacherWords3: seq<string> := [
    "encourage", "understanding", "through", "questions.", "📚"
  ]
  const TeacherWords: seq<string> := TeacherWords0 + TeacherWords1 + TeacherWords2 + TeacherWords3
  const TeacherSuffix: string := Join(" ", TeacherWords)

  const ResearcherWords0: seq<string> := [
    "Provide", "a", "detailed,", "analytical", "response", "with", "emphasis", "on", "methodology"
  ]
  const ResearcherWords1: seq<string> := [
    "and", "evidence.", "Highlight", "key", "findings,", "discuss", "implications,", "and", "maintain"
  ]
  const ResearcherWords2: seq<string> := [
    "an", "academic", "tone.", "Include", "relevant", "data", "points", "from", "the"
  ]
  const ResearcherWords3: seq<string> := [
    "context", "where", "applicable.", "🔬"
  ]
  const ResearcherWords: seq<string> := ResearcherWords0 + ResearcherWords1 + ResearcherWords2 + ResearcherWords3
  const ResearcherSuffix: string := Join(" ", ResearcherWords)

  const StudentWords0: seq<string> := [
    "Present", "the", "information", "in", "an", "easy-to-understand,", "engaging", "way.", "Use"
  ]
  const StudentWords1: seq<string> := [
    "simple", "language,", "include", "examples,", "and", "break", "down", "complex", "topics"
  ]
  const StudentWords2: seq<string> := [
    "into", "digestible", "pieces.", "Focus", "on", "practical", "applications", "and", "key"
  ]
  const StudentWords3: seq<string> := [
    "concepts.", "📝"
  ]
  const StudentWords: seq<string> := StudentWords0 + StudentWords1 + StudentWords2 + StudentWords3
  const StudentSuffix: string := Join(" ", StudentWords)

  /** `persona_templates`. */
  const PersonaTemplates: map<string, string> := map[
    "default" := BaseTemplate + DefaultSuffix,
    "lawyer" := BaseTemplate + LawyerSuffix,
    "teacher" := BaseTemplate + TeacherSuffix,
    "researcher" := BaseTemplate + ResearcherSuffix,
    "student" := BaseTemplate + StudentSuffix
  ]

  const Personas: set<string> := {"default", "lawyer", "teacher", "researcher", "student"}

  /** `get_persona_prompt(persona)`: the persona's template, or the default one for a
      persona it does not know. */
  function GetPersonaPrompt(persona: string): (p: string)
    ensures BaseTemplate <= p
    ensures persona !in Personas ==> p == PersonaTemplates["default"]
  {
    TemplateKeys();
    assert forall q :: q in PersonaTemplates ==> BaseTemplate <= PersonaTemplates[q];
    if persona in PersonaTemplates then PersonaTemplates[persona] else PersonaTemplates["default"]
  }

  /** The closing instruction of each persona, by cases. */
  function Suffix(persona: string): string
  {
    if persona == "lawyer" then LawyerSuffix
    else if persona == "teacher" then TeacherSuffix
    else if persona == "researcher" then ResearcherSuffix
    else if persona == "student" then StudentSuffix
    else DefaultSuffix
  }

  lemma TemplateKeys()
    ensures PersonaTemplates.Keys == Personas
  {
  }

  /** Every prompt is the base template followed by the persona's own instruction. */
  lemma PromptIsBasePlusSuffix(persona: string)
    ensures GetPersonaPrompt(persona) == BaseTemplate + Suffix(persona)
  {
    if persona == "lawyer" {
      assert PersonaTemplates[persona] == BaseTemplate + LawyerSuffix;
    } else if persona == "teacher" {
      assert PersonaTemplates[persona] == BaseTemplate + TeacherSuffix;
    } else if persona == "researcher" {
      assert PersonaTemplates[persona] == BaseTemplate + ResearcherSuffix;
    } else if persona == "student" {
      assert PersonaTemplates[persona] == BaseTemplate + StudentSuffix;
    } else {
      assert GetPersonaPrompt(persona) == BaseTemplate + DefaultSuffix;
    }
  }

  /** A persona outside the five gets the default template. */
  lemma UnknownPersonaGetsDefault(persona: string)
    requires persona !in Personas
    ensures GetPersonaPrompt(persona) == GetPersonaPrompt("default")
  {
    TemplateKeys();
  }

  /** The five templates are pairwise different: their instructions already differ in
      their first three characters. */
  lemma PersonasDistinct(p: string, q: string)
    requires p in Personas && q in Personas && p != q
    ensures GetPersonaPrompt(p) != GetPersonaPrompt(q)
  {
    PromptIsBasePlusSuffix(p);
    PromptIsBasePlusSuffix(q);
    SuffixFacts(p);
    SuffixFacts(q);
    OpeningsDistinct(p, q);
    DifferentTails(BaseTemplate, Suffix(p), Suffix(q));
  }

  lemma DifferentTails(b: string, s1: string, s2: string)
    requires |s1| >= 3 && |s2| >= 3 && s1[..3] != s2[..3]
    ensures b + s1 != b + s2
  {
    assert (b + s1)[|b|..|b| + 3] == s1[..3];
    assert (b + s2)[|b|..|b| + 3] == s2[..3];
  }

  /** The first three characters of each instruction. */
  function Opening(persona: string): string
  {
    if persona == "lawyer" then "Ana"
    else if persona == "teacher" then "Exp"
    else if persona == "researcher" then "Pro"
    else if persona == "student" then "Pre"
    else "Ple"
  }

  lemma OpeningsDistinct(p: string, q: string)
    requires p in Personas && q in Personas && p != q
    ensures Opening(p) != Opening(q)
  {
  }

  ghost predicate BraceFree(s: string)
  {
    '{' !in s
  }

  ghost predicate WordsBraceFree(ws: seq<string>)
  {
    forall i :: 0 <= i < |ws| ==> '{' !in ws[i]
  }

  /** What the proofs need of a closing instruction `Join(" ", ws)`: that it holds no brace
      and opens with `opening`. */
  lemma InstructionFacts(ws: seq<string>, opening: string)
    requires |ws| > 0 && WordsBraceFree(ws) && opening <= ws[0]
    ensures BraceFree(Join(" ", ws)) && opening <= Join(" ", ws)
  {
    JoinLacks(" ", ws, '{');
    JoinStartsWithFirst(" ", ws);
  }

  lemma WordsBraceFreeAppend(a: seq<string>, b: seq<string>)
    requires WordsBraceFree(a) && WordsBraceFree(b)
    ensures WordsBraceFree(a + b)
  {
    forall i | 0 <= i < |a + b| ensures '{' !in (a + b)[i] {
      if i >= |a| {
        assert (a + b)[i] == b[i - |a|];
      }
    }
  }

  lemma IntroWords0BraceFree()
    ensures WordsBraceFree(IntroWords0)
  {
  }

  lemma IntroWords1BraceFree()
    ensures WordsBraceFree(IntroWords1)
  {
  }

  lemma IntroWords2BraceFree()
    ensures WordsBraceFree(IntroWords2)
  {
  }

  lemma DefaultWords0BraceFree()
    ensures WordsBraceFree(DefaultWords0)
  {
  }

  lemma DefaultWords1BraceFree()
    ensures WordsBraceFree(DefaultWords1)
  {
  }

  lemma DefaultWords2BraceFree()
    ensures WordsBraceFree(DefaultWords2)
  {
  }

  lemma LawyerWords0BraceFree()
    ensures WordsBraceFree(LawyerWords0)
  {
  }

  lemma LawyerWords1BraceFree()
    ensures WordsBraceFree(LawyerWords1)
  {
  }

  lemma LawyerWords2BraceFree()
    ensures WordsBraceFree(LawyerWords2)
  {
  }

  lemma LawyerWords3BraceFree()
    ensures WordsBraceFree(LawyerWords3)
  {
  }

  lemma TeacherWords0BraceFree()
    ensures WordsBraceFree(TeacherWords0)
  {
  }

  lemma TeacherWords1BraceFree()
    ensures WordsBraceFree(TeacherWords1)
  {
  }

  lemma TeacherWords2BraceFree()
    ensures WordsBraceFree(TeacherWords2)
  {
  }

  lemma TeacherWords3BraceFree()
    ensures WordsBraceFree(TeacherWords3)
  {
  }

  lemma ResearcherWords0BraceFree()
    ensures WordsBraceFree(ResearcherWords0)
  {
  }

  lemma ResearcherWords1BraceFree()
    ensures WordsBraceFree(ResearcherWords1)
  {
  }

  lemma ResearcherWords2BraceFree()
    ensures WordsBraceFree(ResearcherWords2)
  {
  }

  lemma ResearcherWords3BraceFree()
    ensures WordsBraceFree(ResearcherWords3)
  {
  }

  lemma StudentWords0BraceFree()
    ensures WordsBraceFree(StudentWords0)
  {
  }

  lemma StudentWords1BraceFree()
    ensures WordsBraceFree(StudentWords1)
  {
  }

  lemma StudentWords2BraceFree()
    ensures WordsBraceFree(StudentWords2)
  {
  }

  lemma StudentWords3BraceFree()
    ensures WordsBraceFree(StudentWords3)
  {
  }

  lemma RefusalWordsBraceFree()
    ensures WordsBraceFree(RefusalWords)
  {
  }

  lemma NoGuessWordsBraceFree()
    ensures WordsBraceFree(NoGuessWords)
  {
  }

  lemma IntroWordsBraceFree()
    ensures WordsBraceFree(IntroWords)
  {
    IntroWords0BraceFree();
    IntroWords1BraceFree();
    IntroWords2BraceFree();
    WordsBraceFreeAppend(IntroWords0, IntroWords1);
    WordsBraceFreeAppend(IntroWords0 + IntroWords1, IntroWords2);
  }

  lemma DefaultFacts()
    ensures BraceFree(DefaultSuffix) && "Ple" <= DefaultSuffix
  {
    DefaultWords0BraceFree();
    DefaultWords1BraceFree();
    DefaultWords2BraceFree();
    WordsBraceFreeAppend(DefaultWords0, DefaultWords1);
    WordsBraceFreeAppend(DefaultWords0 + DefaultWords1, DefaultWords2);
    InstructionFacts(DefaultWords, "Ple");
  }

  lemma LawyerFacts()
    ensures BraceFree(LawyerSuffix) && "Ana" <= LawyerSuffix
  {
    LawyerWords0BraceFree();
    LawyerWords1BraceFree();
    LawyerWords2BraceFree();
    LawyerWords3BraceFree();
    WordsBraceFreeAppend(LawyerWords0, LawyerWords1);
    WordsBraceFreeAppend(LawyerWords0 + LawyerWords1, LawyerWords2);
    WordsBraceFreeAppend(LawyerWords0 + LawyerWords1 + LawyerWords2, LawyerWords3);
    InstructionFacts(LawyerWords, "Ana");
  }

  lemma TeacherFacts()
    ensures BraceFree(TeacherSuffix) && "Exp" <= TeacherSuffix
  {
    TeacherWords0BraceFree();
    TeacherWords1BraceFree();
    TeacherWords2BraceFree();
    TeacherWords3BraceFree();
    WordsBraceFreeAppend(TeacherWords0, TeacherWords1);
    WordsBraceFreeAppend(TeacherWords0 + TeacherWords1, TeacherWords2);
    WordsBraceFreeAppend(TeacherWords0 + TeacherWords1 + TeacherWords2, TeacherWords3);
    InstructionFacts(TeacherWords, "Exp");
  }

  lemma ResearcherFacts()
    ensures BraceFree(ResearcherSuffix) && "Pro" <= ResearcherSuffix
  {
    ResearcherWords0BraceFree();
    ResearcherWords1BraceFree();
    ResearcherWords2BraceFree();
    ResearcherWords3BraceFree();
    WordsBraceFreeAppend(ResearcherWords0, ResearcherWords1);
    WordsBraceFreeAppend(ResearcherWords0 + ResearcherWords1, ResearcherWords2);
    WordsBraceFreeAppend(ResearcherWords0 + ResearcherWords1 + ResearcherWords2, ResearcherWords3);
    InstructionFacts(ResearcherWords, "Pro");
  }

  lemma StudentFacts()
    ensures BraceFree(StudentSuffix) && "Pre" <= StudentSuffix
  {
    StudentWords0BraceFree();
    StudentWords1BraceFree();
    StudentWords2BraceFree();
    StudentWords3BraceFree();
    WordsBraceFreeAppend(StudentWords0, StudentWords1);
    WordsBraceFreeAppend(StudentWords0 + StudentWords1, StudentWords2);
    WordsBraceFreeAppend(StudentWords0 + StudentWords1 + StudentWords2, StudentWords3);
    InstructionFacts(StudentWords, "Pre");
  }

  /** No persona's instruction holds a brace, and each opens with its `Opening`. */
  lemma SuffixFacts(persona: string)
    ensures BraceFree(Suffix(persona))
    ensures |Suffix(persona)| >= 3 && Suffix(persona)[..3] == Opening(persona)
  {
    if persona == "lawyer" {
      LawyerFacts();
    } else if persona == "teacher" {
      TeacherFacts();
    } else if persona == "researcher" {
      ResearcherFacts();
    } else if persona == "student" {
      StudentFacts();
    } else {
      DefaultFacts();
    }
  }

  /** The fixed texts around the two slots hold no brace. */
  lemma PreambleBraceFree()
    ensures BraceFree(Preamble) && BraceFree(QuestionHeader) && BraceFree(AnswerHeader)
  {
    RefusalWordsBraceFree();
    JoinLacks(" ", RefusalWords, '{');
    NoGuessWordsBraceFree();
    JoinLacks(" ", NoGuessWords, '{');
    IntroWordsBraceFree();
    JoinLacks(" ", IntroWords, '{');
  }

  /** Where the slots start in every template. */
  const ContextAt: nat := |Preamble|
  const QuestionAt: nat := |Preamble| + |ContextSlot| + |QuestionHeader|

  /** In `a + k1 + b + k2 + c + d`, where `a`, `b`, `c`, `d` hold no brace and each slot
      starts with its only brace, the slots sit at `|a|` and `|a| + |k1| + |b|` and the
      braces are exactly their first characters. */
  lemma SlotShape(a: string, k1: string, b: string, k2: string, c: string, d: string)
    requires BraceFree(a) && BraceFree(b) && BraceFree(c) && BraceFree(d)
    requires |k1| > 0 && k1[0] == '{' && BraceFree(k1[1..])
    requires |k2| > 0 && k2[0] == '{' && BraceFree(k2[1..])
    ensures var s, i1, i2 := a + k1 + b + k2 + c + d, |a|, |a| + |k1| + |b|;
      && OccursAt(s, k1, i1) && OccursAt(s, k2, i2) && i1 < i2
      && forall i :: 0 <= i < |s| && s[i] == '{' ==> i == i1 || i == i2
  {
    var s := a + k1 + b + k2 + c + d;
    var j1, j2 := |a| + |k1|, |a| + |k1| + |b|;
    assert s[|a|..j1] == k1;
    assert s[j2..j2 + |k2|] == k2;
    forall i | 0 <= i < |s| && s[i] == '{' ensures i == |a| || i == j2 {
    }
  }

  /** Each template has `{context}` at `ContextAt` and `{question}` at `QuestionAt`,
      the context slot first, and no other brace: the persona instruction adds no slot. */
  lemma PromptSlots(persona: string)
    ensures var t := GetPersonaPrompt(persona);
      && OccursAt(t, ContextSlot, ContextAt)
      && OccursAt(t, QuestionSlot, QuestionAt)
      && ContextAt < QuestionAt
      && forall i :: 0 <= i < |t| && t[i] == '{' ==> i == ContextAt || i == QuestionAt
  {
    PromptIsBasePlusSuffix(persona);
    PreambleBraceFree();
    SuffixFacts(persona);
    SlotShape(Preamble, ContextSlot, QuestionHeader, QuestionSlot, AnswerHeader, Suffix(persona));
  }

  /** Two slots that are the only places of a brace in `s`, and whose second characters
      differ, each occur only where they are. */
  lemma OnlyOccurrences(s: string, k1: string, i1: int, k2: string, i2: int)
    requires OccursAt(s, k1, i1) && OccursAt(s, k2, i2)
    requires |k1| > 1 && |k2| > 1 && k1[0] == '{' && k2[0] == '{' && k1[1] != k2[1]
    requires forall i :: 0 <= i < |s| && s[i] == '{' ==> i == i1 || i == i2
    ensures forall i :: OccursAt(s, k1, i) <==> i == i1
    ensures forall i :: OccursAt(s, k2, i) <==> i == i2
  {
    forall i | OccursAt(s, k1, i) ensures i == i1 {
      assert s[i] == k1[0] && s[i + 1] == k1[1];
      assert s[i2 + 1] == k2[1];
    }
    forall i | OccursAt(s, k2, i) ensures i == i2 {
      assert s[i] == k2[0] && s[i + 1] == k2[1];
      assert s[i1 + 1] == k1[1];
    }
  }

  /** Hence each slot occurs exactly once. */
  lemma SlotsOccurOnce(persona: string)
    ensures var t := GetPersonaPrompt(persona);
      && (forall i :: OccursAt(t, ContextSlot, i) <==> i == ContextAt)
      && (forall i :: OccursAt(t, QuestionSlot, i) <==> i == QuestionAt)
  {
    PromptSlots(persona);
    assert ContextSlot[1] == 'c' && QuestionSlot[1] == 'q';
    OnlyOccurrences(GetPersonaPrompt(persona), ContextSlot, ContextAt, QuestionSlot, QuestionAt);
  }

  /** Every template keeps the refusal sentence and the instruction not to guess. */
  lemma PromptKeepsInstructions(persona: string)
    ensures Contains(GetPersonaPrompt(persona), RefusalPhrase)
    ensures Contains(GetPersonaPrompt(persona), NoGuessPhrase)
  {
    PromptIsBasePlusSuffix(persona);
    PartsContained(Intro, RefusalPhrase, Between, NoGuessPhrase, ContextHeader);
    PrefixContained(Preamble, ContextSlot, QuestionHeader, QuestionSlot, AnswerHeader, Suffix(persona));
    ContainsTransitive(GetPersonaPrompt(persona), Preamble, RefusalPhrase);
    ContainsTransitive(GetPersonaPrompt(persona), Preamble, NoGuessPhrase);
  }

  lemma PartsContained(a: string, b: string, c: string, d: string, e: string)
    ensures Contains(a + b + c + d + e, b) && Contains(a + b + c + d + e, d)
  {
    assert a + b + c + d + e == a + b + (c + d + e);
    ContainsInfix(a, b, c + d + e);
    assert a + b + c + d + e == (a + b + c) + d + e;
    ContainsInfix(a + b + c, d, e);
  }

  lemma PrefixContained(a: string, b: string, c: string, d: string, e: string, f: string)
    ensures Contains(a + b + c + d + e + f, a)
  {
    assert a + b + c + d + e + f == "" + a + (b + c + d + e + f);
    ContainsInfix("", a, b + c + d + e + f);
  }
}
