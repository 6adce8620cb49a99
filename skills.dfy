/** The skill pass of the engine: `extractAndMatchSkills` and the per-skill
    helpers it calls (lib/analysis-engine.ts:35-182). The texts it receives are
    already lower-cased. */
module Skills {
  import opened Strings
  import opened Seqs
  import opened Numbers
  import opened Types

  /** The skill vocabulary, in the order the engine scans it, one group per
      line of the source's list. */
  const CommonSkills: seq<Term> :=
    LanguageSkills + ToolingSkills + DataApiSkills + FrameworkSkills
    + ProductDesignSkills + ResearchSkills + DataScienceSkills + OpsSkills

  const LanguageSkills: seq<Term> := ["javascript", "typescript", "react", "node.js", "python", "java", "sql"]
  const ToolingSkills: seq<Term> := ["aws", "docker", "kubernetes", "git", "agile", "scrum", "html", "css"]
  const DataApiSkills: seq<Term> := ["mongodb", "postgresql", "redis", "graphql", "rest api", "microservices"]
  const FrameworkSkills: seq<Term> := ["vue.js", "angular", "express", "django", "flask", "spring boot"]
  const ProductDesignSkills: seq<Term> := ["product management", "ux design", "ui design", "figma", "sketch"]
  const ResearchSkills: seq<Term> := ["user research", "prototyping", "wireframing", "a/b testing"]
  const DataScienceSkills: seq<Term> := ["data analysis", "machine learning", "artificial intelligence"]
  const OpsSkills: seq<Term> := ["devops", "ci/cd", "jenkins", "terraform", "ansible"]

  /** The words whose presence near a skill in the résumé earns the experience bonus. */
  const ExperienceKeywords: seq<string> := ["senior", "lead", "expert", "advanced", "years", "experience"]

  predicate Present(skill: string, resumeText: string, jdText: string) {
    Includes(resumeText, skill) || Includes(jdText, skill)
  }

  /** `getSkillContext`: up to 100 characters either side of the first
      occurrence of `skill`, or "" when `text` does not contain it. */
  function SkillContext(skill: string, text: string): (w: string)
    ensures !Includes(text, skill) ==> w == []
    ensures Includes(text, skill) ==> Includes(text, w) && Includes(w, skill) && |w| <= |skill| + 200
    ensures skill != [] ==> (w == [] <==> !Includes(text, skill))
  {
    var idx := IndexOf(text, skill);
    if idx == -1 then []
    else
      var start := Max(0, idx - 100);
      var end := Min(|text|, idx + |skill| + 100);
      WindowHoldsSkill(text, skill, idx, start, end);
      text[start..end]
  }

  /** The window starts up to 100 characters before the first occurrence of
      `skill` and ends up to 100 characters after it, clipped at the ends of
      `text`. */
  lemma ContextWindow(skill: string, text: string)
    requires Includes(text, skill)
    ensures var idx, w := IndexOf(text, skill), SkillContext(skill, text);
            && OccursAt(text, skill, idx)
            && (forall i :: 0 <= i < idx ==> !OccursAt(text, skill, i))
            && OccursAt(text, w, idx - Min(100, idx))
            && |w| == Min(100, idx) + |skill| + Min(100, |text| - idx - |skill|)
  {
  }

  lemma WindowHoldsSkill(text: string, skill: string, idx: int, start: int, end: int)
    requires OccursAt(text, skill, idx) && 0 <= start <= idx && idx + |skill| <= end <= |text|
    ensures Includes(text, text[start..end]) && Includes(text[start..end], skill)
  {
    SliceIncluded(text, start, end);
    var w := text[start..end];
    forall m | 0 <= m < |skill| ensures w[idx - start + m] == skill[m] {
      assert text[idx..idx + |skill|][m] == skill[m];
    }
    assert w[idx - start..idx - start + |skill|] == skill;
    assert OccursAt(w, skill, idx - start);
  }

  /** `context.split(/\s+/).filter(word => word.length > 3)`. */
  function LongWords(context: string): seq<string> {
    Filter(Split(context, IsSpace), w => |w| > 3)
  }

  /** `words1.filter(word => words2.includes(word)).length`. */
  function CommonWordCount(words1: seq<string>, words2: seq<string>): (n: nat)
    ensures n <= |words1|
  {
    |Filter(words1, w => w in words2)|
  }

  /** `calculateContextSimilarity` with its 0/0 guarded: when neither window has a
      word longer than 3 characters the similarity is 0 (the source yields NaN;
      see ContextSimilarityAsWritten). Otherwise it is 30 times the share of
      common words, rounded half up. */
  function ContextSimilarity(context1: string, context2: string): (r: int)
    ensures 0 <= r <= 30
    ensures var w1, w2 := LongWords(context1), LongWords(context2);
            var m, c := Max(|w1|, |w2|), CommonWordCount(w1, w2);
            (m == 0 ==> r == 0) &&
            (m > 0 ==> 2 * m * r <= 60 * c + m < 2 * m * r + 2 * m) &&
            (c == 0 ==> r == 0)
  {
    var w1, w2 := LongWords(context1), LongWords(context2);
    var m := Max(|w1|, |w2|);
    var c := CommonWordCount(w1, w2);
    if m == 0 then 0
    else
      RoundDivBounds(30 * c, m, 0, if c == 0 then 0 else 30);
      RoundDiv(30 * c, m)
  }

  /** `calculateContextSimilarity` exactly as written: `None` stands for the NaN
      that `0 / Math.max(0, 0)` produces. */
  function ContextSimilarityAsWritten(context1: string, context2: string): (r: Option<int>)
    ensures r.None? <==> |LongWords(context1)| == 0 && |LongWords(context2)| == 0
    ensures r.Some? ==> r.value == ContextSimilarity(context1, context2)
  {
    var w1, w2 := LongWords(context1), LongWords(context2);
    var m := Max(|w1|, |w2|);
    if m == 0 then None else Some(RoundDiv(30 * CommonWordCount(w1, w2), m))
  }

  /** A résumé "aws" against a job description "aws": both windows are "aws", no
      word is longer than 3 characters, and the source's similarity is NaN. */
  lemma SimilarityUndefinedForAws()
    ensures SkillContext("aws", "aws") == "aws"
    ensures ContextSimilarityAsWritten(SkillContext("aws", "aws"), SkillContext("aws", "aws")).None?
  {
    assert OccursAt("aws", "aws", 0);
    assert NoneSatisfy("aws", IsSpace);
    var ws := LongWords("aws");
    assert Split("aws", IsSpace) == ["aws"];
    assert |ws| == 0;
  }

  /** A window compared with itself scores the full 30. */
  lemma {:induction false} SimilarityOfIdenticalWindows(context: string)
    requires |LongWords(context)| > 0
    ensures ContextSimilarity(context, context) == 30
  {
    var w := LongWords(context);
    FilterKeepsAll(w, x => x in w);
    RoundDivBounds(30 * |w|, |w|, 30, 30);
  }

  /** `experienceKeywords.some(keyword => text.includes(keyword))`. */
  function IncludesAny(text: string, keys: seq<string>): (b: bool)
    ensures b <==> exists i :: 0 <= i < |keys| && Includes(text, keys[i])
  {
    Find(keys, k => Includes(text, k)).Some?
  }

  /** `getExperienceBonus`: 10 when an experience word stands near the skill in the résumé. */
  function ExperienceBonus(skill: string, resumeText: string): (b: int)
    ensures b == 0 || b == 10
    ensures b == 10 <==> exists i :: 0 <= i < |ExperienceKeywords|
                                      && Includes(SkillContext(skill, resumeText), ExperienceKeywords[i])
  {
    if IncludesAny(SkillContext(skill, resumeText), ExperienceKeywords) then 10 else 0
  }

  /** `calculateSkillScore`. When the skill is in both texts the cap at 100 never binds. */
  function SkillScore(skill: string, resumeText: string, jdText: string): (score: int)
    ensures 0 <= score <= 100
    ensures !Includes(resumeText, skill) ==> score == 0
    ensures Includes(resumeText, skill) && !Includes(jdText, skill) ==> score == 30
    ensures Includes(resumeText, skill) && Includes(jdText, skill) ==>
              60 <= score <= 100 &&
              score - 60 - ExperienceBonus(skill, resumeText)
                == ContextSimilarity(SkillContext(skill, resumeText), SkillContext(skill, jdText))
  {
    var inResume := Includes(resumeText, skill);
    var inJD := Includes(jdText, skill);
    if !inResume && !inJD then 0
    else if !inResume && inJD then 0
    else if inResume && !inJD then 30
    else
      var similarity := ContextSimilarity(SkillContext(skill, resumeText), SkillContext(skill, jdText));
      var bonus := ExperienceBonus(skill, resumeText);
      Min(100, 60 + similarity + bonus)
  }

  /** The sentence test of `extractEvidence` and `extractJobRequirement`. */
  predicate Relevant(skill: string, sentence: string) {
    Includes(ToLower(sentence), skill) && |sentence| > 20
  }

  /** The `[.!?]`-delimited pieces of the skill's window. */
  function Sentences(skill: string, text: string): seq<string> {
    Split(SkillContext(skill, text), IsTerminator)
  }

  /** `pieces[i]` is the first relevant piece. */
  ghost predicate FirstRelevant(skill: string, pieces: seq<string>, i: int) {
    0 <= i < |pieces| && Relevant(skill, pieces[i])
    && forall j :: 0 <= j < i ==> !Relevant(skill, pieces[j])
  }

  /** The shared body of `extractEvidence` and `extractJobRequirement`: the first
      `[.!?]`-delimited piece of the skill's window that mentions the skill and is
      longer than 20 characters, trimmed; `fallback` when there is none or when it
      trims to nothing. */
  function RelevantSnippet(skill: string, text: string, fallback: string): (r: string)
    ensures skill != [] && !Includes(text, skill) ==> r == fallback
    ensures (forall i :: 0 <= i < |Sentences(skill, text)| ==> !Relevant(skill, Sentences(skill, text)[i]))
              ==> r == fallback
    ensures forall i :: FirstRelevant(skill, Sentences(skill, text), i) ==>
              r == if Trim(Sentences(skill, text)[i]) == [] then fallback else Trim(Sentences(skill, text)[i])
    ensures r == fallback || (Includes(text, r) && |r| <= |skill| + 200 && r != []
                              && NoneSatisfy(r, IsTerminator) && r == Trim(r))
    ensures IsLower(text) && IsTerm(skill) ==> r == fallback || Includes(r, skill)
    ensures IsLower(text) && IsTerm(skill) ==>
              forall i :: FirstRelevant(skill, Sentences(skill, text), i) ==> r == Trim(Sentences(skill, text)[i])
  {
    var r := FirstSnippet(skill, Sentences(skill, text), fallback);
    SnippetOfWindow(skill, text, fallback, r);
    r
  }

  /** The first relevant piece of `pieces`, trimmed, or `fallback`. */
  function FirstSnippet(skill: string, pieces: seq<string>, fallback: string): (r: string)
    ensures (forall i :: 0 <= i < |pieces| ==> !Relevant(skill, pieces[i])) ==> r == fallback
    ensures forall i :: FirstRelevant(skill, pieces, i) ==>
              r == if Trim(pieces[i]) == [] then fallback else Trim(pieces[i])
    ensures r == fallback || exists i :: FirstRelevant(skill, pieces, i) && r == Trim(pieces[i])
  {
    match Find(pieces, s => Relevant(skill, s))
    case None => fallback
    case Some(s) =>
      FirstIsUnique(skill, pieces, s);
      if Trim(s) == [] then fallback else Trim(s)
  }

  /** What the first relevant piece of the skill's window is like. */
  lemma SnippetOfWindow(skill: string, text: string, fallback: string, r: string)
    requires r == FirstSnippet(skill, Sentences(skill, text), fallback)
    ensures skill != [] && !Includes(text, skill) ==> r == fallback
    ensures r == fallback || (Includes(text, r) && |r| <= |skill| + 200 && r != []
                              && NoneSatisfy(r, IsTerminator) && r == Trim(r))
    ensures IsLower(text) && IsTerm(skill) ==> r == fallback || Includes(r, skill)
    ensures IsLower(text) && IsTerm(skill) ==>
              forall i :: FirstRelevant(skill, Sentences(skill, text), i) ==> r == Trim(Sentences(skill, text)[i])
  {
    var pieces := Sentences(skill, text);
    if r != fallback {
      var i :| FirstRelevant(skill, pieces, i) && r == Trim(pieces[i]);
      SnippetFacts(skill, text, pieces[i]);
    }
    if IsLower(text) && IsTerm(skill) {
      forall i | FirstRelevant(skill, pieces, i) ensures r == Trim(pieces[i]) {
        SnippetFacts(skill, text, pieces[i]);
      }
    }
  }

  /** Find's answer is the piece at the one first-relevant index. */
  lemma FirstIsUnique(skill: string, pieces: seq<string>, s: string)
    requires exists i :: FirstRelevant(skill, pieces, i) && pieces[i] == s
    ensures forall i :: FirstRelevant(skill, pieces, i) ==> pieces[i] == s
  {
    var k :| FirstRelevant(skill, pieces, k) && pieces[k] == s;
    forall i | FirstRelevant(skill, pieces, i) ensures pieces[i] == s {
      assert i == k;
    }
  }

  lemma SnippetFacts(skill: string, text: string, s: string)
    requires s in Sentences(skill, text) && Relevant(skill, s)
    ensures Includes(text, Trim(s)) && |Trim(s)| <= |skill| + 200
    ensures NoneSatisfy(Trim(s), IsTerminator) && Trim(s) == Trim(Trim(s))
    ensures IsLower(text) && IsTerm(skill) ==> Includes(Trim(s), skill) && Trim(s) != []
    ensures skill != [] ==> Includes(text, skill)
  {
    var w := SkillContext(skill, text);
    var t := Trim(s);
    assert Includes(w, s) && NoneSatisfy(s, IsTerminator);
    assert w != [] by {
      var j :| OccursAt(w, s, j);
    }
    IncludesTrans(text, w, s);
    IncludesTrans(text, s, t);
    NoneSatisfySubstring(s, t, IsTerminator);
    TrimTrimmed(t);
    assert |t| <= |s| by {
      var j :| OccursAt(s, t, j);
    }
    if IsLower(text) && IsTerm(skill) {
      LowerSubstring(text, s);
      LowerFixed(s);
      TrimKeepsTerm(s, skill);
      var j :| OccursAt(t, skill, j);
    }
  }

  /** A string with no white space at either end is its own trim. */
  lemma TrimTrimmed(t: string)
    requires t != [] ==> !IsSpace(t[0]) && !IsSpace(t[|t| - 1])
    ensures Trim(t) == t
  {
  }

  /** `extractEvidence`: the first relevant piece of the skill's window in the
      résumé, trimmed, or a stock sentence naming the skill. */
  function Evidence(skill: string, resumeText: string): (r: string)
    ensures (forall i :: 0 <= i < |Sentences(skill, resumeText)| ==> !Relevant(skill, Sentences(skill, resumeText)[i]))
              ==> r == EvidenceFallback(skill)
    ensures IsLower(resumeText) && IsTerm(skill) ==>
              forall i :: FirstRelevant(skill, Sentences(skill, resumeText), i) ==> r == Trim(Sentences(skill, resumeText)[i])
    ensures r == EvidenceFallback(skill) || (Includes(resumeText, r) && |r| <= |skill| + 200)
    ensures IsLower(resumeText) && IsTerm(skill) ==> r == EvidenceFallback(skill) || Includes(r, skill)
  {
    RelevantSnippet(skill, resumeText, EvidenceFallback(skill))
  }

  function EvidenceFallback(skill: string): string {
    "Experience with " + skill + " mentioned in resume"
  }

  /** `extractJobRequirement`: the first relevant piece of the skill's window in
      the job description, trimmed, or a stock sentence naming the skill. */
  function JobRequirement(skill: string, jdText: string): (r: string)
    ensures (forall i :: 0 <= i < |Sentences(skill, jdText)| ==> !Relevant(skill, Sentences(skill, jdText)[i]))
              ==> r == RequirementFallback(skill)
    ensures IsLower(jdText) && IsTerm(skill) ==>
              forall i :: FirstRelevant(skill, Sentences(skill, jdText), i) ==> r == Trim(Sentences(skill, jdText)[i])
    ensures r == RequirementFallback(skill) || (Includes(jdText, r) && |r| <= |skill| + 200)
    ensures IsLower(jdText) && IsTerm(skill) ==> r == RequirementFallback(skill) || Includes(r, skill)
  {
    RelevantSnippet(skill, jdText, RequirementFallback(skill))
  }

  function RequirementFallback(skill: string): string {
    skill + " required for this position"
  }

  /** `determineExperienceLevel`: Senior when the skill's window in the résumé
      says "senior", "lead" or "expert"; otherwise Intermediate when it says
      "years" or "experience"; otherwise Junior. Any level above Junior comes
      with the experience bonus; a Junior skill earns it only through "advanced". */
  function ExperienceLevelOf(skill: string, resumeText: string): (level: ExperienceLevel)
    ensures var c := SkillContext(skill, resumeText);
            var lead := Includes(c, "senior") || Includes(c, "lead") || Includes(c, "expert");
            var seasoned := Includes(c, "years") || Includes(c, "experience");
            && (level == Senior <==> lead)
            && (level == Intermediate <==> !lead && seasoned)
            && (level == Junior <==> !lead && !seasoned)
    ensures level != Junior ==> ExperienceBonus(skill, resumeText) == 10
    ensures level == Junior ==>
              (ExperienceBonus(skill, resumeText) == 10 <==> Includes(SkillContext(skill, resumeText), "advanced"))
  {
    var context := SkillContext(skill, resumeText);
    LevelAgreesWithBonus(skill, resumeText);
    if Includes(context, "senior") || Includes(context, "lead") || Includes(context, "expert") then Senior
    else if Includes(context, "years") || Includes(context, "experience") then Intermediate
    else Junior
  }

  lemma LevelAgreesWithBonus(skill: string, resumeText: string)
    ensures var c := SkillContext(skill, resumeText);
            ExperienceBonus(skill, resumeText) == 10 <==>
              Includes(c, "senior") || Includes(c, "lead") || Includes(c, "expert")
              || Includes(c, "advanced") || Includes(c, "years") || Includes(c, "experience")
  {
    var c := SkillContext(skill, resumeText);
    var e := ExperienceKeywords;
    assert e[0] == "senior" && e[1] == "lead" && e[2] == "expert";
    assert e[3] == "advanced" && e[4] == "years" && e[5] == "experience";
  }

  /** `generateSkillSuggestions` as a value: two prompts to add a skill found only
      in the job description, three prompts to deepen a shared skill scoring
      below 70, nothing otherwise. */
  function SkillSuggestions(skill: string, score: int, inResume: bool, inJD: bool): (r: seq<string>)
    ensures |r| == 2 <==> !inResume && inJD
    ensures |r| == 3 <==> inResume && inJD && score < 70
    ensures r == [] <==> !(!inResume && inJD) && !(inResume && inJD && score < 70)
  {
    if !inResume && inJD then
      [ConsiderLead + skill + ConsiderTail, HighlightLead + skill]
    else if score < 70 && inResume && inJD then
      [ExamplesLead + skill + ExamplesTail, QuantifyLead + skill, ScaleLead + skill + ScaleTail]
    else []
  }

  /** Every suggestion names the skill. */
  lemma SuggestionsNameSkill(skill: string, score: int, inResume: bool, inJD: bool)
    ensures forall k :: 0 <= k < |SkillSuggestions(skill, score, inResume, inJD)| ==>
              Includes(SkillSuggestions(skill, score, inResume, inJD)[k], skill)
  {
    var r := SkillSuggestions(skill, score, inResume, inJD);
    if !inResume && inJD {
      IncludesMiddle(ConsiderLead, skill, ConsiderTail);
      IncludesMiddle(HighlightLead, skill, []);
      assert HighlightLead + skill + [] == r[1];
    } else if score < 70 && inResume && inJD {
      IncludesMiddle(ExamplesLead, skill, ExamplesTail);
      IncludesMiddle(QuantifyLead, skill, []);
      assert QuantifyLead + skill + [] == r[1];
      IncludesMiddle(ScaleLead, skill, ScaleTail);
    }
  }

  // The fixed parts of the five suggestion templates.
  const ConsiderLead := "Consider adding "
  const ConsiderTail := " experience to your resume"
  const HighlightLead := "Highlight any projects or coursework involving "
  const ExamplesLead := "Provide more specific examples of "
  const ExamplesTail := " usage"
  const QuantifyLead := "Quantify your achievements with "
  const ScaleLead := "Mention the scale or complexity of "
  const ScaleTail := " projects"

  /** `generateSkillSuggestions`, pushing one prompt at a time. */
  method GenerateSkillSuggestions(skill: string, score: int, inResume: bool, inJD: bool)
    returns (suggestions: seq<string>)
    ensures suggestions == SkillSuggestions(skill, score, inResume, inJD)
  {
    suggestions := [];
    if !inResume && inJD {
      suggestions := suggestions + [ConsiderLead + skill + ConsiderTail];
      suggestions := suggestions + [HighlightLead + skill];
    } else if score < 70 && inResume && inJD {
      suggestions := suggestions + [ExamplesLead + skill + ExamplesTail];
      suggestions := suggestions + [QuantifyLead + skill];
      suggestions := suggestions + [ScaleLead + skill + ScaleTail];
    }
  }

  const RelatedKeywordTable: map<string, seq<string>> := map[
    "javascript" := ["ES6", "Node.js", "npm", "webpack", "babel"],
    "react" := ["JSX", "Redux", "hooks", "components", "Next.js"],
    "python" := ["Django", "Flask", "pandas", "numpy", "pip"],
    "aws" := ["EC2", "S3", "Lambda", "RDS", "CloudFormation"],
    "docker" := ["containers", "Kubernetes", "microservices", "DevOps"],
    "sql" := ["PostgreSQL", "MySQL", "database", "queries", "optimization"]
  ]

  /** `getRelatedKeywords`: the table entry of the lower-cased skill, or []. */
  function RelatedKeywords(skill: string): (r: seq<string>)
    ensures r != [] <==> ToLower(skill) in RelatedKeywordTable
    ensures ToLower(skill) in RelatedKeywordTable ==> r == RelatedKeywordTable[ToLower(skill)]
    ensures |r| <= 5
  {
    if ToLower(skill) in RelatedKeywordTable then RelatedKeywordTable[ToLower(skill)] else []
  }

  /** The table knows exactly six skills, and the lookup ignores case. */
  lemma RelatedKeywordKeys()
    ensures RelatedKeywordTable.Keys == {"javascript", "react", "python", "aws", "docker", "sql"}
    ensures RelatedKeywords("React") == ["JSX", "Redux", "hooks", "components", "Next.js"]
    ensures RelatedKeywords("Go") == []
  {
    assert ToLower("React") == "react";
    assert ToLower("Go") == "go";
  }

  function RelevanceOf(score: int): Band {
    if score >= 70 then High else if score >= 40 then Medium else Low
  }

  function KeywordMatchOf(inResume: bool, inJD: bool): int {
    if inResume && inJD then 100 else if inResume then 50 else 0
  }

  /** The record `extractAndMatchSkills` pushes for one skill. */
  function BuildMatch(skill: string, resumeText: string, jdText: string): SkillMatch {
    var score := SkillScore(skill, resumeText, jdText);
    RecordWith(skill, resumeText, jdText,
               SkillSuggestions(skill, score, Includes(resumeText, skill), Includes(jdText, skill)))
  }

  /** The fields of that record around its list of suggestions. */
  function RecordWith(skill: string, resumeText: string, jdText: string, suggestions: seq<string>): SkillMatch {
    var score := SkillScore(skill, resumeText, jdText);
    SkillMatch(
      Capitalize(skill),
      score,
      RelevanceOf(score),
      Evidence(skill, resumeText),
      JobRequirement(skill, jdText),
      KeywordMatchOf(Includes(resumeText, skill), Includes(jdText, skill)),
      score,
      ExperienceLevelOf(skill, resumeText),
      suggestions,
      RelatedKeywords(skill))
  }

  /** What a pushed record says about its skill: the score bounds, the relevance
      band it falls in, the keyword match that agrees with where the skill was
      found, and a capitalised name that lower-cases back to the skill. */
  lemma BuildMatchFacts(skill: string, resumeText: string, jdText: string)
    ensures var m := BuildMatch(skill, resumeText, jdText);
      && 0 <= m.score <= 100 && m.contextMatch == m.score
      && (m.relevance == High <==> m.score >= 70)
      && (m.relevance == Medium <==> 40 <= m.score < 70)
      && (m.keywordMatch == 100 <==> Includes(resumeText, skill) && Includes(jdText, skill))
      && (m.keywordMatch == 50 <==> Includes(resumeText, skill) && !Includes(jdText, skill))
      && (m.keywordMatch == 0 <==> !Includes(resumeText, skill))
      && (m.keywordMatch == 0 ==> m.score == 0)
      && (m.keywordMatch == 50 ==> m.score == 30)
      && (m.keywordMatch == 100 ==> m.score >= 60)
      && |m.name| == |skill| && ToLower(m.name) == ToLower(skill)
      && (skill != [] ==> m.name == [Upper(skill[0])] + skill[1..])
      && (|m.suggestions| == 2 <==> !Includes(resumeText, skill) && Includes(jdText, skill))
      && (m.experienceLevel != Junior ==> m.score == 0 || m.score == 30 || m.score >= 70)
  {
  }

  /** The evidence and the requirement of `m` quote `skill`, unless they are the
      stock sentences. */
  predicate QuotesSkill(m: SkillMatch, skill: string) {
    && (m.evidence == EvidenceFallback(skill) || Includes(m.evidence, skill))
    && (m.jobRequirement == RequirementFallback(skill) || Includes(m.jobRequirement, skill))
  }

  /** Over lower-cased texts, the record of a vocabulary term quotes it. */
  lemma RecordQuotesSkill(skill: string, resumeText: string, jdText: string)
    requires IsTerm(skill) && IsLower(resumeText) && IsLower(jdText)
    ensures BuildMatch(skill, resumeText, jdText).name == Capitalize(skill)
    ensures QuotesSkill(BuildMatch(skill, resumeText, jdText), skill)
  {
  }

  /** The records pushed while scanning `skills`, in scan order. */
  function Candidates(skills: seq<string>, resumeText: string, jdText: string): seq<SkillMatch> {
    FilterMap(skills, PresentIn(resumeText, jdText), RecordFor(resumeText, jdText))
  }

  function PresentIn(resumeText: string, jdText: string): string -> bool {
    skill => Present(skill, resumeText, jdText)
  }

  function RecordFor(resumeText: string, jdText: string): string -> SkillMatch {
    skill => BuildMatch(skill, resumeText, jdText)
  }

  lemma RecordForApplies(skills: seq<string>, resumeText: string, jdText: string)
    ensures forall k :: 0 <= k < |skills| ==> PresentIn(resumeText, jdText)(skills[k]) == Present(skills[k], resumeText, jdText)
    ensures forall k :: 0 <= k < |skills| ==> RecordFor(resumeText, jdText)(skills[k]) == BuildMatch(skills[k], resumeText, jdText)
  {
  }

  /** `m` is the record of one of `skills` found in either text. */
  ghost predicate RecordOfPresent(m: SkillMatch, skills: seq<string>, resumeText: string, jdText: string) {
    exists k :: 0 <= k < |skills| && Present(skills[k], resumeText, jdText)
                && m == BuildMatch(skills[k], resumeText, jdText)
  }

  /** Every pushed record is the record of a scanned skill found in one of the texts. */
  lemma CandidatesSound(skills: seq<string>, resumeText: string, jdText: string)
    ensures forall i :: 0 <= i < |Candidates(skills, resumeText, jdText)| ==>
              RecordOfPresent(Candidates(skills, resumeText, jdText)[i], skills, resumeText, jdText)
  {
    var keep, f := PresentIn(resumeText, jdText), RecordFor(resumeText, jdText);
    FilterMapSound(skills, keep, f);
    RecordForApplies(skills, resumeText, jdText);
    forall i | 0 <= i < |Candidates(skills, resumeText, jdText)|
      ensures RecordOfPresent(Candidates(skills, resumeText, jdText)[i], skills, resumeText, jdText)
    {
      assert ImageOfPassing(FilterMap(skills, keep, f)[i], skills, keep, f);
      var k :| 0 <= k < |skills| && keep(skills[k]) && FilterMap(skills, keep, f)[i] == f(skills[k]);
    }
  }

  /** Every scanned skill found in one of the texts has its record pushed. */
  lemma CandidatesComplete(skills: seq<string>, resumeText: string, jdText: string)
    ensures forall k :: 0 <= k < |skills| && Present(skills[k], resumeText, jdText) ==>
              BuildMatch(skills[k], resumeText, jdText) in Candidates(skills, resumeText, jdText)
  {
    FilterMapComplete(skills, PresentIn(resumeText, jdText), RecordFor(resumeText, jdText));
    RecordForApplies(skills, resumeText, jdText);
  }

  /** No scanned skill is in either text: nothing is pushed. */
  lemma CandidatesOfAbsent(skills: seq<string>, resumeText: string, jdText: string)
    requires forall k :: 0 <= k < |skills| ==> !Present(skills[k], resumeText, jdText)
    ensures Candidates(skills, resumeText, jdText) == []
  {
    FilterMapNone(skills, PresentIn(resumeText, jdText), RecordFor(resumeText, jdText));
    RecordForApplies(skills, resumeText, jdText);
  }

  /** Sorted by non-increasing score. */
  predicate NonIncreasing(s: seq<SkillMatch>) {
    forall i, j :: 0 <= i < j < |s| ==> s[i].score >= s[j].score
  }

  /** Insert `x` after every entry whose score is at least its own. */
  function InsertByScore(x: SkillMatch, s: seq<SkillMatch>): (r: seq<SkillMatch>)
    ensures |r| == |s| + 1
    ensures r[0] == x || (s != [] && r[0] == s[0])
    ensures NonIncreasing(s) ==> NonIncreasing(r)
  {
    if s == [] then [x]
    else if s[0].score >= x.score then
      assert s == [s[0]] + s[1..];
      [s[0]] + InsertByScore(x, s[1..])
    else [x] + s
  }

  /** `skillMatches.sort((a, b) => b.score - a.score)`: a stable sort, taken as
      insertion of each record, in order, into the sorted prefix. */
  function SortByScore(s: seq<SkillMatch>): (r: seq<SkillMatch>)
    ensures |r| == |s|
    ensures NonIncreasing(r)
  {
    if s == [] then []
    else
      InsertByScore(s[|s| - 1], SortByScore(s[..|s| - 1]))
  }

  lemma {:induction false} InsertByScorePermutes(x: SkillMatch, s: seq<SkillMatch>)
    ensures multiset(InsertByScore(x, s)) == multiset(s) + multiset{x}
  {
    if s != [] && s[0].score >= x.score {
      InsertByScorePermutes(x, s[1..]);
      assert s == [s[0]] + s[1..];
    }
  }

  /** The sort only reorders: the result is a permutation of its input. */
  lemma {:induction false} SortByScorePermutes(s: seq<SkillMatch>)
    ensures multiset(SortByScore(s)) == multiset(s)
  {
    if s != [] {
      SortByScorePermutes(s[..|s| - 1]);
      InsertByScorePermutes(s[|s| - 1], SortByScore(s[..|s| - 1]));
      InitLast(s);
    }
  }

  /** The test "scores exactly `k`". */
  function HasScore(k: int): SkillMatch -> bool {
    (m: SkillMatch) => m.score == k
  }

  /** The records scoring exactly `k`, in their order in `s`. */
  function ScoreFilter(s: seq<SkillMatch>, k: int): seq<SkillMatch> {
    Filter(s, HasScore(k))
  }

  lemma {:induction false} InsertByScoreFilter(x: SkillMatch, s: seq<SkillMatch>, k: int)
    requires NonIncreasing(s)
    ensures ScoreFilter(InsertByScore(x, s), k)
              == ScoreFilter(s, k) + (if x.score == k then [x] else [])
  {
    if s == [] {
    } else if s[0].score >= x.score {
      assert NonIncreasing(s[1..]);
      InsertByScoreFilter(x, s[1..], k);
      InsertBehindFilter(x, s, k);
    } else {
      InsertInFrontFilter(x, s, k);
    }
  }

  /** The step of `InsertByScoreFilter` where `x` goes after the first record. */
  lemma InsertBehindFilter(x: SkillMatch, s: seq<SkillMatch>, k: int)
    requires s != [] && s[0].score >= x.score
    requires ScoreFilter(InsertByScore(x, s[1..]), k) == ScoreFilter(s[1..], k) + (if x.score == k then [x] else [])
    ensures ScoreFilter(InsertByScore(x, s), k) == ScoreFilter(s, k) + (if x.score == k then [x] else [])
  {
    var p, tail := HasScore(k), if x.score == k then [x] else [];
    var head, rest, ins := [s[0]], s[1..], InsertByScore(x, s[1..]);
    assert InsertByScore(x, s) == head + ins;
    FirstRest(s);
    FilterSameFront(head, ins, rest, tail, p);
  }

  /** The step of `InsertByScoreFilter` where `x` goes in front. */
  lemma InsertInFrontFilter(x: SkillMatch, s: seq<SkillMatch>, k: int)
    requires NonIncreasing(s) && s != [] && s[0].score < x.score
    ensures ScoreFilter(InsertByScore(x, s), k) == ScoreFilter(s, k) + (if x.score == k then [x] else [])
  {
    assert InsertByScore(x, s) == [x] + s;
    FilterConcat([x], s, HasScore(k));
    if x.score == k {
      FilterDropsAll(s, HasScore(k));
    }
  }

  /** The sort is stable: for every score, the records with that score keep
      their relative order. */
  lemma {:induction false} SortByScoreStable(s: seq<SkillMatch>, k: int)
    ensures ScoreFilter(SortByScore(s), k) == ScoreFilter(s, k)
  {
    if s != [] {
      var init, last := s[..|s| - 1], s[|s| - 1];
      var tail := if last.score == k then [last] else [];
      SortByScoreStable(init, k);
      InsertByScoreFilter(last, SortByScore(init), k);
      FilterConcat(init, [last], HasScore(k));
      assert ScoreFilter([last], k) == tail;
      InitLast(s);
      calc {
        ScoreFilter(SortByScore(s), k);
        ScoreFilter(InsertByScore(last, SortByScore(init)), k);
        ScoreFilter(SortByScore(init), k) + tail;
        ScoreFilter(init, k) + tail;
        ScoreFilter(s, k);
      }
    }
  }

  lemma ScoreFilterPrefix(s: seq<SkillMatch>, n: nat, k: int)
    requires n <= |s|
    ensures ScoreFilter(s[..n], k) <= ScoreFilter(s, k)
  {
    FilterConcat(s[..n], s[n..], HasScore(k));
    assert s[..n] + s[n..] == s;
  }

  /** The first `n` records of a sorted list outscore every record left out. */
  lemma TopOfSorted(sorted: seq<SkillMatch>, n: nat, m: SkillMatch)
    requires NonIncreasing(sorted) && m in sorted && m !in Prefix(sorted, n)
    ensures forall i :: 0 <= i < |Prefix(sorted, n)| ==> Prefix(sorted, n)[i].score >= m.score
  {
    var top := Prefix(sorted, n);
    var j :| 0 <= j < |sorted| && sorted[j] == m;
  }

  /** The 12 best of `found` by a stable sort on score: sorted, a selection of
      `found` that keeps each score's records in their order, and never passing
      over a record for a lower-scoring one. */
  lemma TopTwelve(found: seq<SkillMatch>)
    ensures var top := Prefix(SortByScore(found), 12);
      && |top| == Min(12, |found|) && NonIncreasing(top)
      && (forall i :: 0 <= i < |top| ==> top[i] in found)
      && (forall k :: ScoreFilter(top, k) <= ScoreFilter(found, k))
      && (forall m :: m in found && m !in top ==> forall i :: 0 <= i < |top| ==> top[i].score >= m.score)
  {
    var sorted := SortByScore(found);
    var top := Prefix(sorted, 12);
    forall k ensures ScoreFilter(top, k) <= ScoreFilter(found, k) {
      SortByScoreStable(found, k);
      ScoreFilterPrefix(sorted, |top|, k);
    }
    SortByScorePermutes(found);
    forall m | m in found && m !in top
      ensures forall i :: 0 <= i < |top| ==> top[i].score >= m.score
    {
      assert m in multiset(sorted);
      TopOfSorted(sorted, 12, m);
    }
    forall i | 0 <= i < |top| ensures top[i] in found {
      assert top[i] in multiset(found);
    }
  }

  /** The body of the `forEach` in `extractAndMatchSkills` for a skill found in
      either text: score it, pick its evidence and requirement, and push its record. */
  method MatchSkill(skill: string, resumeText: string, jdText: string) returns (record: SkillMatch)
    ensures record == BuildMatch(skill, resumeText, jdText)
  {
    var inResume := Includes(resumeText, skill);
    var inJD := Includes(jdText, skill);
    var score := SkillScore(skill, resumeText, jdText);
    var suggestions := GenerateSkillSuggestions(skill, score, inResume, inJD);
    record := RecordWith(skill, resumeText, jdText, suggestions);
  }

  /** The `forEach` of `extractAndMatchSkills` over `skills`: push, in order, the
      record of every skill found in either text. */
  method ScanSkills(skills: seq<string>, resumeText: string, jdText: string) returns (found: seq<SkillMatch>)
    ensures found == Candidates(skills, resumeText, jdText)
  {
    found := [];
    var i := 0;
    while i < |skills|
      invariant 0 <= i <= |skills|
      invariant found == Candidates(skills[..i], resumeText, jdText)
    {
      var skill := skills[i];
      assert skills[..i + 1] == skills[..i] + [skill];
      FilterMapSnoc(skills[..i], skill, PresentIn(resumeText, jdText), RecordFor(resumeText, jdText));
      if Includes(resumeText, skill) || Includes(jdText, skill) {
        var record := MatchSkill(skill, resumeText, jdText);
        found := found + [record];
      }
      i := i + 1;
    }
    assert skills[..i] == skills;
  }

  /** The records `extractAndMatchSkills` returns when it scans `skills`: the
      pushed records, stably sorted by score, cut to the first 12. */
  function TopMatches(skills: seq<string>, resumeText: string, jdText: string): seq<SkillMatch> {
    Prefix(SortByScore(Candidates(skills, resumeText, jdText)), 12)
  }

  /** The returned records are at most 12, sorted by score, each the record of a
      scanned skill found in one of the texts; records of equal score keep their
      scan order, and none of them scores below a record that was cut. */
  lemma TopMatchesFacts(skills: seq<string>, resumeText: string, jdText: string)
    ensures var found, top := Candidates(skills, resumeText, jdText), TopMatches(skills, resumeText, jdText);
      && |top| == Min(12, |found|) && NonIncreasing(top)
      && (forall i :: 0 <= i < |top| ==> RecordOfPresent(top[i], skills, resumeText, jdText))
      && (forall k :: ScoreFilter(top, k) <= ScoreFilter(found, k))
      && (forall m :: m in found && m !in top ==> forall i :: 0 <= i < |top| ==> top[i].score >= m.score)
  {
    var found := Candidates(skills, resumeText, jdText);
    var top := Prefix(SortByScore(found), 12);
    TopTwelve(found);
    CandidatesSound(skills, resumeText, jdText);
    forall i | 0 <= i < |top| ensures RecordOfPresent(top[i], skills, resumeText, jdText) {
      var j :| 0 <= j < |found| && found[j] == top[i];
    }
  }

  /** `extractAndMatchSkills`: scan the vocabulary, push a record for every skill
      found in either text, then keep the 12 best by a stable sort on score. */
  method ExtractAndMatchSkills(resumeText: string, jdText: string) returns (matches: seq<SkillMatch>)
    ensures matches == TopMatches(CommonSkills, resumeText, jdText)
  {
    var found := ScanSkills(CommonSkills, resumeText, jdText);
    matches := Prefix(SortByScore(found), 12);
  }
}
