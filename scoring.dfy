/** The last two passes of the engine: `calculateOverallScore` and
    `generateImprovements` (lib/analysis-engine.ts:223-282). */
module Scoring {
  import opened Strings
  import opened Seqs
  import opened Numbers
  import opened Types

  /** `skillMatches.reduce((sum, skill) => sum + skill.score, 0)`. */
  function SumScores(s: seq<SkillMatch>): int {
    if s == [] then 0 else SumScores(s[..|s| - 1]) + s[|s| - 1].score
  }

  predicate ScoresInRange(s: seq<SkillMatch>) {
    forall i :: 0 <= i < |s| ==> 0 <= s[i].score <= 100
  }

  lemma {:induction false} SumScoresBounds(s: seq<SkillMatch>)
    requires ScoresInRange(s)
    ensures 0 <= SumScores(s) <= 100 * |s|
  {
    if s != [] {
      SumScoresBounds(s[..|s| - 1]);
    }
  }

  /** `calculateOverallScore` with its two divisions guarded: an empty skill list
      counts as an average of 0 and an empty keyword list as a keyword score of
      0 (the source yields NaN for either; see OverallScoreAsWritten), so that
      only the other term, 0.7 * S / n or 0.3 * 100 * m / t, counts. With
      n skills summing to S and m of t keywords matched, the score is
      0.7 * S / n + 0.3 * 100 * m / t rounded half up, that is
      (7 * S * t + 300 * m * n) / (10 * n * t). */
  function OverallScore(skillMatches: seq<SkillMatch>, matchedKeywords: seq<string>, missingKeywords: seq<string>): (r: int)
    requires ScoresInRange(skillMatches)
    ensures 0 <= r <= 100
    ensures var n, s, m, t := |skillMatches|, SumScores(skillMatches), |matchedKeywords|, |matchedKeywords| + |missingKeywords|;
      && (n > 0 && t > 0 ==> 2 * (10 * n * t) * r <= 2 * (7 * s * t + 300 * m * n) + 10 * n * t
                                                   < 2 * (10 * n * t) * r + 2 * (10 * n * t))
      && (n > 0 && t == 0 ==> 2 * (10 * n) * r <= 2 * (7 * s) + 10 * n < 2 * (10 * n) * r + 2 * (10 * n))
      && (n == 0 && t > 0 ==> 2 * (10 * t) * r <= 2 * (300 * m) + 10 * t < 2 * (10 * t) * r + 2 * (10 * t))
      && (n == 0 && t == 0 ==> r == 0)
  {
    var n, s, m := |skillMatches|, SumScores(skillMatches), |matchedKeywords|;
    var t := m + |missingKeywords|;
    SumScoresBounds(skillMatches);
    if n > 0 && t > 0 then
      NumeratorBounds(s, n, m, t);
      RoundDivBounds(7 * s * t + 300 * m * n, 10 * n * t, 0, 100);
      RoundDiv(7 * s * t + 300 * m * n, 10 * n * t)
    else if n > 0 then
      RoundDivBounds(7 * s, 10 * n, 0, 100);
      RoundDiv(7 * s, 10 * n)
    else if t > 0 then
      MulLeft(300, m, t);
      RoundDivBounds(300 * m, 10 * t, 0, 100);
      RoundDiv(300 * m, 10 * t)
    else 0
  }

  lemma NumeratorBounds(s: int, n: int, m: int, t: int)
    requires 0 <= s <= 100 * n && 0 <= m <= t && n > 0 && t > 0
    ensures 0 * (10 * n * t) <= 7 * s * t + 300 * m * n <= 100 * (10 * n * t)
  {
    var a, b := s * t, m * n;
    MulLeft(t, 0, s);
    MulLeft(t, s, 100 * n);
    MulLeft(n, 0, m);
    MulLeft(n, m, t);
    assert 0 <= a <= 100 * n * t;
    assert 0 <= b <= n * t;
    assert 7 * s * t + 300 * m * n == 7 * a + 300 * b;
  }

  /** `calculateOverallScore` exactly as written: `None` stands for the NaN that an
      empty skill list or an empty keyword list produces through 0 / 0. */
  function OverallScoreAsWritten(skillMatches: seq<SkillMatch>, matchedKeywords: seq<string>, missingKeywords: seq<string>)
    : (r: Option<int>)
    requires ScoresInRange(skillMatches)
    ensures r.None? <==> |skillMatches| == 0 || |matchedKeywords| + |missingKeywords| == 0
    ensures r.Some? ==> r.value == OverallScore(skillMatches, matchedKeywords, missingKeywords)
  {
    var n, s, m := |skillMatches|, SumScores(skillMatches), |matchedKeywords|;
    var t := m + |missingKeywords|;
    if n == 0 || t == 0 then None
    else Some(RoundDiv(7 * s * t + 300 * m * n, 10 * n * t))
  }

  /** A job description that names no vocabulary skill and no vocabulary keyword
      gives empty lists, and the source's overall score is NaN. */
  lemma OverallScoreUndefinedForEmptyLists()
    ensures OverallScoreAsWritten([], [], []).None?
    ensures OverallScore([], [], []) == 0
  {
  }

  /** Every skill at 100 and every keyword matched gives 100. */
  lemma {:induction false} PerfectOverallScore(skillMatches: seq<SkillMatch>, matchedKeywords: seq<string>)
    requires |skillMatches| > 0 && |matchedKeywords| > 0
    requires forall i :: 0 <= i < |skillMatches| ==> skillMatches[i].score == 100
    ensures OverallScore(skillMatches, matchedKeywords, []) == 100
  {
    var n, t := |skillMatches|, |matchedKeywords|;
    AllHundred(skillMatches);
    assert 7 * (100 * n) * t + 300 * t * n == 100 * (10 * n * t);
    RoundDivBounds(100 * (10 * n * t), 10 * n * t, 100, 100);
  }

  lemma {:induction false} AllHundred(s: seq<SkillMatch>)
    requires forall i :: 0 <= i < |s| ==> s[i].score == 100
    ensures SumScores(s) == 100 * |s|
  {
    if s != [] {
      AllHundred(s[..|s| - 1]);
    }
  }

  /** The fixed order of the improvement categories. */
  function CategoryRank(category: Category): nat {
    match category
    case SkillEnhancement => 0
    case SkillGaps => 1
    case KeywordOptimization => 2
    case ImpactQuantification => 3
    case TechnicalDetail => 4
  }

  /** The `category` string of each category. */
  function CategoryName(category: Category): string {
    match category
    case SkillEnhancement => "Skill Enhancement"
    case SkillGaps => "Skill Gaps"
    case KeywordOptimization => "Keyword Optimization"
    case ImpactQuantification => "Impact Quantification"
    case TechnicalDetail => "Technical Detail"
  }

  predicate InCategoryOrder(r: seq<ImprovementSuggestion>) {
    forall i, j :: 0 <= i < j < |r| ==> CategoryRank(r[i].category) < CategoryRank(r[j].category)
  }

  predicate IsWeak(m: SkillMatch) {
    m.score < 60
  }

  /** The text each template renders to. */
  function AdviceText(advice: Advice): string {
    match advice
    case StrengthenSection(name) => StrengthenLead + name + StrengthenTail
    case AddSkills(skills) => AddSkillsLead + Join(skills, ", ") + AddSkillsTail
    case AddKeywords(keywords) => AddKeywordsLead + Join(keywords, ", ") + AddKeywordsTail
    case QuantifyImpact =>
      "Add more specific metrics and numbers to demonstrate the impact of your work. "
      + "Include percentages, dollar amounts, user counts, or performance improvements."
    case DeepenTechnicalDetail =>
      "Provide more technical depth in your project descriptions. "
      + "Mention specific technologies, architectures, and methodologies you used."
  }

  const StrengthenLead := "Strengthen your "
  const StrengthenTail := " section by adding specific projects, metrics, and technologies used. "
                          + "Consider mentioning the scale and impact of your work."
  const AddSkillsLead := "Consider adding experience with "
  const AddSkillsTail := " to better match job requirements. These skills appear in the job description but not in your resume."
  const AddKeywordsLead := "Include more industry-specific keywords such as "
  const AddKeywordsTail := ". This will improve ATS compatibility and recruiter visibility."

  /** Every name a suggestion is built from occurs in its text. */
  lemma AdviceTextMentions(advice: Advice)
    ensures advice.StrengthenSection? ==> Includes(AdviceText(advice), advice.skillName)
    ensures advice.AddSkills? ==> forall k :: 0 <= k < |advice.skills| ==> Includes(AdviceText(advice), advice.skills[k])
    ensures advice.AddKeywords? ==> forall k :: 0 <= k < |advice.keywords| ==> Includes(AdviceText(advice), advice.keywords[k])
  {
    match advice
    case StrengthenSection(name) =>
      IncludesMiddle(StrengthenLead, name, StrengthenTail);
    case AddSkills(skills) =>
      JoinedIncludes(AddSkillsLead, skills, AddSkillsTail);
    case AddKeywords(keywords) =>
      JoinedIncludes(AddKeywordsLead, keywords, AddKeywordsTail);
    case QuantifyImpact =>
    case DeepenTechnicalDetail =>
  }

  lemma JoinedIncludes(before: string, xs: seq<string>, after: string)
    ensures forall k :: 0 <= k < |xs| ==> Includes(before + Join(xs, ", ") + after, xs[k])
  {
    var text := Join(xs, ", ");
    JoinIncludes(xs, ", ");
    IncludesMiddle(before, text, after);
    forall k | 0 <= k < |xs| ensures Includes(before + text + after, xs[k]) {
      IncludesTrans(before + text + after, text, xs[k]);
    }
  }

  function EnhancementRecord(name: string): ImprovementSuggestion {
    ImprovementSuggestion(SkillEnhancement, StrengthenSection(name), High)
  }

  /** The source names at most the first three missing skills. */
  function GapsRecord(missingSkills: seq<string>): ImprovementSuggestion {
    ImprovementSuggestion(SkillGaps, AddSkills(Prefix(missingSkills, 3)), High)
  }

  /** The source names at most the first five missing keywords. */
  function KeywordRecord(missingKeywords: seq<string>): ImprovementSuggestion {
    ImprovementSuggestion(KeywordOptimization, AddKeywords(Prefix(missingKeywords, 5)), Medium)
  }

  /** The "Skill Gaps" record names the first three missing skills (all of them
      when there are fewer) and the "Keyword Optimization" record the first five
      missing keywords. */
  lemma NamedEntries(missingSkills: seq<string>, missingKeywords: seq<string>)
    ensures var named := GapsRecord(missingSkills).suggestion.skills;
      |named| == Min(3, |missingSkills|) && named <= missingSkills
    ensures var named := KeywordRecord(missingKeywords).suggestion.keywords;
      |named| == Min(5, |missingKeywords|) && named <= missingKeywords
  {
  }

  const QuantificationRecord := ImprovementSuggestion(ImpactQuantification, QuantifyImpact, High)

  const DetailRecord := ImprovementSuggestion(TechnicalDetail, DeepenTechnicalDetail, Medium)

  /** The first record of category `category` in `r`, if any. */
  function RecordOf(r: seq<ImprovementSuggestion>, category: Category): (found: Option<ImprovementSuggestion>)
    ensures found.Some? <==> exists i :: 0 <= i < |r| && r[i].category == category
  {
    if r == [] then None
    else if r[0].category == category then Some(r[0])
    else RecordOf(r[1..], category)
  }

  lemma {:induction false} RecordOfConcat(a: seq<ImprovementSuggestion>, b: seq<ImprovementSuggestion>, category: Category)
    ensures RecordOf(a + b, category) == if RecordOf(a, category).Some? then RecordOf(a, category) else RecordOf(b, category)
  {
    if a != [] {
      assert (a + b)[1..] == a[1..] + b;
      RecordOfConcat(a[1..], b, category);
    } else {
      assert a + b == b;
    }
  }

  /** The first entry of `skillMatches` scoring below 60, if any. */
  function FirstWeak(skillMatches: seq<SkillMatch>): (w: Option<SkillMatch>)
    ensures w.None? <==> forall j :: 0 <= j < |skillMatches| ==> !IsWeak(skillMatches[j])
    ensures w.Some? ==> exists j :: 0 <= j < |skillMatches| && IsWeak(skillMatches[j])
                                   && (forall i :: 0 <= i < j ==> !IsWeak(skillMatches[i]))
                                   && w.value == skillMatches[j]
  {
    var weakSkills := Filter(skillMatches, IsWeak);
    if |weakSkills| > 0 then
      FilterHead(skillMatches, IsWeak);
      Some(weakSkills[0])
    else
      None
  }

  function OptionalRecord(o: Option<ImprovementSuggestion>): seq<ImprovementSuggestion> {
    match o
    case Some(x) => [x]
    case None => []
  }

  /** The optional records, in push order, followed by the two fixed ones. */
  function Assemble(e: Option<ImprovementSuggestion>, g: Option<ImprovementSuggestion>,
                    k: Option<ImprovementSuggestion>): seq<ImprovementSuggestion> {
    OptionalRecord(e) + OptionalRecord(g) + OptionalRecord(k) + [QuantificationRecord] + [DetailRecord]
  }

  /** Assembling three optional records of the first three categories gives two
      to five records in category order, ending with the fixed two. */
  lemma AssembleOrder(e: Option<ImprovementSuggestion>, g: Option<ImprovementSuggestion>,
                      k: Option<ImprovementSuggestion>)
    requires e.Some? ==> e.value.category == SkillEnhancement
    requires g.Some? ==> g.value.category == SkillGaps
    requires k.Some? ==> k.value.category == KeywordOptimization
    ensures var r := Assemble(e, g, k);
      && |r| == 2 + (if e.Some? then 1 else 0) + (if g.Some? then 1 else 0) + (if k.Some? then 1 else 0)
      && InCategoryOrder(r)
      && r[|r| - 2] == QuantificationRecord && r[|r| - 1] == DetailRecord
  {
    var a, b, c := OptionalRecord(e), OptionalRecord(g), OptionalRecord(k);
    var r := Assemble(e, g, k);
    assert r == a + b + c + [QuantificationRecord] + [DetailRecord];
    forall i, j | 0 <= i < j < |r| ensures CategoryRank(r[i].category) < CategoryRank(r[j].category) {
      if i >= |a| && i < |a| + |b| {
        assert r[i] == b[i - |a|];
      } else if i >= |a| + |b| && i < |a| + |b| + |c| {
        assert r[i] == c[i - |a| - |b|];
      }
      if j >= |a| && j < |a| + |b| {
        assert r[j] == b[j - |a|];
      } else if j >= |a| + |b| && j < |a| + |b| + |c| {
        assert r[j] == c[j - |a| - |b|];
      }
    }
  }

  /** The record of each optional category in the assembled list is the one supplied. */
  lemma AssembleRecords(e: Option<ImprovementSuggestion>, g: Option<ImprovementSuggestion>,
                        k: Option<ImprovementSuggestion>)
    requires e.Some? ==> e.value.category == SkillEnhancement
    requires g.Some? ==> g.value.category == SkillGaps
    requires k.Some? ==> k.value.category == KeywordOptimization
    ensures var r := Assemble(e, g, k);
      RecordOf(r, SkillEnhancement) == e && RecordOf(r, SkillGaps) == g && RecordOf(r, KeywordOptimization) == k
  {
    var a, b, c := OptionalRecord(e), OptionalRecord(g), OptionalRecord(k);
    var tail := [QuantificationRecord] + [DetailRecord];
    assert Assemble(e, g, k) == a + b + c + tail;
    forall category | category == SkillEnhancement || category == SkillGaps || category == KeywordOptimization
      ensures RecordOf(a + b + c + tail, category)
                == if RecordOf(a, category).Some? then RecordOf(a, category)
                   else if RecordOf(b, category).Some? then RecordOf(b, category)
                   else RecordOf(c, category)
    {
      RecordOfConcat(a + b + c, tail, category);
      RecordOfConcat(a + b, c, category);
      RecordOfConcat(a, b, category);
    }
  }

  /** The records `generateImprovements` returns, in push order. */
  function Improvements(skillMatches: seq<SkillMatch>, missingSkills: seq<string>,
                        matchedKeywords: seq<string>, missingKeywords: seq<string>): seq<ImprovementSuggestion>
  {
    Assemble(
      match FirstWeak(skillMatches) case Some(w) => Some(EnhancementRecord(w.name)) case None => None,
      if |missingSkills| > 0 then Some(GapsRecord(missingSkills)) else None,
      if |missingKeywords| > |matchedKeywords| then Some(KeywordRecord(missingKeywords)) else None)
  }

  /** With no skill records, no missing skills and no keywords only the two
      fixed records remain. */
  lemma ImprovementsOfNothing()
    ensures Improvements([], [], [], []) == [QuantificationRecord, DetailRecord]
  {
    assert FirstWeak([]) == None;
    assert Assemble(None, None, None) == [] + [] + [] + [QuantificationRecord] + [DetailRecord];
  }

  /** Two to five records in the fixed category order, ending with the two that
      are always given. Each optional record is present exactly when its
      condition holds: a skill below 60 (naming the first such entry of
      `skillMatches`), a missing skill (naming the first three), more missing
      than matched keywords (naming the first five). */
  lemma ImprovementsFacts(skillMatches: seq<SkillMatch>, missingSkills: seq<string>,
                          matchedKeywords: seq<string>, missingKeywords: seq<string>)
    ensures var r := Improvements(skillMatches, missingSkills, matchedKeywords, missingKeywords);
      && 2 <= |r| <= 5 && InCategoryOrder(r)
      && r[|r| - 2] == QuantificationRecord && r[|r| - 1] == DetailRecord
      && (RecordOf(r, SkillEnhancement).Some? <==> exists j :: 0 <= j < |skillMatches| && IsWeak(skillMatches[j]))
      && (RecordOf(r, SkillEnhancement).Some? ==>
            exists j :: 0 <= j < |skillMatches| && IsWeak(skillMatches[j])
                        && (forall i :: 0 <= i < j ==> !IsWeak(skillMatches[i]))
                        && RecordOf(r, SkillEnhancement).value == EnhancementRecord(skillMatches[j].name))
      && RecordOf(r, SkillGaps) == (if |missingSkills| > 0 then Some(GapsRecord(missingSkills)) else None)
      && RecordOf(r, KeywordOptimization)
           == (if |missingKeywords| > |matchedKeywords| then Some(KeywordRecord(missingKeywords)) else None)
  {
    var w := FirstWeak(skillMatches);
    var e := match w case Some(x) => Some(EnhancementRecord(x.name)) case None => None;
    var g := if |missingSkills| > 0 then Some(GapsRecord(missingSkills)) else None;
    var k := if |missingKeywords| > |matchedKeywords| then Some(KeywordRecord(missingKeywords)) else None;
    AssembleOrder(e, g, k);
    AssembleRecords(e, g, k);
  }

  /** `generateImprovements`, pushing one record at a time. */
  method GenerateImprovements(skillMatches: seq<SkillMatch>, missingSkills: seq<string>,
                              matchedKeywords: seq<string>, missingKeywords: seq<string>)
    returns (improvements: seq<ImprovementSuggestion>)
    ensures improvements == Improvements(skillMatches, missingSkills, matchedKeywords, missingKeywords)
  {
    improvements := [];
    var weakSkills := Filter(skillMatches, IsWeak);
    ghost var e, g, k := None, None, None;
    if |weakSkills| > 0 {
      var record := EnhancementRecord(weakSkills[0].name);
      improvements := improvements + [record];
      e := Some(record);
    }
    assert improvements == OptionalRecord(e);
    if |missingSkills| > 0 {
      var record := GapsRecord(missingSkills);
      improvements := improvements + [record];
      g := Some(record);
    }
    assert improvements == OptionalRecord(e) + OptionalRecord(g);
    if |missingKeywords| > |matchedKeywords| {
      var record := KeywordRecord(missingKeywords);
      improvements := improvements + [record];
      k := Some(record);
    }
    assert improvements == OptionalRecord(e) + OptionalRecord(g) + OptionalRecord(k);
    improvements := improvements + [QuantificationRecord];
    improvements := improvements + [DetailRecord];
    assert e == match FirstWeak(skillMatches) case Some(w) => Some(EnhancementRecord(w.name)) case None => None;
  }
}
