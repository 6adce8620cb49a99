/** The entry point of the engine, `analyzeResumeMatch`
    (lib/analysis-engine.ts:3-33): lower-case both texts, run the four passes
    and assemble the result record. */
module Analysis {
  import opened Strings
  import opened Seqs
  import opened Types
  import opened Skills
  import opened Keywords
  import opened Scoring

  /** `skill.score >= 80`. */
  predicate IsStrong(m: SkillMatch) {
    m.score >= 80
  }

  /** `skill.score >= 40 && skill.score < 80`. */
  predicate IsPartial(m: SkillMatch) {
    m.score >= 40 && m.score < 80
  }

  /** The returned skill records score between 0 and 100. */
  lemma TopMatchesInRange(resumeText: string, jdText: string)
    ensures ScoresInRange(TopMatches(CommonSkills, resumeText, jdText))
  {
    var top := TopMatches(CommonSkills, resumeText, jdText);
    TopMatchesFacts(CommonSkills, resumeText, jdText);
    forall i | 0 <= i < |top| ensures 0 <= top[i].score <= 100 {
      assert RecordOfPresent(top[i], CommonSkills, resumeText, jdText);
      var k :| 0 <= k < |CommonSkills| && Present(CommonSkills[k], resumeText, jdText)
               && top[i] == BuildMatch(CommonSkills[k], resumeText, jdText);
      BuildMatchFacts(CommonSkills[k], resumeText, jdText);
    }
  }

  /** In a list sorted by score, the first record below 60 (the one the "Skill
      Enhancement" suggestion names) is the strongest of the weak records, not
      the weakest. */
  lemma FirstWeakIsStrongestWeak(skillMatches: seq<SkillMatch>)
    requires NonIncreasing(skillMatches)
    ensures FirstWeak(skillMatches).Some? ==>
              forall j :: 0 <= j < |skillMatches| && IsWeak(skillMatches[j]) ==>
                FirstWeak(skillMatches).value.score >= skillMatches[j].score
  {
    if FirstWeak(skillMatches).Some? {
      var w := FirstWeak(skillMatches).value;
      var i :| 0 <= i < |skillMatches| && IsWeak(skillMatches[i])
               && (forall m :: 0 <= m < i ==> !IsWeak(skillMatches[m])) && w == skillMatches[i];
      forall j | 0 <= j < |skillMatches| && IsWeak(skillMatches[j]) ensures w.score >= skillMatches[j].score {
      }
    }
  }

  /** With both texts empty no vocabulary skill or keyword is found: no skill
      records, no keywords, no missing skills. */
  lemma EmptyTexts()
    ensures TopMatches(CommonSkills, [], []) == []
    ensures ExtractKeywords([]) == []
    ensures ExtractMissingSkills([], []) == []
  {
    NoSkillRecordsForEmptyTexts();
    NoKeywordsInEmptyText();
    NoMissingSkillsForEmptyTexts();
  }

  /** The empty text contains no non-empty string. */
  lemma NothingInEmpty()
    ensures forall t: string :: t != [] ==> !Includes([], t)
  {
    forall t: string | t != [] ensures !Includes([], t) {
      assert forall i :: !OccursAt([], t, i);
    }
  }

  lemma NoSkillRecordsForEmptyTexts()
    ensures TopMatches(CommonSkills, [], []) == []
  {
    NothingInEmpty();
    CandidatesOfAbsent(CommonSkills, [], []);
  }

  lemma NoKeywordsInEmptyText()
    ensures ExtractKeywords([]) == []
  {
    NothingInEmpty();
    assert forall k :: 0 <= k < |CommonKeywords| ==> !Includes([], CommonKeywords[k]);
  }

  lemma NoMissingSkillsForEmptyTexts()
    ensures ExtractMissingSkills([], []) == []
  {
    NothingInEmpty();
  }

  /** The record `analyzeResumeMatch` returns for the two documents. The clock
      reading `new Date().toISOString()` is the parameter `analysisDate`. */
  function Analysis(resume: ResumeData, jobDescription: JobDescription, analysisDate: string): AnalysisResult
  {
    var resumeText, jdText := ToLower(resume.content), ToLower(jobDescription.content);
    var skillMatches := TopMatches(CommonSkills, resumeText, jdText);
    var split := AnalyzeKeywords(resumeText, jdText);
    var missingSkills := ExtractMissingSkills(jdText, resumeText);
    TopMatchesInRange(resumeText, jdText);
    AnalysisResult(
      OverallScore(skillMatches, split.matchedKeywords, split.missingKeywords),
      skillMatches,
      Filter(skillMatches, IsStrong),
      Filter(skillMatches, IsPartial),
      missingSkills,
      split.matchedKeywords,
      split.missingKeywords,
      Improvements(skillMatches, missingSkills, split.matchedKeywords, split.missingKeywords),
      analysisDate)
  }

  /** Splitting a list of records by score: the strong ones are exactly the
      records scoring 80 or more, the partial ones exactly those from 40 to 79,
      both in list order, and no record is both. */
  lemma StrongAndPartial(skillMatches: seq<SkillMatch>)
    ensures var strong, partial := Filter(skillMatches, IsStrong), Filter(skillMatches, IsPartial);
      && (forall i :: 0 <= i < |strong| ==> IsStrong(strong[i]))
      && (forall i :: 0 <= i < |partial| ==> IsPartial(partial[i]))
      && (forall i :: 0 <= i < |skillMatches| && IsStrong(skillMatches[i]) ==> skillMatches[i] in strong)
      && (forall i :: 0 <= i < |skillMatches| && IsPartial(skillMatches[i]) ==> skillMatches[i] in partial)
      && IsSubsequence(strong, skillMatches) && IsSubsequence(partial, skillMatches)
      && (forall m :: m in strong ==> m !in partial)
  {
    FilterIsSubsequence(skillMatches, IsStrong);
    FilterIsSubsequence(skillMatches, IsPartial);
  }

  /** The skill lists of the result: at most twelve records sorted by score,
      each between 0 and 100; `strongMatches` holds exactly the records scoring
      80 or more and `partialMatches` exactly those from 40 to 79, both in the
      order of `skillMatches`, and no record is in both. */
  lemma AnalysisSkillLists(resume: ResumeData, jobDescription: JobDescription, analysisDate: string)
    ensures var result := Analysis(resume, jobDescription, analysisDate);
      && |result.skillMatches| <= 12 && NonIncreasing(result.skillMatches)
      && ScoresInRange(result.skillMatches)
      && (forall i :: 0 <= i < |result.strongMatches| ==> IsStrong(result.strongMatches[i]))
      && (forall i :: 0 <= i < |result.partialMatches| ==> IsPartial(result.partialMatches[i]))
      && (forall i :: 0 <= i < |result.skillMatches| && IsStrong(result.skillMatches[i]) ==>
            result.skillMatches[i] in result.strongMatches)
      && (forall i :: 0 <= i < |result.skillMatches| && IsPartial(result.skillMatches[i]) ==>
            result.skillMatches[i] in result.partialMatches)
      && IsSubsequence(result.strongMatches, result.skillMatches)
      && IsSubsequence(result.partialMatches, result.skillMatches)
      && (forall m :: m in result.strongMatches ==> m !in result.partialMatches)
  {
    var resumeText, jdText := ToLower(resume.content), ToLower(jobDescription.content);
    TopMatchesFacts(CommonSkills, resumeText, jdText);
    TopMatchesInRange(resumeText, jdText);
    StrongAndPartial(TopMatches(CommonSkills, resumeText, jdText));
  }

  /** Every returned record is the record of a vocabulary skill: its name is
      the skill capitalised, and since both texts are lower-cased first, its
      evidence and its requirement are the stock sentences or snippets that
      quote the skill. */
  lemma RecordsQuoteTheirSkills(resume: ResumeData, jobDescription: JobDescription, analysisDate: string)
    ensures var result := Analysis(resume, jobDescription, analysisDate);
      forall i :: 0 <= i < |result.skillMatches| ==> NamesAndQuotesSkill(result.skillMatches[i])
  {
    var resumeText, jdText := ToLower(resume.content), ToLower(jobDescription.content);
    ToLowerIsLower(resume.content);
    ToLowerIsLower(jobDescription.content);
    TopMatchesQuote(resumeText, jdText);
  }

  /** `m` is named after a vocabulary skill and quotes it. */
  ghost predicate NamesAndQuotesSkill(m: SkillMatch) {
    exists k :: 0 <= k < |CommonSkills| && m.name == Capitalize(CommonSkills[k]) && QuotesSkill(m, CommonSkills[k])
  }

  lemma TopMatchesQuote(resumeText: string, jdText: string)
    requires IsLower(resumeText) && IsLower(jdText)
    ensures forall i :: 0 <= i < |TopMatches(CommonSkills, resumeText, jdText)| ==>
              NamesAndQuotesSkill(TopMatches(CommonSkills, resumeText, jdText)[i])
  {
    var top := TopMatches(CommonSkills, resumeText, jdText);
    TopMatchesFacts(CommonSkills, resumeText, jdText);
    forall i | 0 <= i < |top| ensures NamesAndQuotesSkill(top[i]) {
      assert RecordOfPresent(top[i], CommonSkills, resumeText, jdText);
      var k :| 0 <= k < |CommonSkills| && Present(CommonSkills[k], resumeText, jdText)
               && top[i] == BuildMatch(CommonSkills[k], resumeText, jdText);
      RecordQuotesSkill(CommonSkills[k], resumeText, jdText);
    }
  }

  /** The score and the suggestions of the result: an overall score between 0
      and 100, two to five improvement records, and the date passed through. */
  lemma AnalysisSummary(resume: ResumeData, jobDescription: JobDescription, analysisDate: string)
    ensures var result := Analysis(resume, jobDescription, analysisDate);
      && 0 <= result.overallScore <= 100
      && 2 <= |result.improvements| <= 5
      && result.improvements[|result.improvements| - 2] == QuantificationRecord
      && result.improvements[|result.improvements| - 1] == DetailRecord
      && result.analysisDate == analysisDate
  {
    var result := Analysis(resume, jobDescription, analysisDate);
    ImprovementsFacts(result.skillMatches, result.missingSkills, result.matchedKeywords, result.missingKeywords);
  }

  /** The score and the improvements are computed from the lists of the result. */
  lemma AnalysisDerived(resume: ResumeData, jobDescription: JobDescription, analysisDate: string)
    ensures var result := Analysis(resume, jobDescription, analysisDate);
      && ScoresInRange(result.skillMatches)
      && result.overallScore == OverallScore(result.skillMatches, result.matchedKeywords, result.missingKeywords)
      && result.improvements
           == Improvements(result.skillMatches, result.missingSkills, result.matchedKeywords, result.missingKeywords)
  {
    TopMatchesInRange(ToLower(resume.content), ToLower(jobDescription.content));
  }

  /** Two empty documents: no skills, no keywords, an overall score of 0 and just
      the two fixed improvement records. */
  lemma EmptyDocuments(analysisDate: string)
    ensures var result := Analysis(ResumeData("", "", ""), JobDescription("", "", ""), analysisDate);
      && result.skillMatches == [] && result.strongMatches == [] && result.partialMatches == []
      && result.matchedKeywords == [] && result.missingKeywords == [] && result.missingSkills == []
      && result.overallScore == 0
      && result.improvements == [QuantificationRecord, DetailRecord]
  {
    EmptyDocumentLists(analysisDate);
    EmptyDocumentScore(analysisDate);
  }

  lemma EmptyDocumentLists(analysisDate: string)
    ensures var result := Analysis(ResumeData("", "", ""), JobDescription("", "", ""), analysisDate);
      && result.skillMatches == [] && result.strongMatches == [] && result.partialMatches == []
      && result.matchedKeywords == [] && result.missingKeywords == [] && result.missingSkills == []
  {
    var result := Analysis(ResumeData("", "", ""), JobDescription("", "", ""), analysisDate);
    assert ToLower([]) == [];
    EmptyTexts();
    assert result.skillMatches == [];
    assert AnalyzeKeywords([], []).matchedKeywords == [];
  }

  lemma EmptyDocumentScore(analysisDate: string)
    ensures var result := Analysis(ResumeData("", "", ""), JobDescription("", "", ""), analysisDate);
      && result.overallScore == 0
      && result.improvements == [QuantificationRecord, DetailRecord]
  {
    var result := Analysis(ResumeData("", "", ""), JobDescription("", "", ""), analysisDate);
    EmptyDocumentLists(analysisDate);
    AnalysisDerived(ResumeData("", "", ""), JobDescription("", "", ""), analysisDate);
    OverallScoreUndefinedForEmptyLists();
    ImprovementsOfNothing();
  }

  /** `analyzeResumeMatch`, step by step. */
  method AnalyzeResumeMatch(resume: ResumeData, jobDescription: JobDescription, analysisDate: string)
    returns (result: AnalysisResult)
    ensures result == Analysis(resume, jobDescription, analysisDate)
  {
    var resumeText := ToLower(resume.content);
    var jdText := ToLower(jobDescription.content);

    var skillMatches := ExtractAndMatchSkills(resumeText, jdText);
    var split := AnalyzeKeywords(resumeText, jdText);
    var matchedKeywords, missingKeywords := split.matchedKeywords, split.missingKeywords;

    TopMatchesInRange(resumeText, jdText);
    var overallScore := OverallScore(skillMatches, matchedKeywords, missingKeywords);

    var strongMatches := Filter(skillMatches, IsStrong);
    var partialMatches := Filter(skillMatches, IsPartial);
    var missingSkills := ExtractMissingSkills(jdText, resumeText);

    var improvements := GenerateImprovements(skillMatches, missingSkills, matchedKeywords, missingKeywords);

    result := AnalysisResult(overallScore, skillMatches, strongMatches, partialMatches, missingSkills,
                             matchedKeywords, missingKeywords, improvements, analysisDate);
  }
}
