/** The records of lib/types.ts. Every one is a value: the engine builds each
    record once and never updates it. */
module Types {

  /** `'high' | 'medium' | 'low'`, used both for a skill's relevance and for an
      improvement's impact. */
  datatype Band = High | Medium | Low

  /** The three strings the engine ever stores in `experienceLevel`. */
  datatype ExperienceLevel = Senior | Intermediate | Junior

  datatype ResumeData = ResumeData(fileName: string, content: string, parsedAt: string)

  datatype JobDescription = JobDescription(content: string, title: string, company: string)

  /** One vocabulary skill found in the résumé, the job description or both.
      `suggestions` and `relatedKeywords` are optional in the interface but the
      engine always fills them. */
  datatype SkillMatch = SkillMatch(
    name: string,
    score: int,
    relevance: Band,
    evidence: string,
    jobRequirement: string,
    keywordMatch: int,
    contextMatch: int,
    experienceLevel: ExperienceLevel,
    suggestions: seq<string>,
    relatedKeywords: seq<string>)

  /** The suggestion text of an improvement record, by template and the values
      filled into it; `Scoring.AdviceText` renders it to the exact string. */
  datatype Advice =
    | StrengthenSection(skillName: string)
    | AddSkills(skills: seq<string>)
    | AddKeywords(keywords: seq<string>)
    | QuantifyImpact
    | DeepenTechnicalDetail

  /** The five improvement categories, in the order the engine pushes them;
      `Scoring.CategoryName` gives each one's string. */
  datatype Category = SkillEnhancement | SkillGaps | KeywordOptimization | ImpactQuantification | TechnicalDetail

  datatype ImprovementSuggestion = ImprovementSuggestion(category: Category, suggestion: Advice, impact: Band)

  datatype AnalysisResult = AnalysisResult(
    overallScore: int,
    skillMatches: seq<SkillMatch>,
    strongMatches: seq<SkillMatch>,
    partialMatches: seq<SkillMatch>,
    missingSkills: seq<string>,
    matchedKeywords: seq<string>,
    missingKeywords: seq<string>,
    improvements: seq<ImprovementSuggestion>,
    analysisDate: string)
}
