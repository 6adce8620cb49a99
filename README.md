# Résumé matching engine — a Dafny model

This project models the matching engine of Job-Jotter, `lib/analysis-engine.ts`.
The engine compares a résumé with a job description. It lower-cases both texts
and runs four rule-based passes over three fixed vocabularies:

- a per-skill pass (`extractAndMatchSkills`) that scores every vocabulary skill
  found in either text and keeps the 12 best;
- a keyword pass (`analyzeKeywords`, `extractKeywords`) that splits the job
  description's keywords into matched and missing;
- a missing-skill pass (`extractMissingSkills`);
- an overall score (`calculateOverallScore`) and a list of improvement records
  (`generateImprovements`).

Every test of whether a vocabulary term occurs in a text is a substring test
(`includes`), so a term also counts when it sits inside a longer word.

Layout, one module per file:

- `strings.dfy` (`Strings`): the JavaScript string operations the engine uses:
  `includes`, `indexOf`, `toLowerCase`, `split` on a character class, `trim`,
  `join`, and capitalising the first character.
- `seqs.dfy` (`Seqs`): `filter`, `find`, `slice(0, n)`, a `forEach` that pushes,
  and order-preserving sub-lists.
- `numbers.dfy` (`Numbers`): `Math.round` of a quotient over exact rationals.
- `types.dfy` (`Types`): the records of `lib/types.ts`.
- `skills.dfy` (`Skills`): the per-skill pass and its helpers.
- `keywords.dfy` (`Keywords`): the keyword pass and the missing-skill pass.
- `scoring.dfy` (`Scoring`): the overall score and the improvement records.
- `analysis.dfy` (`Analysis`): `analyzeResumeMatch`.

The form follows the source:

- The code that builds arrays by `push` is written as methods with loops or
  step-by-step appends: `forEach` + `push` in `extractAndMatchSkills`, and the
  pushes in `generateSkillSuggestions` and `generateImprovements`. Each method
  is proved equal to a specification function.
- The pure helpers are functions.
- Lemmas state the properties the engine promises about the functions.

## Model

| member | source | states |
|---|---|---|
| Strings.ToLowerIsLower | lib/analysis-engine.ts:4-5 | the lower-cased texts the passes receive are fixed points of lower-casing |
| Strings.Includes | lib/analysis-engine.ts:50-51 | `includes` holds exactly when the pattern occurs at some index of the text |
| Strings.IndexOf | lib/analysis-engine.ts:95 | `indexOf` is -1 exactly when there is no occurrence; otherwise it is an occurrence and no earlier index is one |
| Strings.Capitalize | lib/analysis-engine.ts:59 | the name has the skill's length, its first character upper-cased, the skill's tail, and lower-cases to what the skill lower-cases to |
| Strings.Split | lib/analysis-engine.ts:105 | `split` on a separator class yields at least one piece; every piece is a substring free of separators; a text without separators yields itself |
| Strings.SplitRebuilds | lib/analysis-engine.ts:105 | the pieces, in order, with non-empty separator runs between them, rebuild the text, and only the first and last piece can be empty: the pieces are exactly the maximal separator-free runs |
| Strings.Trim | lib/analysis-engine.ts:130 | `trim` yields the part of the text between a white-space prefix and a white-space suffix, and that part neither starts nor ends with white space |
| Strings.TrimKeepsTerm | lib/analysis-engine.ts:130 | trimming a sentence never cuts into an occurrence of a vocabulary term |
| Strings.JoinIncludes | lib/analysis-engine.ts:253 | every joined name occurs in `join(', ')` |
| Seqs.Filter | lib/analysis-engine.ts:15-16 | `filter` keeps exactly the entries that pass, and no more than the input has |
| Seqs.FilterCounts | lib/analysis-engine.ts:15-16 | `filter` keeps each passing value exactly as many times as the input holds it, and no other value |
| Seqs.FilterBefore | lib/analysis-engine.ts:218-220 | `filter` keeps the input's order: a passing entry that is none of the first j + 1 kept entries comes after the j-th kept entry in the input |
| Seqs.FilterIsSubsequence | lib/analysis-engine.ts:15-16 | `filter` keeps the input's order |
| Seqs.FilterPartition | lib/analysis-engine.ts:188-194 | two complementary filters together keep every entry once |
| Seqs.Find | lib/analysis-engine.ts:126-128 | `find` gives the first entry that passes, and none exactly when no entry passes |
| Seqs.Prefix | lib/analysis-engine.ts:73 | `slice(0, n)` is a prefix of length min(n, length) |
| Seqs.FilterMapSound | lib/analysis-engine.ts:49-71 | every value pushed by the `forEach` is the image of an entry that passed the test |
| Seqs.FilterMapComplete | lib/analysis-engine.ts:49-71 | the image of every entry that passed the test is pushed |
| Seqs.FilterMapIsMapOfFilter | lib/analysis-engine.ts:49-71 | the `forEach` pushes the image of each passing entry exactly once, in the input's order: it equals filtering and then mapping |
| Numbers.RoundDiv | lib/analysis-engine.ts:111 | `Math.round(n / d)` is the integer r with r - 1/2 <= n/d < r + 1/2 |
| Numbers.RoundDivBounds | lib/analysis-engine.ts:228 | rounding a quotient that lies in [lo, hi] stays in [lo, hi] |
| Skills.SkillContext | lib/analysis-engine.ts:94-102 | the window is "" exactly when the skill is absent; otherwise it is a substring of the text that contains the skill and is at most 200 characters longer than it |
| Skills.ContextWindow | lib/analysis-engine.ts:94-102 | the window starts min(100, i) characters before the first occurrence i of the skill and runs min(100, characters left) past its end |
| Skills.CommonWordCount | lib/analysis-engine.ts:108 | the common-word count never exceeds the first window's word count |
| Skills.ContextSimilarity | lib/analysis-engine.ts:104-112 | the similarity is in [0, 30], is 30·common/max rounded half up, and is 0 when no word is shared or when neither window has a long word (the corrected 0/0 case) |
| Skills.ContextSimilarityAsWritten | lib/analysis-engine.ts:104-112 | the source's similarity is undefined exactly when neither window has a word longer than 3 characters, and agrees with ContextSimilarity otherwise |
| Skills.SimilarityUndefinedForAws | lib/analysis-engine.ts:104-112 | résumé "aws" against job description "aws" gives windows "aws" and an undefined (NaN) similarity |
| Skills.SimilarityOfIdenticalWindows | lib/analysis-engine.ts:104-112 | a window with a long word compared with itself scores the full 30 |
| Skills.IncludesAny | lib/analysis-engine.ts:118 | `some(includes)` holds exactly when one of the keys occurs in the text |
| Skills.ExperienceBonus | lib/analysis-engine.ts:114-120 | the bonus is 0 or 10, and 10 exactly when an experience word occurs in the skill's résumé window |
| Skills.SkillScore | lib/analysis-engine.ts:76-92 | 0 when the skill is not in the résumé; 30 when it is only in the résumé; in both, 60 + similarity + bonus in [60, 100], so the cap at 100 never binds |
| Skills.RelevantSnippet | lib/analysis-engine.ts:122-142 | with no `[.!?]` piece of the window that mentions the skill and is longer than 20 characters, the fallback; otherwise the trim of the first such piece, or the fallback when it trims to ""; a non-fallback snippet is a non-empty trimmed substring of the text without terminators; over a lower-cased text it contains the skill and the first relevant piece never trims to "" |
| Skills.FirstSnippet | lib/analysis-engine.ts:126-130 | `find`, then `trim()` or the fallback: the fallback when no piece is relevant, otherwise the trim of the first relevant piece unless it is "" |
| Skills.Evidence | lib/analysis-engine.ts:122-131 | "Experience with {skill} mentioned in resume" when no piece of the window is relevant; over a lower-cased résumé, the trimmed first relevant piece otherwise; any other value is a piece of the résumé at most 200 characters longer than the skill, that contains it |
| Skills.JobRequirement | lib/analysis-engine.ts:133-142 | "{skill} required for this position" when no piece of the window is relevant; over a lower-cased job description, the trimmed first relevant piece otherwise; any other value is a piece of the job description at most 200 characters longer than the skill, that contains it |
| Skills.ExperienceLevelOf | lib/analysis-engine.ts:144-154 | Senior exactly when "senior", "lead" or "expert" is in the skill's window; Intermediate exactly when none of those is but "years" or "experience" is; Junior otherwise; a level above Junior always comes with the experience bonus, and a Junior skill earns it exactly when "advanced" is in its window |
| Skills.LevelAgreesWithBonus | lib/analysis-engine.ts:114-120 | the bonus is 10 exactly when one of "senior", "lead", "expert", "advanced", "years" or "experience" occurs in the skill's résumé window |
| Skills.SkillSuggestions | lib/analysis-engine.ts:156-169 | exactly 2 prompts when the skill is only in the job description, exactly 3 when it is in both and scores below 70, none otherwise |
| Skills.SuggestionsNameSkill | lib/analysis-engine.ts:156-169 | every prompt names the skill |
| Skills.GenerateSkillSuggestions | lib/analysis-engine.ts:156-169 | pushing the prompts one by one gives SkillSuggestions |
| Skills.RelatedKeywords | lib/analysis-engine.ts:171-182 | the list is the table entry of the lower-cased skill, non-empty exactly for the skills of the table, and [] otherwise; it has at most 5 entries |
| Skills.RelatedKeywordKeys | lib/analysis-engine.ts:172-179 | the table has exactly the six keys javascript, react, python, aws, docker and sql; "React" finds the react entry and "Go" finds nothing |
| Skills.BuildMatchFacts | lib/analysis-engine.ts:58-69 | a pushed record scores in [0, 100] with contextMatch equal to score; its relevance band follows the 70/40 thresholds; keywordMatch is 100, 50 or 0 by where the skill was found; its name is the skill with the first character upper-cased; it has two suggestions exactly when the skill is only in the job description; a level above Junior goes with a score of 0, 30 or at least 70 |
| Skills.RecordQuotesSkill | lib/analysis-engine.ts:58-62 | over lower-cased texts, a vocabulary term's record is named after it, and its evidence and requirement are the stock sentences or quote the term |
| Skills.CandidatesSound | lib/analysis-engine.ts:49-71 | every pushed record is the record of a vocabulary skill found in one of the texts |
| Skills.CandidatesComplete | lib/analysis-engine.ts:49-71 | every vocabulary skill found in one of the texts has its record pushed |
| Skills.CandidatesOfAbsent | lib/analysis-engine.ts:49-71 | when no skill is in either text nothing is pushed |
| Skills.InsertByScore | lib/analysis-engine.ts:73 | inserting into a sorted list keeps it sorted and adds one entry |
| Skills.SortByScore | lib/analysis-engine.ts:73 | the sort yields a list of the same length, sorted by non-increasing score |
| Skills.SortByScorePermutes | lib/analysis-engine.ts:73 | the sort is a permutation of its input |
| Skills.SortByScoreStable | lib/analysis-engine.ts:73 | the sort is stable: records of equal score keep their order |
| Skills.TopTwelve | lib/analysis-engine.ts:73 | sort-then-slice gives min(12, n) sorted records from the input, each score's records in input order, and none scoring below a record that was cut |
| Skills.MatchSkill | lib/analysis-engine.ts:50-69 | the record pushed for one skill is BuildMatch |
| Skills.ScanSkills | lib/analysis-engine.ts:47-71 | the `forEach` with `push` builds exactly the list Candidates |
| Skills.TopMatchesFacts | lib/analysis-engine.ts:35-74 | the returned list has min(12, found) records, sorted by score, each the record of a vocabulary skill found in a text; equal scores keep vocabulary order; no returned record scores below a cut one |
| Skills.ExtractAndMatchSkills | lib/analysis-engine.ts:35-74 | the method returns TopMatches over the 44-skill vocabulary |
| Keywords.ExtractKeywords | lib/analysis-engine.ts:199-208 | exactly the vocabulary keywords that occur in the text, in vocabulary order |
| Keywords.AnyRelated | lib/analysis-engine.ts:189 | true exactly when some résumé keyword contains the keyword or is contained in it |
| Keywords.AnalyzeKeywords | lib/analysis-engine.ts:184-197 | matched and missing together have as many entries as the job description's keywords; each matched one is related to a résumé keyword and each missing one is not; every job-description keyword lands in one of them |
| Keywords.KeywordSplitDisjointOrdered | lib/analysis-engine.ts:188-194 | matched and missing share no keyword and both keep vocabulary order |
| Keywords.SharedKeywordIsMatched | lib/analysis-engine.ts:189 | a job-description keyword that also occurs in the résumé is always matched, never missing |
| Keywords.ExtractMissingSkills | lib/analysis-engine.ts:210-221 | at most 8 skills, each in the job description and not in the résumé, in vocabulary order; they are the first such skills of the vocabulary: any such skill left out comes after all of them, and with fewer than 8 none is left out |
| Scoring.SumScoresBounds | lib/analysis-engine.ts:224 | n scores in [0, 100] sum to a value in [0, 100·n] |
| Scoring.OverallScore | lib/analysis-engine.ts:223-229 | the score is in [0, 100]; with skills and keywords it is round(0.7·mean + 0.3·100·matched/total); with skills only it is round(0.7·mean), with keywords only round(0.3·100·matched/total), with neither 0 (the corrected 0/0 cases) |
| Scoring.OverallScoreAsWritten | lib/analysis-engine.ts:223-229 | the source's score is undefined exactly when there are no skill records or no job-description keywords, and agrees with OverallScore otherwise |
| Scoring.OverallScoreUndefinedForEmptyLists | lib/analysis-engine.ts:223-229 | empty lists give NaN in the source and 0 in the corrected score |
| Scoring.PerfectOverallScore | lib/analysis-engine.ts:223-229 | every skill at 100 and every keyword matched gives 100 |
| Scoring.AdviceTextMentions | lib/analysis-engine.ts:244-262 | each suggestion text names the skill, skills or keywords it was built from |
| Scoring.NamedEntries | lib/analysis-engine.ts:253-262 | the Skill Gaps text names the first three missing skills, the Keyword Optimization text the first five missing keywords |
| Scoring.FirstWeak | lib/analysis-engine.ts:240-241 | there is a weak record exactly when some record scores below 60, and it is the first such record |
| Scoring.AssembleOrder | lib/analysis-engine.ts:237-279 | the pushes give 2 to 5 records in category order, ending with Impact Quantification and Technical Detail |
| Scoring.AssembleRecords | lib/analysis-engine.ts:237-279 | each optional category's record in the list is exactly the one pushed for it |
| Scoring.ImprovementsFacts | lib/analysis-engine.ts:231-282 | 2 to 5 records in category order, the last two fixed; Skill Enhancement exactly when some record scores below 60, naming the first one; Skill Gaps exactly when skills are missing; Keyword Optimization exactly when more keywords are missing than matched |
| Scoring.GenerateImprovements | lib/analysis-engine.ts:231-282 | pushing the records one by one gives Improvements |
| Analysis.TopMatchesInRange | lib/analysis-engine.ts:8 | every returned skill record scores in [0, 100] |
| Analysis.FirstWeakIsStrongestWeak | lib/analysis-engine.ts:240-244 | in the sorted list the record Skill Enhancement names is the highest-scoring weak record |
| Analysis.EmptyTexts | lib/analysis-engine.ts:35-221 | two empty texts give no skill records, no keywords and no missing skills |
| Analysis.StrongAndPartial | lib/analysis-engine.ts:15-16 | strong holds exactly the records scoring 80 or more and partial exactly those from 40 to 79, both in list order, and none is in both |
| Analysis.AnalysisSkillLists | lib/analysis-engine.ts:3-33 | the result's skill list has at most 12 records sorted by score in [0, 100]; strong and partial are its order-preserving, disjoint sub-lists by score band |
| Analysis.AnalysisSummary | lib/analysis-engine.ts:3-33 | the overall score is in [0, 100], there are 2 to 5 improvements ending with the two fixed records, and the date is the one supplied |
| Analysis.RecordsQuoteTheirSkills | lib/analysis-engine.ts:3-8 | every returned record is named after a vocabulary skill, and because both texts are lower-cased first, its evidence and requirement are the stock sentences or quote that skill |
| Analysis.AnalysisDerived | lib/analysis-engine.ts:11-21 | the overall score and the improvements are computed from the result's own lists |
| Analysis.EmptyDocuments | lib/analysis-engine.ts:3-33 | two empty documents give empty lists, an overall score of 0 and exactly the two fixed improvement records |
| Analysis.AnalyzeResumeMatch | lib/analysis-engine.ts:3-33 | the method computes the result record Analysis |

## Left out

- Clock: `new Date().toISOString()` is the parameter `analysisDate` of `Analysis.AnalyzeResumeMatch`.
- Case mapping: `toLowerCase` and `toUpperCase` map only the ASCII letters. Other characters pass unchanged.
- String length: lengths count characters, not UTF-16 code units. The window bounds and the `length > 3` and `length > 20` tests can differ for characters outside the Basic Multilingual Plane.
- Floating point: `Math.round` and the `0.7` and `0.3` weights are over exact rationals. IEEE-754 rounding can differ by one at a .5 boundary.
- Skills.ContextSimilarity: 0 where the source yields NaN when neither window has a word longer than 3 characters. The NaN would spread into the skill score and every later comparison, and the model does not follow that. Skills.ContextSimilarityAsWritten keeps the source's undefined case.
- Scoring.OverallScore: 0 replaces the undefined average of an empty skill list and the undefined ratio of an empty keyword list. Scoring.OverallScoreAsWritten keeps both undefined cases.
- Improvement text: the suggestion text of an improvement is held as an `Advice` template with its values, and the category as a `Category` value. `Scoring.AdviceText` and `Scoring.CategoryName` give the exact strings.
- Experience level: the experience level is the datatype `ExperienceLevel`, not the strings 'Senior', 'Intermediate' and 'Junior'.
- Skills.RelatedKeywords: the table lookup does not model JavaScript's prototype keys. `keywordMap['constructor']` would find an inherited member, but every vocabulary skill misses those.
- Components and parser: the React components, the PDF export, the résumé parser (`lib/resume-parser.ts`) and the sample data are not part of this model. They are UI, browser I/O and fixtures.

## Findings

| source | as written | input that shows it | evidently intended | confidence | as-written member | corrected member |
|---|---|---|---|---|---|---|
| lib/analysis-engine.ts:109 | the common-word count is divided by the larger word count, which is 0 when neither window has a word longer than 3 characters, giving NaN | résumé "aws", job description "aws" | a similarity of 0 when there are no long words | not executed | Skills.ContextSimilarityAsWritten, Skills.SimilarityUndefinedForAws | Skills.ContextSimilarity |
| lib/analysis-engine.ts:224-225 | the sum of scores is divided by the number of skill records and the matched count by the keyword total, both unguarded, giving NaN | empty résumé and empty job description (no skills, no keywords) | an average of 0 for no skills and a keyword ratio of 0 for no keywords | not executed | Scoring.OverallScoreAsWritten, Scoring.OverallScoreUndefinedForEmptyLists | Scoring.OverallScore |
