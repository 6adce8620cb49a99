/** The keyword pass and the missing-skill pass of the engine:
    `analyzeKeywords`, `extractKeywords` and `extractMissingSkills`
    (lib/analysis-engine.ts:184-221). The texts they receive are already
    lower-cased. */
module Keywords {
  import opened Strings
  import opened Seqs

  /** The keyword vocabulary, in the order the engine scans it, one group per
      line of the source's list. */
  const CommonKeywords: seq<Term> := ProcessKeywords + ArchitectureKeywords + QualityKeywords + PeopleKeywords

  const ProcessKeywords: seq<Term> := ["agile", "scrum", "kanban", "ci/cd", "devops", "microservices"]
  const ArchitectureKeywords: seq<Term> := ["api", "rest", "graphql", "database", "cloud", "security"]
  const QualityKeywords: seq<Term> := ["testing", "debugging", "optimization", "scalability"]
  const PeopleKeywords: seq<Term> := ["collaboration", "leadership", "mentoring", "communication"]

  function OccursIn(text: string): Term -> bool {
    keyword => Includes(text, keyword)
  }

  /** `extractKeywords`: the vocabulary keywords that occur in `text`, in vocabulary order. */
  function ExtractKeywords(text: string): (r: seq<Term>)
    ensures forall i :: 0 <= i < |r| ==> Includes(text, r[i])
    ensures forall k :: 0 <= k < |CommonKeywords| && Includes(text, CommonKeywords[k]) ==> CommonKeywords[k] in r
    ensures IsSubsequence(r, CommonKeywords)
  {
    FilterIsSubsequence(CommonKeywords, OccursIn(text));
    Filter(CommonKeywords, OccursIn(text))
  }

  /** The containment test of `analyzeKeywords`: either keyword contains the other. */
  predicate Related(resumeKeyword: string, keyword: string) {
    Includes(resumeKeyword, keyword) || Includes(keyword, resumeKeyword)
  }

  /** `resumeKeywords.some(rKeyword => rKeyword.includes(keyword) || keyword.includes(rKeyword))`. */
  function AnyRelated(resumeKeywords: seq<Term>, keyword: Term): (b: bool)
    ensures b <==> exists i :: 0 <= i < |resumeKeywords| && Related(resumeKeywords[i], keyword)
  {
    Find(resumeKeywords, rKeyword => Related(rKeyword, keyword)).Some?
  }

  function MatchedBy(resumeKeywords: seq<Term>): Term -> bool {
    (keyword: Term) => AnyRelated(resumeKeywords, keyword)
  }

  function UnmatchedBy(resumeKeywords: seq<Term>): Term -> bool {
    (keyword: Term) => !AnyRelated(resumeKeywords, keyword)
  }

  datatype KeywordSplit = KeywordSplit(matchedKeywords: seq<Term>, missingKeywords: seq<Term>)

  /** `analyzeKeywords`: the job description's keywords, split into those some
      résumé keyword is related to and the rest. */
  function AnalyzeKeywords(resumeText: string, jdText: string): (split: KeywordSplit)
    ensures var jd, rk := ExtractKeywords(jdText), ExtractKeywords(resumeText);
      && |split.matchedKeywords| + |split.missingKeywords| == |jd|
      && (forall i :: 0 <= i < |split.matchedKeywords| ==>
            split.matchedKeywords[i] in jd && AnyRelated(rk, split.matchedKeywords[i]))
      && (forall i :: 0 <= i < |split.missingKeywords| ==>
            split.missingKeywords[i] in jd && !AnyRelated(rk, split.missingKeywords[i]))
      && (forall i :: 0 <= i < |jd| ==> jd[i] in split.matchedKeywords || jd[i] in split.missingKeywords)
  {
    var jd, rk := ExtractKeywords(jdText), ExtractKeywords(resumeText);
    FilterPartition(jd, MatchedBy(rk), UnmatchedBy(rk));
    KeywordSplit(Filter(jd, MatchedBy(rk)), Filter(jd, UnmatchedBy(rk)))
  }

  /** The two lists share no keyword, and each keeps the job description's
      (so the vocabulary's) order. */
  lemma KeywordSplitDisjointOrdered(resumeText: string, jdText: string)
    ensures var split := AnalyzeKeywords(resumeText, jdText);
      && (forall x :: x in split.matchedKeywords ==> x !in split.missingKeywords)
      && IsSubsequence(split.matchedKeywords, ExtractKeywords(jdText))
      && IsSubsequence(split.missingKeywords, ExtractKeywords(jdText))
  {
    var jd, rk := ExtractKeywords(jdText), ExtractKeywords(resumeText);
    FilterIsSubsequence(jd, MatchedBy(rk));
    FilterIsSubsequence(jd, UnmatchedBy(rk));
  }

  /** A job-description keyword that occurs in the résumé is always matched:
      it is among the résumé's keywords, and a keyword contains itself. */
  lemma SharedKeywordIsMatched(resumeText: string, jdText: string, keyword: Term)
    requires keyword in ExtractKeywords(jdText) && Includes(resumeText, keyword)
    ensures keyword in AnalyzeKeywords(resumeText, jdText).matchedKeywords
    ensures keyword !in AnalyzeKeywords(resumeText, jdText).missingKeywords
  {
    var rk := ExtractKeywords(resumeText);
    var k :| 0 <= k < |CommonKeywords| && CommonKeywords[k] == keyword;
    assert keyword in rk;
    var i :| 0 <= i < |rk| && rk[i] == keyword;
    IncludesSelf(keyword);
    assert Related(rk[i], keyword);
  }

  /** The vocabulary of job-description skills `extractMissingSkills` checks, one
      group per line of the source's list. */
  const JdSkills: seq<Term> := DataMobileSkills + MobileFrameworkSkills + JdLanguageSkills + InfrastructureSkills

  const DataMobileSkills: seq<Term> := ["machine learning", "data science", "blockchain", "mobile development"]
  const MobileFrameworkSkills: seq<Term> := ["ios", "android", "flutter", "react native", "vue.js", "angular"]
  const JdLanguageSkills: seq<Term> := ["golang", "rust", "scala", "kotlin", "swift", "c++", "c#"]
  const InfrastructureSkills: seq<Term> := ["elasticsearch", "kafka", "rabbitmq", "nginx", "apache"]

  /** A skill the job description asks for and the résumé does not mention. */
  function OnlyInJd(jdText: string, resumeText: string): Term -> bool {
    skill => Includes(jdText, skill) && !Includes(resumeText, skill)
  }

  /** `extractMissingSkills`: the first 8 vocabulary skills, in vocabulary order,
      that occur in the job description but not in the résumé. */
  function ExtractMissingSkills(jdText: string, resumeText: string): (r: seq<Term>)
    ensures |r| <= 8
    ensures forall i :: 0 <= i < |r| ==> Includes(jdText, r[i]) && !Includes(resumeText, r[i])
    ensures IsSubsequence(r, JdSkills)
    ensures |r| < 8 ==>
              forall k :: 0 <= k < |JdSkills| && Includes(jdText, JdSkills[k]) && !Includes(resumeText, JdSkills[k])
                ==> JdSkills[k] in r
    ensures forall k, j ::
              (0 <= k < |JdSkills| && Includes(jdText, JdSkills[k]) && !Includes(resumeText, JdSkills[k])
               && JdSkills[k] !in r && 0 <= j < |r|) ==> r[j] in JdSkills[..k]
  {
    var all := Filter(JdSkills, OnlyInJd(jdText, resumeText));
    FilterIsSubsequence(JdSkills, OnlyInJd(jdText, resumeText));
    PrefixOfSubsequence(all, JdSkills, Min(8, |all|));
    var r := Prefix(all, 8);
    assert r == all[..Min(8, |all|)];
    MissingInOrder(jdText, resumeText, all, r);
    r
  }

  /** A qualifying skill left out of the first eight comes after all of them. */
  lemma MissingInOrder(jdText: string, resumeText: string, all: seq<Term>, r: seq<Term>)
    requires all == Filter(JdSkills, OnlyInJd(jdText, resumeText)) && r <= all
    ensures forall k, j ::
              (0 <= k < |JdSkills| && Includes(jdText, JdSkills[k]) && !Includes(resumeText, JdSkills[k])
               && JdSkills[k] !in r && 0 <= j < |r|) ==> r[j] in JdSkills[..k]
  {
    var p := OnlyInJd(jdText, resumeText);
    forall k, j | 0 <= k < |JdSkills| && Includes(jdText, JdSkills[k]) && !Includes(resumeText, JdSkills[k])
                  && JdSkills[k] !in r && 0 <= j < |r|
      ensures r[j] in JdSkills[..k]
    {
      assert all[..j + 1] == r[..j + 1];
      assert p(JdSkills[k]);
      FilterBefore(JdSkills, p, k, j);
    }
  }
}
