/**
 * Concrete inputs worked through the model: the fallback order on a response
 * carrying several candidate keys; a semantic response with a score, matched
 * and missing skills; an error response; an improvement response holding only
 * priority actions; quality responses holding only issues; a contributing
 * factor whose impact and description are 0; and a sign-in whose user name
 * comes from the email address.
 */
module Scenarios {
  import opened Options
  import opened JsText
  import opened JsValue
  import opened Presentation
  import opened Score
  import opened ResultCard
  import opened ResultCardProperties
  import opened EmailFormat
  import opened Login

  /** `match_score: 10` wins over `score: 90`. */
  lemma FirstKeyWinsScenario()
    ensures Resolve(JObj([("match_score", JNum(10)), ("score", JNum(90))]), MatchScore) == JNum(10)
  {
    var data := JObj([("match_score", JNum(10)), ("score", JNum(90))]);
    assert FirstTruthyAt(Probes(data, Candidates(MatchScore)), 0);
  }

  /** `match_score: 0` is falsy, so `score: 90` is shown instead. */
  lemma ZeroScoreFallsThroughScenario()
    ensures Resolve(JObj([("match_score", JNum(0)), ("score", JNum(90))]), MatchScore) == JNum(90)
  {
    var data := JObj([("match_score", JNum(0)), ("score", JNum(90))]);
    assert Path(data, ["semantic_score"]) == JNull;
    assert FirstTruthyAt(Probes(data, Candidates(MatchScore)), 2);
  }

  /** `missing_skills: []` is truthy, so `gaps.skills` is never consulted. */
  lemma EmptyListStopsFallbackScenario()
    ensures var data := JObj([("missing_skills", JArr([])), ("gaps", JObj([("skills", JArr([JStr("Go")]))]))]);
      Listed(data, MissingSkills) && Items(data, MissingSkills) == []
  {
    var data := JObj([("missing_skills", JArr([])), ("gaps", JObj([("skills", JArr([JStr("Go")]))]))]);
    assert FirstTruthyAt(Probes(data, Candidates(MissingSkills)), 0);
  }

  /** A semantic response with a score of 72, one matched and one missing
      skill and an empty list of experience gaps. */
  function SemanticResponse(): Json {
    JObj([("match_score", JNum(72)), ("matched_skills", JArr([JStr("Python")])),
          ("missing_skills", JArr([JStr("Go")])), ("gaps", JObj([("experience", JArr([]))]))])
  }

  lemma SemanticScores()
    ensures Truthy(SemanticResponse()) && Field(SemanticResponse(), "error") == JNull
    ensures Resolve(SemanticResponse(), MatchScore) == JNum(72)
  {
    FirstCandidateWins(SemanticResponse(), MatchScore);
  }

  lemma SemanticNoVerdict()
    ensures Resolve(SemanticResponse(), Verdict) == JStr("")
  {
    var data := SemanticResponse();
    assert Path(data, ["verdict"]) == JNull && Path(data, ["recommendation"]) == JNull;
    AllFalsyGivesDefault(data, Verdict);
  }

  lemma SemanticMatched()
    ensures Resolve(SemanticResponse(), MatchedSkills) == JArr([JStr("Python")])
  {
    FirstCandidateWins(SemanticResponse(), MatchedSkills);
  }

  lemma SemanticMissing()
    ensures Resolve(SemanticResponse(), MissingSkills) == JArr([JStr("Go")])
  {
    FirstCandidateWins(SemanticResponse(), MissingSkills);
  }

  lemma SemanticGaps()
    ensures Resolve(SemanticResponse(), MissingExperience) == JArr([])
  {
    var data := SemanticResponse();
    assert Path(data, ["missing_experience"]) == JNull;
    assert Path(data, ["gaps", "experience"]) == JArr([]);
    FalsyCandidateFallsThrough(data, MissingExperience);
  }

  lemma SemanticItems()
    ensures WellShaped(Semantic, SemanticResponse())
    ensures Items(SemanticResponse(), MatchedSkills) == [JStr("Python")]
    ensures Items(SemanticResponse(), MissingSkills) == [JStr("Go")]
    ensures Items(SemanticResponse(), MissingExperience) == []
  {
    SemanticMatched();
    SemanticMissing();
    SemanticGaps();
  }

  /** The semantic example's report is the semantic layout of its resolved
      parts. */
  lemma SemanticParts()
    ensures WellShaped(Semantic, SemanticResponse())
    ensures SemanticMatchResult(SemanticResponse())
      == SemanticLayout(JNum(72), JStr(""), [JStr("Python")], [JStr("Go")], [])
  {
    SemanticScores();
    SemanticNoVerdict();
    SemanticItems();
  }

  /** The semantic layout of the example's parts, block by block. */
  lemma SemanticExampleLayout()
    ensures SemanticLayout(JNum(72), JStr(""), [JStr("Python")], [JStr("Go")], []) == [
      Block(None, [ScoreIndicator("Match Score", 72, Warning), VerdictPanel(JStr("Resume analysis complete"))]),
      Block(Some("Matched Skills"), [Badge(Success, JStr("Python"))]),
      Block(Some("Missing Skills"), [Badge(Error, JStr("Go"))])]
  {
    var overview := Block(None, [ScoreIndicator("Match Score", 72, Warning), VerdictPanel(JStr("Resume analysis complete"))]);
    var matched := Block(Some("Matched Skills"), [Badge(Success, JStr("Python"))]);
    var missing := Block(Some("Missing Skills"), [Badge(Error, JStr("Go"))]);
    SemanticLayoutShape(JNum(72), JStr(""), [JStr("Python")], [JStr("Go")], []);
    assert Indicator(JNum(72), "Match Score") == ScoreIndicator("Match Score", 72, Warning);
    assert Map(SuccessBadge, [JStr("Python")]) == [Badge(Success, JStr("Python"))];
    assert Map(ErrorBadge, [JStr("Go")]) == [Badge(Error, JStr("Go"))];
    assert [overview] + [matched] + [missing] + [] == [overview, matched, missing];
  }

  lemma SemanticBlocks()
    ensures WellShaped(Semantic, SemanticResponse())
    ensures SemanticMatchResult(SemanticResponse()) == [
      Block(None, [ScoreIndicator("Match Score", 72, Warning), VerdictPanel(JStr("Resume analysis complete"))]),
      Block(Some("Matched Skills"), [Badge(Success, JStr("Python"))]),
      Block(Some("Missing Skills"), [Badge(Error, JStr("Go"))])]
  {
    SemanticParts();
    SemanticExampleLayout();
  }

  /** The semantic example is shown as a panel of semantic sections. */
  lemma SemanticPanel()
    ensures WellShaped(Semantic, SemanticResponse())
    ensures Renderable("semantic", SemanticResponse(), false)
    ensures Render("semantic", SemanticResponse(), false)
      == Panel("Semantic Match Analysis", SemanticMatchResult(SemanticResponse()))
  {
    SemanticScores();
    SemanticItems();
    assert KindOf("semantic") == Semantic;
  }

  /** The semantic example renders the overview, Matched Skills and Missing
      Skills, and no Experience Gaps section. */
  lemma SemanticScenario()
    ensures Renderable("semantic", SemanticResponse(), false)
    ensures Render("semantic", SemanticResponse(), false) == Panel("Semantic Match Analysis", [
      Block(None, [ScoreIndicator("Match Score", 72, Warning), VerdictPanel(JStr("Resume analysis complete"))]),
      Block(Some("Matched Skills"), [Badge(Success, JStr("Python"))]),
      Block(Some("Missing Skills"), [Badge(Error, JStr("Go"))])])
  {
    SemanticBlocks();
    SemanticPanel();
  }

  /** An error response renders one alert under the kind's title, for every
      kind. */
  lemma ErrorScenario(t: string)
    ensures Render(t, JObj([("error", JStr("Unable to parse resume"))]), false)
      == Panel(Title(KindOf(t)), [Block(None, [Alert(JStr("Unable to parse resume"))])])
  {
    var data := JObj([("error", JStr("Unable to parse resume"))]);
    assert Field(data, "error") == JStr("Unable to parse resume");
    ErrorWins(t, t, data);
  }

  /** An improvement response holding only a list of priority actions. */
  function ImproveResponse(actions: seq<Json>): Json {
    JObj([("priority_actions", JArr(actions))])
  }

  lemma ImproveClean(actions: seq<Json>)
    ensures Truthy(ImproveResponse(actions)) && Field(ImproveResponse(actions), "error") == JNull
  {
  }

  lemma ImproveActions(actions: seq<Json>)
    ensures Resolve(ImproveResponse(actions), PriorityActions) == JArr(actions)
  {
    var data := ImproveResponse(actions);
    assert Path(data, Candidates(PriorityActions)[0]) == JArr(actions) by {
      assert Candidates(PriorityActions)[0] == ["priority_actions"];
    }
    FirstCandidateWins(data, PriorityActions);
  }

  lemma ImproveNoSuggestions(actions: seq<Json>)
    ensures Resolve(ImproveResponse(actions), Suggestions) == JArr([])
  {
    var data := ImproveResponse(actions);
    assert Path(data, ["suggestions"]) == JNull && Path(data, ["improvements"]) == JNull;
    AllFalsyGivesDefault(data, Suggestions);
  }

  lemma ImproveNoSections(actions: seq<Json>)
    ensures Resolve(ImproveResponse(actions), SectionImprovements) == JObj([])
  {
    var data := ImproveResponse(actions);
    assert Path(data, ["section_improvements"]) == JNull;
    AllFalsyGivesDefault(data, SectionImprovements);
  }

  lemma ImproveItems(actions: seq<Json>)
    ensures WellShaped(Improve, ImproveResponse(actions))
    ensures Items(ImproveResponse(actions), PriorityActions) == actions
    ensures Items(ImproveResponse(actions), Suggestions) == []
    ensures Entries(Resolve(ImproveResponse(actions), SectionImprovements)) == []
  {
    ImproveActions(actions);
    ImproveNoSuggestions(actions);
    ImproveNoSections(actions);
  }

  /** An improvement report whose only non-empty part is its priority
      actions is one numbered section. */
  lemma OnlyPriorityActions(data: Json)
    requires WellShaped(Improve, data)
    requires Items(data, PriorityActions) != [] && Items(data, Suggestions) == []
    requires Entries(Resolve(data, SectionImprovements)) == []
    ensures ImprovementResult(data) == [Block(Some("Priority Actions"), NumberedFrom(Items(data, PriorityActions), 1))]
  {
    var actions := Items(data, PriorityActions);
    assert ImprovementResult(data) == PriorityAndSuggestions(actions, []) + Map(SectionImprovementBlock, []);
    assert PriorityAndSuggestions(actions, []) == [Block(Some("Priority Actions"), NumberedFrom(actions, 1))] + [];
  }

  /** A response with only priority actions shows one numbered section and
      nothing else; the actions are numbered from 1, in order. */
  lemma PriorityActionsScenario(actions: seq<Json>)
    requires actions != []
    ensures WellShaped(Improve, ImproveResponse(actions))
    ensures ImprovementResult(ImproveResponse(actions)) == [Block(Some("Priority Actions"), NumberedFrom(actions, 1))]
  {
    ImproveItems(actions);
    OnlyPriorityActions(ImproveResponse(actions));
  }

  /** A quality response whose only field is `issues`. */
  function IssuesResponse(issues: seq<Json>): Json {
    JObj([("issues", JArr(issues))])
  }

  lemma IssuesListed(issues: seq<Json>)
    ensures Resolve(IssuesResponse(issues), Issues) == JArr(issues)
  {
    FirstCandidateWins(IssuesResponse(issues), Issues);
  }

  lemma IssuesNoBreakdown(issues: seq<Json>)
    ensures Resolve(IssuesResponse(issues), Breakdown) == JObj([])
  {
    var data := IssuesResponse(issues);
    assert Path(data, ["breakdown"]) == JNull && Path(data, ["categories"]) == JNull;
    AllFalsyGivesDefault(data, Breakdown);
  }

  lemma IssuesNoScore(issues: seq<Json>)
    ensures Resolve(IssuesResponse(issues), OverallScore) == JNum(0)
  {
    var data := IssuesResponse(issues);
    assert Path(data, ["overall_score"]) == JNull && Path(data, ["quality_score"]) == JNull;
    assert Path(data, ["score"]) == JNull;
    AllFalsyGivesDefault(data, OverallScore);
  }

  /** A quality report with an empty breakdown is the overview followed by
      the optional Issues Found section. */
  lemma QualityWithoutBreakdown(data: Json)
    requires Listed(data, Issues) && Entries(Resolve(data, Breakdown)) == []
    ensures QualityScoreResult(data)
      == [Block(None, [Indicator(Resolve(data, OverallScore), "ATS Quality Score")])] + []
         + SectionIf("Issues Found", Map(ErrorRow, Items(data, Issues)))
  {
  }

  /** The quality report for a response holding only `issues`: the score
      overview at 0, no breakdown, and Issues Found only when there are
      issues. */
  lemma IssuesBlocks(issues: seq<Json>)
    ensures Resolve(IssuesResponse(issues), Issues) == JArr(issues)
    ensures QualityScoreResult(IssuesResponse(issues))
      == [Block(None, [ScoreIndicator("ATS Quality Score", 0, Error)])] + []
         + SectionIf("Issues Found", Map(ErrorRow, issues))
  {
    var data := IssuesResponse(issues);
    IssuesListed(issues);
    assert Entries(Resolve(data, Breakdown)) == [] by {
      IssuesNoBreakdown(issues);
    }
    assert Indicator(Resolve(data, OverallScore), "ATS Quality Score") == ScoreIndicator("ATS Quality Score", 0, Error) by {
      IssuesNoScore(issues);
    }
    QualityWithoutBreakdown(data);
  }

  /** `issues: []` gives no Issues Found section. */
  lemma NoIssuesScenario()
    ensures Listed(IssuesResponse([]), Issues)
    ensures QualityScoreResult(IssuesResponse([])) == [Block(None, [ScoreIndicator("ATS Quality Score", 0, Error)])]
  {
    IssuesBlocks([]);
    assert Map(ErrorRow, []) == [];
  }

  /** One issue gives exactly one Issues Found section holding one row. */
  lemma OneIssueScenario()
    ensures Listed(IssuesResponse([JStr("Typo in summary")]), Issues)
    ensures QualityScoreResult(IssuesResponse([JStr("Typo in summary")]))
      == [Block(None, [ScoreIndicator("ATS Quality Score", 0, Error)]),
          Block(Some("Issues Found"), [ListItem(Error, JStr("Typo in summary"))])]
  {
    IssuesBlocks([JStr("Typo in summary")]);
    assert Map(ErrorRow, [JStr("Typo in summary")]) == [ListItem(Error, JStr("Typo in summary"))];
  }

  /** A factor `{ name: 'x', impact: 0, description: 0 }` shows its name and,
      where the badge and the description would be, the text "0" twice. */
  lemma ZeroImpactScenario()
    ensures Factor(JObj([("name", JStr("x")), ("impact", JNum(0)), ("description", JNum(0))]))
      == FactorItem(JStr("x"), StrayZero, StrayZero)
  {
  }

  lemma SampleEmailValid()
    ensures RegexMatches("a@b.com")
    ensures BeforeFirst("a@b.com", '@') == "a"
  {
    var email := "a@b.com";
    assert email[..1] == "a" && email[2..3] == "b" && email[4..] == "com";
    assert SplitsAt(email, 1, 3);
  }

  /** Signing in as `a@b.com` with a six-character password and no name
      submits the user `a`. */
  lemma SignInScenario()
    ensures FormErrors(false, FormData("", "a@b.com", "secret")) == map[]
    ensures SubmittedUser(FormData("", "a@b.com", "secret")) == User("a", "a@b.com")
  {
    SampleEmailValid();
    assert Utf16Length("secret") >= 6;
    ValidIff(false, FormData("", "a@b.com", "secret"));
  }
}
