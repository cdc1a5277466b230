/**
 * What `ResultCard` promises: the order in which its cases win, the fallback
 * order of every canonical field, the rule that a section appears only for a
 * non-empty list (one item per element, in order), numbering, label
 * rewriting and the presentation of contributing factors.
 */
module ResultCardProperties {
  import opened Options
  import opened JsText
  import opened JsValue
  import opened Presentation
  import opened Score
  import opened ResultCard

  // ---------------------------------------------------------------------
  // Case priority

  /** While loading, the skeleton is shown whatever the type and data. */
  lemma LoadingWins(t: string, data: Json)
    ensures Render(t, data, true) == Skeleton
  {
  }

  /** Not loading and a falsy `data` (null, undefined, 0, '' or false):
      nothing is rendered. */
  lemma FalsyDataRendersNothing(t: string, data: Json)
    requires !Truthy(data)
    ensures Render(t, data, false) == Blank
  {
  }

  /** A truthy `error` gives a card with the kind's title and exactly one
      alert carrying the error, before any field is extracted: the same body
      for every type, whatever else `data` holds. */
  lemma ErrorWins(t: string, t': string, data: Json)
    requires Truthy(data) && Truthy(Field(data, "error"))
    ensures Render(t, data, false) == Panel(Title(KindOf(t)), [Block(None, [Alert(Field(data, "error"))])])
    ensures Render(t, data, false).blocks == Render(t', data, false).blocks
  {
  }

  /** Any type other than the four known ones is titled 'Analysis Result'
      and shows a single raw dump of `data`; no list field is read, so every
      such input renders. */
  lemma UnknownTypeDumpsData(t: string, data: Json)
    requires t !in ["semantic", "quality", "improve", "ml"]
    requires Truthy(data) && !Truthy(Field(data, "error"))
    ensures Renderable(t, data, false)
    ensures Render(t, data, false) == Panel("Analysis Result", [Block(None, [RawDump(data)])])
  {
  }

  /** Each known type gets the title of its `titles` entry; two different
      known types never share a title, and none of them gets the fallback. */
  lemma KnownTypesHaveOwnTitle(t: string, t': string)
    requires t in ["semantic", "quality", "improve", "ml"] && t' in ["semantic", "quality", "improve", "ml"]
    ensures Title(KindOf("semantic")) == "Semantic Match Analysis"
    ensures Title(KindOf("quality")) == "Resume Quality Score"
    ensures Title(KindOf("improve")) == "Improvement Suggestions"
    ensures Title(KindOf("ml")) == "ML Score Prediction"
    ensures t != t' ==> Title(KindOf(t)) != Title(KindOf(t'))
    ensures Title(KindOf(t)) != "Analysis Result"
  {
  }

  /** A response that is truthy and carries no truthy `error` shows its
      kind's report under its kind's title, once the report can be built. */
  lemma CleanResponseShowsContent(t: string, data: Json)
    requires Truthy(data) && !Truthy(Field(data, "error")) && WellShaped(KindOf(t), data)
    ensures Renderable(t, data, false)
    ensures Render(t, data, false) == Panel(Title(KindOf(t)), Content(KindOf(t), data))
  {
  }

  // ---------------------------------------------------------------------
  // Fallback order

  /** A chain over any list of paths yields the value of its first truthy
      path, or the default when every path is falsy; in every case the
      result is the default or the value of a truthy path. */
  lemma PathChain(data: Json, paths: seq<seq<string>>, default: Json)
    ensures forall i :: FirstTruthyAt(Probes(data, paths), i) ==>
      FirstTruthy(Probes(data, paths), default) == Path(data, paths[i])
    ensures (forall j :: 0 <= j < |paths| ==> !Truthy(Path(data, paths[j]))) ==>
      FirstTruthy(Probes(data, paths), default) == default
    ensures var r := FirstTruthy(Probes(data, paths), default);
      r == default || exists i :: 0 <= i < |paths| && Truthy(Path(data, paths[i])) && r == Path(data, paths[i])
  {
    var probes := Probes(data, paths);
    var r := FirstTruthy(probes, default);
    FirstTruthyIsCandidateOrDefault(probes, default);
    if r != default {
      var i :| 0 <= i < |probes| && probes[i] == r;
      assert Truthy(Path(data, paths[i])) && r == Path(data, paths[i]);
    }
  }

  /** The chain of a field yields the value of its first truthy candidate
      path, or the field's default when every candidate is falsy. */
  lemma ResolveChain(data: Json, f: CanonicalField)
    ensures forall i :: FirstTruthyAt(Probes(data, Candidates(f)), i) ==>
      Resolve(data, f) == Path(data, Candidates(f)[i])
    ensures (forall j :: 0 <= j < |Candidates(f)| ==> !Truthy(Path(data, Candidates(f)[j]))) ==>
      Resolve(data, f) == DefaultOf(f)
  {
    PathChain(data, Candidates(f), DefaultOf(f));
  }

  /** A truthy first candidate wins, whatever the later candidates hold. */
  lemma FirstCandidateWins(data: Json, f: CanonicalField)
    requires Truthy(Path(data, Candidates(f)[0]))
    ensures Resolve(data, f) == Path(data, Candidates(f)[0])
  {
    ResolveChain(data, f);
    assert FirstTruthyAt(Probes(data, Candidates(f)), 0);
  }

  /** A falsy first candidate (0, '', false, null, missing) falls through to
      the second. */
  lemma FalsyCandidateFallsThrough(data: Json, f: CanonicalField)
    requires |Candidates(f)| >= 2
    requires !Truthy(Path(data, Candidates(f)[0])) && Truthy(Path(data, Candidates(f)[1]))
    ensures Resolve(data, f) == Path(data, Candidates(f)[1])
  {
    ResolveChain(data, f);
    assert FirstTruthyAt(Probes(data, Candidates(f)), 1);
  }

  /** An empty array or object is truthy, so it stops the chain. */
  lemma EmptyCollectionStopsChain(data: Json, f: CanonicalField)
    requires Path(data, Candidates(f)[0]) in {JArr([]), JObj([])}
    ensures Resolve(data, f) == Path(data, Candidates(f)[0])
  {
    FirstCandidateWins(data, f);
  }

  /** When no candidate is truthy, the field takes its default: 0 for a
      score, '' for the verdict, {} for the breakdown and the section
      improvements, [] for every list. */
  lemma AllFalsyGivesDefault(data: Json, f: CanonicalField)
    requires forall j :: 0 <= j < |Candidates(f)| ==> !Truthy(Path(data, Candidates(f)[j]))
    ensures Resolve(data, f) == DefaultOf(f)
    ensures f in {MatchScore, OverallScore, PredictedScore, Confidence} ==> Resolve(data, f) == JNum(0)
    ensures f == Verdict ==> Resolve(data, f) == JStr("")
    ensures f in {Breakdown, SectionImprovements} ==> Resolve(data, f) == JObj([])
    ensures f in {MissingSkills, MissingExperience, MatchedSkills, Issues, Suggestions, PriorityActions, Factors} ==>
      Resolve(data, f) == JArr([])
  {
    ResolveChain(data, f);
    DefaultsByField(f);
  }

  lemma DefaultsByField(f: CanonicalField)
    ensures f in {MatchScore, OverallScore, PredictedScore, Confidence} ==> DefaultOf(f) == JNum(0)
    ensures f == Verdict ==> DefaultOf(f) == JStr("")
    ensures f in {Breakdown, SectionImprovements} ==> DefaultOf(f) == JObj([])
    ensures f in {MissingSkills, MissingExperience, MatchedSkills, Issues, Suggestions, PriorityActions, Factors} ==>
      DefaultOf(f) == JArr([])
  {
  }

  /** The resolved value is always a candidate's value or the default. */
  lemma ResolvedFromCandidatesOrDefault(data: Json, f: CanonicalField)
    ensures Resolve(data, f) == DefaultOf(f) ||
      exists i :: 0 <= i < |Candidates(f)| && Truthy(Path(data, Candidates(f)[i])) &&
        Resolve(data, f) == Path(data, Candidates(f)[i])
  {
    PathChain(data, Candidates(f), DefaultOf(f));
  }

  // ---------------------------------------------------------------------
  // Sections

  /** The blocks titled `title`, in order. */
  function Titled(blocks: seq<Block>, title: string): seq<Block> {
    if blocks == [] then []
    else (if blocks[0].title == Some(title) then [blocks[0]] else []) + Titled(blocks[1..], title)
  }

  lemma {:induction false} TitledConcat(a: seq<Block>, b: seq<Block>, title: string)
    ensures Titled(a + b, title) == Titled(a, title) + Titled(b, title)
  {
    if a != [] {
      assert (a + b)[1..] == a[1..] + b;
      TitledConcat(a[1..], b, title);
    } else {
      assert a + b == b;
    }
  }

  /** The section `title` is absent when `xs` is empty; otherwise it appears
      exactly once, with one item per element of `xs`, in order. */
  ghost predicate SectionHolds<T>(blocks: seq<Block>, title: string, xs: seq<T>, item: T -> Item) {
    var sections := Titled(blocks, title);
    if xs == [] then sections == []
    else
      && |sections| == 1
      && |sections[0].items| == |xs|
      && forall i :: 0 <= i < |xs| ==> sections[0].items[i] == item(xs[i])
  }

  lemma SectionIfHolds<T>(blocks: seq<Block>, title: string, items: seq<Item>, xs: seq<T>, item: T -> Item)
    requires Titled(blocks, title) == SectionIf(title, items)
    requires |items| == |xs|
    requires forall i :: 0 <= i < |xs| ==> items[i] == item(xs[i])
    ensures SectionHolds(blocks, title, xs, item)
  {
  }

  lemma TitledOwnSection(title: string, items: seq<Item>)
    ensures Titled(SectionIf(title, items), title) == SectionIf(title, items)
  {
  }

  lemma TitledOtherSection(title: string, other: string, items: seq<Item>)
    requires title != other
    ensures Titled(SectionIf(other, items), title) == []
  {
  }

  /** After untitled blocks, two optional sections with distinct titles:
      each title selects exactly its own section. */
  lemma TwoSections(head: seq<Block>, t1: string, i1: seq<Item>, t2: string, i2: seq<Item>)
    requires forall b :: b in head ==> b.title == None
    requires t1 != t2
    ensures var bs := head + SectionIf(t1, i1) + SectionIf(t2, i2);
      Titled(bs, t1) == SectionIf(t1, i1) && Titled(bs, t2) == SectionIf(t2, i2)
  {
    UntitledHead(head, t1);
    UntitledHead(head, t2);
    var s1, s2 := SectionIf(t1, i1), SectionIf(t2, i2);
    TitledOwnSection(t1, i1);
    TitledOwnSection(t2, i2);
    TitledOtherSection(t1, t2, i2);
    TitledOtherSection(t2, t1, i1);
    TitledConcat(head, s1, t1);
    TitledConcat(head + s1, s2, t1);
    TitledConcat(head, s1, t2);
    TitledConcat(head + s1, s2, t2);
  }

  lemma ThreeSections(head: seq<Block>, t1: string, i1: seq<Item>, t2: string, i2: seq<Item>, t3: string, i3: seq<Item>)
    requires forall b :: b in head ==> b.title == None
    requires t1 != t2 && t1 != t3 && t2 != t3
    ensures var bs := head + SectionIf(t1, i1) + SectionIf(t2, i2) + SectionIf(t3, i3);
      && Titled(bs, t1) == SectionIf(t1, i1)
      && Titled(bs, t2) == SectionIf(t2, i2)
      && Titled(bs, t3) == SectionIf(t3, i3)
  {
    TwoSections(head, t1, i1, t2, i2);
    var front := head + SectionIf(t1, i1) + SectionIf(t2, i2);
    var s3 := SectionIf(t3, i3);
    TitledOwnSection(t3, i3);
    TitledOtherSection(t1, t3, i3);
    TitledOtherSection(t2, t3, i3);
    TitledOtherSection(t3, t1, i1);
    TitledOtherSection(t3, t2, i2);
    TitledConcat(front, s3, t1);
    TitledConcat(front, s3, t2);
    TitledConcat(front, s3, t3);
    UntitledHead(head, t3);
    TitledConcat(head, SectionIf(t1, i1), t3);
    TitledConcat(head + SectionIf(t1, i1), SectionIf(t2, i2), t3);
  }

  lemma {:induction false} UntitledHead(head: seq<Block>, title: string)
    requires forall b :: b in head ==> b.title == None
    ensures Titled(head, title) == []
  {
    if head != [] {
      assert head[0] in head;
      UntitledHead(head[1..], title);
    }
  }

  /** The shape of the semantic report, whatever its resolved parts. */
  lemma SemanticLayoutShape(score: Json, verdict: Json, matched: seq<Json>, missing: seq<Json>, gaps: seq<Json>)
    ensures var blocks := SemanticLayout(score, verdict, matched, missing, gaps);
      && blocks[0] == Block(None, [Indicator(score, "Match Score"),
                                   VerdictPanel(if Truthy(verdict) then verdict else JStr("Resume analysis complete"))])
      && blocks == [blocks[0]]
        + SectionIf("Matched Skills", Map(SuccessBadge, matched))
        + SectionIf("Missing Skills", Map(ErrorBadge, missing))
        + SectionIf("Experience Gaps", Map(WarningRow, gaps))
  {
    var overview := Block(None, [Indicator(score, "Match Score"),
                                 VerdictPanel(if Truthy(verdict) then verdict else JStr("Resume analysis complete"))]);
    var withMatched := [overview] + SectionIf("Matched Skills", Map(SuccessBadge, matched));
    var withMissing := withMatched + SectionIf("Missing Skills", Map(ErrorBadge, missing));
    assert FirstTruthy([verdict], JStr("Resume analysis complete"))
      == if Truthy(verdict) then verdict else JStr("Resume analysis complete");
    assert SemanticLayout(score, verdict, matched, missing, gaps)
      == withMissing + SectionIf("Experience Gaps", Map(WarningRow, gaps));
    assert withMatched[0] == overview;
    assert withMissing[0] == overview;
  }

  lemma SemanticMatchLayout(data: Json)
    requires WellShaped(Semantic, data)
    ensures var blocks := SemanticMatchResult(data);
      && blocks[0].title == None
      && blocks == [blocks[0]]
        + SectionIf("Matched Skills", Map(SuccessBadge, Items(data, MatchedSkills)))
        + SectionIf("Missing Skills", Map(ErrorBadge, Items(data, MissingSkills)))
        + SectionIf("Experience Gaps", Map(WarningRow, Items(data, MissingExperience)))
  {
    SemanticLayoutShape(Resolve(data, MatchScore), Resolve(data, Verdict), Items(data, MatchedSkills),
                        Items(data, MissingSkills), Items(data, MissingExperience));
  }

  /** The semantic match report opens with an untitled overview, always
      shown: the match score indicator, then the verdict, or 'Resume analysis
      complete' when no candidate verdict is truthy. */
  lemma SemanticOverview(data: Json)
    requires WellShaped(Semantic, data)
    ensures var blocks := SemanticMatchResult(data);
      var verdict := Resolve(data, Verdict);
      && blocks[0].title == None
      && blocks[0].items == [Indicator(Resolve(data, MatchScore), "Match Score"),
                             VerdictPanel(if Truthy(verdict) then verdict else JStr("Resume analysis complete"))]
  {
    SemanticLayoutShape(Resolve(data, MatchScore), Resolve(data, Verdict), Items(data, MatchedSkills),
                        Items(data, MissingSkills), Items(data, MissingExperience));
  }

  /** The three list sections of the semantic report, whatever its parts. */
  lemma SemanticLayoutSections(score: Json, verdict: Json, matched: seq<Json>, missing: seq<Json>, gaps: seq<Json>)
    ensures var blocks := SemanticLayout(score, verdict, matched, missing, gaps);
      && SectionHolds(blocks, "Matched Skills", matched, SuccessBadge)
      && SectionHolds(blocks, "Missing Skills", missing, ErrorBadge)
      && SectionHolds(blocks, "Experience Gaps", gaps, WarningRow)
  {
    var blocks := SemanticLayout(score, verdict, matched, missing, gaps);
    SemanticLayoutShape(score, verdict, matched, missing, gaps);
    ThreeSectionsHold([blocks[0]], "Matched Skills", matched, SuccessBadge,
      "Missing Skills", missing, ErrorBadge, "Experience Gaps", gaps, WarningRow);
  }

  /** After the overview, Matched Skills, Missing Skills and Experience Gaps
      each appear only for a non-empty list, with one badge or row per
      element, in order. */
  lemma SemanticMatchSections(data: Json)
    requires WellShaped(Semantic, data)
    ensures var blocks := SemanticMatchResult(data);
      && SectionHolds(blocks, "Matched Skills", Items(data, MatchedSkills), SuccessBadge)
      && SectionHolds(blocks, "Missing Skills", Items(data, MissingSkills), ErrorBadge)
      && SectionHolds(blocks, "Experience Gaps", Items(data, MissingExperience), WarningRow)
  {
    SemanticLayoutSections(Resolve(data, MatchScore), Resolve(data, Verdict), Items(data, MatchedSkills),
                           Items(data, MissingSkills), Items(data, MissingExperience));
  }

  /** Three optional sections of mapped lists after untitled blocks. */
  lemma ThreeSectionsHold<A, B, C>(head: seq<Block>, t1: string, xs1: seq<A>, f1: A -> Item,
                                   t2: string, xs2: seq<B>, f2: B -> Item,
                                   t3: string, xs3: seq<C>, f3: C -> Item)
    requires forall b :: b in head ==> b.title == None
    requires t1 != t2 && t1 != t3 && t2 != t3
    ensures var bs := head + SectionIf(t1, Map(f1, xs1)) + SectionIf(t2, Map(f2, xs2)) + SectionIf(t3, Map(f3, xs3));
      && SectionHolds(bs, t1, xs1, f1)
      && SectionHolds(bs, t2, xs2, f2)
      && SectionHolds(bs, t3, xs3, f3)
  {
    var i1, i2, i3 := Map(f1, xs1), Map(f2, xs2), Map(f3, xs3);
    var bs := head + SectionIf(t1, i1) + SectionIf(t2, i2) + SectionIf(t3, i3);
    ThreeSections(head, t1, i1, t2, i2, t3, i3);
    SectionIfHolds(bs, t1, i1, xs1, f1);
    SectionIfHolds(bs, t2, i2, xs2, f2);
    SectionIfHolds(bs, t3, i3, xs3, f3);
  }

  /** Two optional sections of mapped lists after untitled blocks. */
  lemma TwoSectionsHold<A, B>(head: seq<Block>, t1: string, xs1: seq<A>, f1: A -> Item,
                              t2: string, xs2: seq<B>, f2: B -> Item)
    requires forall b :: b in head ==> b.title == None
    requires t1 != t2
    ensures var bs := head + SectionIf(t1, Map(f1, xs1)) + SectionIf(t2, Map(f2, xs2));
      && SectionHolds(bs, t1, xs1, f1)
      && SectionHolds(bs, t2, xs2, f2)
  {
    var i1, i2 := Map(f1, xs1), Map(f2, xs2);
    var bs := head + SectionIf(t1, i1) + SectionIf(t2, i2);
    TwoSections(head, t1, i1, t2, i2);
    SectionIfHolds(bs, t1, i1, xs1, f1);
    SectionIfHolds(bs, t2, i2, xs2, f2);
  }

  /** An untitled head followed by the optional section of `xs` mapped
      through `item`: that section holds `xs`, one item each, in order. */
  lemma MappedSection<T>(head: seq<Block>, t: string, xs: seq<T>, item: T -> Item)
    requires forall b :: b in head ==> b.title == None
    ensures SectionHolds(head + SectionIf(t, Map(item, xs)), t, xs, item)
  {
    OneSection(head, t, Map(item, xs));
    SectionIfHolds(head + SectionIf(t, Map(item, xs)), t, Map(item, xs), xs, item);
  }

  lemma OneSection(head: seq<Block>, t: string, items: seq<Item>)
    requires forall b :: b in head ==> b.title == None
    ensures Titled(head + SectionIf(t, items), t) == SectionIf(t, items)
  {
    UntitledHead(head, t);
    TitledOwnSection(t, items);
    TitledConcat(head, SectionIf(t, items), t);
  }

  lemma QualityScoreLayout(data: Json)
    requires WellShaped(Quality, data)
    ensures var blocks := QualityScoreResult(data);
      && blocks[0].title == None
      && blocks == [blocks[0]]
        + SectionIf("Quality Breakdown", Map(BreakdownCellOf, Entries(Resolve(data, Breakdown))))
        + SectionIf("Issues Found", Map(ErrorRow, Items(data, Issues)))
  {
  }

  /** The quality report: the overall score is always shown; the breakdown
      grid appears only for a breakdown with at least one key, one cell per
      entry in entry order; Issues Found appears only for a non-empty list. */
  lemma QualityScoreSections(data: Json)
    requires WellShaped(Quality, data)
    ensures var blocks := QualityScoreResult(data);
      && blocks[0] == Block(None, [Indicator(Resolve(data, OverallScore), "ATS Quality Score")])
      && SectionHolds(blocks, "Quality Breakdown", Entries(Resolve(data, Breakdown)), BreakdownCellOf)
      && SectionHolds(blocks, "Issues Found", Items(data, Issues), ErrorRow)
  {
    var blocks := QualityScoreResult(data);
    QualityScoreLayout(data);
    TwoSectionsHold([blocks[0]], "Quality Breakdown", Entries(Resolve(data, Breakdown)), BreakdownCellOf,
      "Issues Found", Items(data, Issues), ErrorRow);
  }

  /** A breakdown cell shows the entry's value under the entry's key with
      every underscore turned into a space. */
  lemma BreakdownCellLabel(entry: (string, Json))
    ensures BreakdownCellOf(entry).value == entry.1
    ensures BreakdownCellOf(entry).caption == SpaceForUnderscore(entry.0)
    ensures '_' !in BreakdownCellOf(entry).caption
  {
    NoUnderscoreLeft(entry.0);
  }

  /** After the rewrite no underscore is left, and the rewrite is idempotent. */
  lemma NoUnderscoreLeft(key: string)
    ensures '_' !in SpaceForUnderscore(key)
    ensures SpaceForUnderscore(SpaceForUnderscore(key)) == SpaceForUnderscore(key)
  {
    var r := SpaceForUnderscore(key);
    assert forall i :: 0 <= i < |r| ==> r[i] != '_';
    assert SpaceForUnderscore(r) == r;
  }

  /** A key without underscores is shown unchanged. */
  lemma KeyWithoutUnderscoreUnchanged(key: string)
    requires '_' !in key
    ensures SpaceForUnderscore(key) == key
  {
    assert forall i :: 0 <= i < |key| ==> key[i] != '_';
  }

  /** Priority Actions and Improvement Suggestions appear only for
      non-empty lists; the priority actions are numbered 1..N in input order. */
  lemma PriorityAndSuggestionSections(actions: seq<Json>, suggestions: seq<Json>)
    ensures var front := PriorityAndSuggestions(actions, suggestions);
      && |front| == (if actions == [] then 0 else 1) + (if suggestions == [] then 0 else 1)
      && (actions == [] ==> Titled(front, "Priority Actions") == [])
      && (actions != [] ==>
            && front[0].title == Some("Priority Actions")
            && |front[0].items| == |actions|
            && forall i :: 0 <= i < |actions| ==> front[0].items[i] == NumberedItem(i + 1, actions[i]))
      && SectionHolds(front, "Improvement Suggestions", suggestions, SuccessRow)
  {
    var numbered := NumberedFrom(actions, 1);
    var rows := Map(SuccessRow, suggestions);
    var front := SectionIf("Priority Actions", numbered) + SectionIf("Improvement Suggestions", rows);
    assert [] + SectionIf("Priority Actions", numbered) == SectionIf("Priority Actions", numbered);
    TwoSections([], "Priority Actions", numbered, "Improvement Suggestions", rows);
    SectionIfHolds(front, "Improvement Suggestions", rows, suggestions, SuccessRow);
  }

  /** `blocks` holds one section per section-improvement entry, in entry
      order, titled by the entry's key with underscores turned into spaces. */
  ghost predicate EntrySections(blocks: seq<Block>, entries: seq<(string, Json)>) {
    && |blocks| == |entries|
    && forall i :: 0 <= i < |entries| ==>
         blocks[i] == Block(Some(SpaceForUnderscore(entries[i].0)), Tips(entries[i].1))
  }

  /** The improvement report: the priority and suggestion sections come
      first (see PriorityAndSuggestionSections), then the entry sections. */
  lemma ImprovementSections(data: Json)
    requires WellShaped(Improve, data)
    ensures var blocks := ImprovementResult(data);
      var front := PriorityAndSuggestions(Items(data, PriorityActions), Items(data, Suggestions));
      && |front| <= |blocks|
      && blocks[..|front|] == front
      && EntrySections(blocks[|front|..], Entries(Resolve(data, SectionImprovements)))
  {
    var front := PriorityAndSuggestions(Items(data, PriorityActions), Items(data, Suggestions));
    SectionImprovementsFollow(front, Entries(Resolve(data, SectionImprovements)), ImprovementResult(data));
  }

  lemma SectionImprovementsFollow(front: seq<Block>, entries: seq<(string, Json)>, blocks: seq<Block>)
    requires blocks == front + Map(SectionImprovementBlock, entries)
    ensures |front| <= |blocks| && blocks[..|front|] == front
    ensures EntrySections(blocks[|front|..], entries)
  {
    assert blocks[|front|..] == Map(SectionImprovementBlock, entries);
  }

  /** The shape of the ML report, whatever its resolved parts: the score and
      confidence overview, then the optional factor section. */
  lemma MLLayoutSections(predicted: Json, confidence: Json, factors: seq<Json>)
    ensures var blocks := MLLayout(predicted, confidence, factors);
      && blocks[0] == Block(None, [Indicator(predicted, "ML Predicted Score"),
                                   Indicator(confidence, "Confidence Level")])
      && SectionHolds(blocks, "Contributing Factors", factors, Factor)
  {
    var overview := Block(None, [Indicator(predicted, "ML Predicted Score"), Indicator(confidence, "Confidence Level")]);
    MLLayoutParts(predicted, confidence, factors);
    MappedSection([overview], "Contributing Factors", factors, Factor);
  }

  lemma MLLayoutParts(predicted: Json, confidence: Json, factors: seq<Json>)
    ensures MLLayout(predicted, confidence, factors)
      == [Block(None, [Indicator(predicted, "ML Predicted Score"), Indicator(confidence, "Confidence Level")])]
         + SectionIf("Contributing Factors", Map(Factor, factors))
  {
  }

  /** The ML report: the predicted score and the confidence are always shown
      side by side; Contributing Factors appears only for a non-empty list,
      one entry per factor in input order. */
  lemma MLScoreSections(data: Json)
    requires WellShaped(Ml, data)
    ensures var blocks := MLScoreResult(data);
      && blocks[0] == Block(None, [Indicator(Resolve(data, PredictedScore), "ML Predicted Score"),
                                   Indicator(Resolve(data, Confidence), "Confidence Level")])
      && SectionHolds(blocks, "Contributing Factors", Items(data, Factors), Factor)
  {
    MLLayoutSections(Resolve(data, PredictedScore), Resolve(data, Confidence), Items(data, Factors));
  }

  /** One contributing factor. Its name is `factor.name` for an object (or
      array) and the factor itself otherwise. The impact badge appears exactly
      when the factor is an object with a truthy impact; it is a success
      badge with a '+' sign exactly when the impact is greater than zero, and
      an error badge without a sign otherwise. An impact of 0 stops the guard
      at the number 0, which is shown as the text "0". The description
      behaves the same way. */
  lemma FactorPresentation(factor: Json)
    requires !factor.JNull?
    ensures var item := Factor(factor);
      var impact := Field(factor, "impact");
      var description := Field(factor, "description");
      && item.name == (if factor.JObj? || factor.JArr? then Field(factor, "name") else factor)
      && (item.badge.Element? <==> factor.JObj? && Truthy(impact))
      && (item.badge == StrayZero <==> factor.JObj? && impact == JNum(0))
      && (item.badge.Element? ==>
            && item.badge.element.impact == impact
            && (item.badge.element.tone == Success <==> GreaterThanZero(impact))
            && (item.badge.element.tone == Error <==> !GreaterThanZero(impact))
            && (item.badge.element.sign == "+" <==> GreaterThanZero(impact))
            && (item.badge.element.sign == "" <==> !GreaterThanZero(impact)))
      && (item.description.Element? <==> factor.JObj? && Truthy(description))
      && (item.description == StrayZero <==> factor.JObj? && description == JNum(0))
      && (item.description.Element? ==> item.description.element == description)
  {
  }

  /** A numeric impact: 0 gives no badge but the stray text "0", a positive
      number a '+' success badge, a negative number an error badge. */
  lemma NumericImpact(entries: seq<(string, Json)>, n: int)
    requires Field(JObj(entries), "impact") == JNum(n)
    ensures var badge := Factor(JObj(entries)).badge;
      && (n == 0 <==> badge == StrayZero)
      && (n > 0 ==> badge == Element(ImpactBadge(Success, "+", JNum(n))))
      && (n < 0 ==> badge == Element(ImpactBadge(Error, "", JNum(n))))
  {
  }
}
