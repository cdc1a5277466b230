/**
 * `ResultCard` and its four kind-specific sub-components: from an analysis
 * type, the raw response object and the loading flag to the card that is
 * displayed.
 *
 * Every canonical field is resolved by an `a || b || c` chain over a fixed,
 * ordered list of property paths (the table `Candidates`), so the first
 * TRUTHY candidate wins: `0`, `""`, `false` and `null` fall through, an empty
 * array or object does not.
 */
module ResultCard {
  import opened Options
  import opened JsText
  import opened JsValue
  import opened Presentation
  import opened Score

  /** The `type` prop, as the `switch` and the `titles` table read it. */
  datatype Kind = Semantic | Quality | Improve | Ml | Unknown

  function KindOf(t: string): (k: Kind)
    ensures k == Semantic <==> t == "semantic"
    ensures k == Quality <==> t == "quality"
    ensures k == Improve <==> t == "improve"
    ensures k == Ml <==> t == "ml"
    ensures k == Unknown <==> t !in ["semantic", "quality", "improve", "ml"]
  {
    if t == "semantic" then Semantic
    else if t == "quality" then Quality
    else if t == "improve" then Improve
    else if t == "ml" then Ml
    else Unknown
  }

  /** `titles[type] || { title: 'Analysis Result' }`. */
  function Title(k: Kind): string {
    match k
    case Semantic => "Semantic Match Analysis"
    case Quality => "Resume Quality Score"
    case Improve => "Improvement Suggestions"
    case Ml => "ML Score Prediction"
    case Unknown => "Analysis Result"
  }

  /** The canonical fields the four sub-components read out of `data`. */
  datatype CanonicalField =
    | MatchScore | Verdict | MissingSkills | MissingExperience | MatchedSkills
    | OverallScore | Breakdown | Issues
    | Suggestions | PriorityActions | SectionImprovements
    | PredictedScore | Confidence | Factors

  /** The property paths probed for a field, in the order of its `||` chain. */
  function Candidates(f: CanonicalField): (paths: seq<seq<string>>)
    ensures 1 <= |paths| <= 3
  {
    match f
    case MatchScore => [["match_score"], ["semantic_score"], ["score"]]
    case Verdict => [["verdict"], ["recommendation"]]
    case MissingSkills => [["missing_skills"], ["gaps", "skills"]]
    case MissingExperience => [["missing_experience"], ["gaps", "experience"]]
    case MatchedSkills => [["matched_skills"], ["matches", "skills"]]
    case OverallScore => [["overall_score"], ["quality_score"], ["score"]]
    case Breakdown => [["breakdown"], ["categories"]]
    case Issues => [["issues"], ["problems"]]
    case Suggestions => [["suggestions"], ["improvements"]]
    case PriorityActions => [["priority_actions"], ["quick_wins"]]
    case SectionImprovements => [["section_improvements"]]
    case PredictedScore => [["predicted_score"], ["ml_score"], ["score"]]
    case Confidence => [["confidence"], ["accuracy"]]
    case Factors => [["contributing_factors"], ["features"]]
  }

  /** The literal at the end of a field's chain: 0, '', [] or {}. */
  function DefaultOf(f: CanonicalField): Json {
    match f
    case MatchScore | OverallScore | PredictedScore | Confidence => JNum(0)
    case Verdict => JStr("")
    case Breakdown | SectionImprovements => JObj([])
    case _ => JArr([])
  }

  function Map<A, B>(f: A -> B, xs: seq<A>): (r: seq<B>)
    ensures |r| == |xs|
    ensures forall i :: 0 <= i < |xs| ==> r[i] == f(xs[i])
  {
    if xs == [] then [] else [f(xs[0])] + Map(f, xs[1..])
  }

  /** The values of the candidate paths, in chain order. */
  function Probes(data: Json, paths: seq<seq<string>>): (probes: seq<Json>)
    ensures |probes| == |paths|
    ensures forall i :: 0 <= i < |paths| ==> probes[i] == Path(data, paths[i])
  {
    if paths == [] then [] else [Path(data, paths[0])] + Probes(data, paths[1..])
  }

  /** `data?.p1 || data?.p2 || ... || default` for the field `f`: the first
      truthy probe, or the default when every probe is falsy. */
  function Resolve(data: Json, f: CanonicalField): (r: Json)
    ensures Truthy(r) || r == DefaultOf(f)
  {
    FirstTruthyIsCandidateOrDefault(Probes(data, Candidates(f)), DefaultOf(f));
    FirstTruthy(Probes(data, Candidates(f)), DefaultOf(f))
  }

  /** What `list.length > 0 && list.map(...)` makes of a resolved list field:
      the elements of an array; no section for a value whose `length` is
      undefined or not positive; None where the source throws, because a
      value with a positive `length` that is not an array has no `map`. */
  function AsList(v: Json): (r: Option<seq<Json>>)
    ensures v.JArr? ==> r == Some(v.elems)
    ensures !v.JArr? && r.Some? ==> r.value == []
    ensures r.None? <==> (v.JStr? && v.s != []) || (v.JObj? && GreaterThanZero(Field(v, "length")))
  {
    match v
    case JArr(xs) => Some(xs)
    case JStr(s) => if s == [] then Some([]) else None
    case JObj(_) => if GreaterThanZero(Field(v, "length")) then None else Some([])
    case _ => Some([])
  }

  /** The list field `f` of `data` renders without throwing. */
  predicate Listed(data: Json, f: CanonicalField) {
    AsList(Resolve(data, f)).Some?
  }

  function Items(data: Json, f: CanonicalField): seq<Json>
    requires Listed(data, f)
  {
    AsList(Resolve(data, f)).value
  }

  /** `key.replace(/_/g, ' ')`. */
  function SpaceForUnderscore(key: string): (r: string)
    ensures |r| == |key|
    ensures forall i :: 0 <= i < |key| ==> r[i] == if key[i] == '_' then ' ' else key[i]
  {
    if key == [] then []
    else [if key[0] == '_' then ' ' else key[0]] + SpaceForUnderscore(key[1..])
  }

  /** `items.length > 0 && <Section title={title}>...</Section>`. */
  function SectionIf(title: string, items: seq<Item>): seq<Block> {
    if items == [] then [] else [Block(Some(title), items)]
  }

  /** The numbered `Priority Actions` rows, starting at `first`. */
  function NumberedFrom(xs: seq<Json>, first: nat): (r: seq<Item>)
    ensures |r| == |xs|
    ensures forall i :: 0 <= i < |xs| ==> r[i] == NumberedItem(first + i, xs[i])
  {
    if xs == [] then [] else [NumberedItem(first, xs[0])] + NumberedFrom(xs[1..], first + 1)
  }

  /** The rows of the plain lists: `<Badge variant=...>` and
      `<ListItem variant=...>` around one element. */
  function SuccessBadge(x: Json): Item { Badge(Success, x) }
  function ErrorBadge(x: Json): Item { Badge(Error, x) }
  function WarningRow(x: Json): Item { ListItem(Warning, x) }
  function ErrorRow(x: Json): Item { ListItem(Error, x) }
  function SuccessRow(x: Json): Item { ListItem(Success, x) }
  function TipRow(x: Json): Item { ListItem(Default, x) }

  /** The semantic match report from its resolved parts: the overview with
      the score and the shown verdict, then the three list sections. */
  function SemanticLayout(score: Json, verdict: Json, matched: seq<Json>, missing: seq<Json>,
                          gaps: seq<Json>): (blocks: seq<Block>)
    ensures |blocks| == 1 + (if matched == [] then 0 else 1) + (if missing == [] then 0 else 1)
                          + (if gaps == [] then 0 else 1)
    ensures blocks[0].title == None && |blocks[0].items| == 2
    ensures forall i :: 1 <= i < |blocks| ==> blocks[i].title.Some?
  {
    var shownVerdict := FirstTruthy([verdict], JStr("Resume analysis complete"));
    [Block(None, [Indicator(score, "Match Score"), VerdictPanel(shownVerdict)])]
    + SectionIf("Matched Skills", Map(SuccessBadge, matched))
    + SectionIf("Missing Skills", Map(ErrorBadge, missing))
    + SectionIf("Experience Gaps", Map(WarningRow, gaps))
  }

  function SemanticMatchResult(data: Json): (blocks: seq<Block>)
    requires Listed(data, MissingSkills) && Listed(data, MissingExperience) && Listed(data, MatchedSkills)
    ensures |blocks| == 1 + (if Items(data, MatchedSkills) == [] then 0 else 1)
                          + (if Items(data, MissingSkills) == [] then 0 else 1)
                          + (if Items(data, MissingExperience) == [] then 0 else 1)
    ensures blocks[0].title == None
    ensures forall i :: 1 <= i < |blocks| ==> blocks[i].title.Some?
  {
    SemanticLayout(Resolve(data, MatchScore), Resolve(data, Verdict), Items(data, MatchedSkills),
                   Items(data, MissingSkills), Items(data, MissingExperience))
  }

  function BreakdownCellOf(entry: (string, Json)): Item {
    BreakdownCell(SpaceForUnderscore(entry.0), entry.1)
  }

  /** The quality report from its resolved parts: the score, then the
      breakdown grid and the issues. */
  function QualityLayout(score: Json, breakdown: seq<(string, Json)>, issues: seq<Json>): (blocks: seq<Block>)
    ensures |blocks| == 1 + (if breakdown == [] then 0 else 1) + (if issues == [] then 0 else 1)
    ensures blocks[0].title == None && |blocks[0].items| == 1
    ensures forall i :: 1 <= i < |blocks| ==> blocks[i].title.Some?
  {
    [Block(None, [Indicator(score, "ATS Quality Score")])]
    + SectionIf("Quality Breakdown", Map(BreakdownCellOf, breakdown))
    + SectionIf("Issues Found", Map(ErrorRow, issues))
  }

  function QualityScoreResult(data: Json): (blocks: seq<Block>)
    requires Listed(data, Issues)
    ensures |blocks| == 1 + (if Entries(Resolve(data, Breakdown)) == [] then 0 else 1)
                          + (if Items(data, Issues) == [] then 0 else 1)
    ensures blocks[0].title == None
  {
    QualityLayout(Resolve(data, OverallScore), Entries(Resolve(data, Breakdown)), Items(data, Issues))
  }

  /** The body of one section-improvement entry: one row per tip when the
      value is an array, otherwise a single row showing the value. */
  function Tips(tips: Json): (rows: seq<Item>)
    ensures tips.JArr? ==> |rows| == |tips.elems|
    ensures tips.JArr? ==> forall i :: 0 <= i < |tips.elems| ==> rows[i] == ListItem(Default, tips.elems[i])
    ensures !tips.JArr? ==> rows == [ListItem(Default, tips)]
  {
    if tips.JArr? then Map(TipRow, tips.elems) else [TipRow(tips)]
  }

  function SectionImprovementBlock(entry: (string, Json)): Block {
    Block(Some(SpaceForUnderscore(entry.0)), Tips(entry.1))
  }

  /** The sections of the improvement report that come from lists. */
  function PriorityAndSuggestions(actions: seq<Json>, suggestions: seq<Json>): (blocks: seq<Block>)
    ensures |blocks| == (if actions == [] then 0 else 1) + (if suggestions == [] then 0 else 1)
    ensures forall i :: 0 <= i < |blocks| ==> blocks[i].title.Some?
  {
    SectionIf("Priority Actions", NumberedFrom(actions, 1))
    + SectionIf("Improvement Suggestions", Map(SuccessRow, suggestions))
  }

  function ImprovementResult(data: Json): (blocks: seq<Block>)
    requires Listed(data, Suggestions) && Listed(data, PriorityActions)
    ensures |blocks| == (if Items(data, PriorityActions) == [] then 0 else 1)
                        + (if Items(data, Suggestions) == [] then 0 else 1)
                        + |Entries(Resolve(data, SectionImprovements))|
    ensures forall i :: 0 <= i < |blocks| ==> blocks[i].title.Some?
  {
    var front := PriorityAndSuggestions(Items(data, PriorityActions), Items(data, Suggestions));
    var entries := Map(SectionImprovementBlock, Entries(Resolve(data, SectionImprovements)));
    assert forall i :: 0 <= i < |entries| ==> entries[i].title.Some?;
    front + entries
  }

  /** `typeof factor === 'object'` for a factor that is not null. */
  predicate IsObjectLike(v: Json) {
    v.JObj? || v.JArr?
  }

  /** `{obj && cond && element}`: the element when both guards hold; the
      text "0" when `obj` holds and `cond` is the number 0; nothing
      otherwise. */
  function Guard<T>(obj: bool, cond: Json, element: T): Guarded<T> {
    if !obj then Omitted
    else if Truthy(cond) then Element(element)
    else if cond == JNum(0) then StrayZero
    else Omitted
  }

  /** One contributing factor: its name, the guarded impact badge and the
      guarded description line. */
  function Factor(factor: Json): (item: Item)
    ensures item.FactorItem?
    ensures item.badge.Element? <==> IsObjectLike(factor) && Truthy(Field(factor, "impact"))
    ensures item.badge == StrayZero <==> IsObjectLike(factor) && Field(factor, "impact") == JNum(0)
    ensures item.description.Element? <==> IsObjectLike(factor) && Truthy(Field(factor, "description"))
    ensures item.description == StrayZero <==> IsObjectLike(factor) && Field(factor, "description") == JNum(0)
  {
    var obj := IsObjectLike(factor);
    var impact := Field(factor, "impact");
    var description := Field(factor, "description");
    var positive := GreaterThanZero(impact);
    FactorItem(
      if obj then Field(factor, "name") else factor,
      Guard(obj, impact, ImpactBadge(if positive then Success else Error, if positive then "+" else "", impact)),
      Guard(obj, description, description))
  }

  /** The factor list renders without throwing: it is a list, and none of its
      elements is null (`typeof null === 'object'`, so `factor.name` throws). */
  predicate FactorsRenderable(data: Json) {
    Listed(data, Factors) && forall x :: x in Items(data, Factors) ==> !x.JNull?
  }

  /** The ML report from its resolved parts. */
  function MLLayout(predicted: Json, confidence: Json, factors: seq<Json>): (blocks: seq<Block>)
    ensures |blocks| == 1 + (if factors == [] then 0 else 1)
    ensures blocks[0].title == None && |blocks[0].items| == 2
    ensures |blocks| == 2 ==> blocks[1].title == Some("Contributing Factors")
  {
    [Block(None, [Indicator(predicted, "ML Predicted Score"), Indicator(confidence, "Confidence Level")])]
    + SectionIf("Contributing Factors", Map(Factor, factors))
  }

  function MLScoreResult(data: Json): (blocks: seq<Block>)
    requires FactorsRenderable(data)
    ensures |blocks| == 1 + (if Items(data, Factors) == [] then 0 else 1)
    ensures blocks[0].title == None
  {
    MLLayout(Resolve(data, PredictedScore), Resolve(data, Confidence), Items(data, Factors))
  }

  /** The kind's sub-component renders `data` without throwing. */
  predicate WellShaped(k: Kind, data: Json) {
    match k
    case Semantic => Listed(data, MissingSkills) && Listed(data, MissingExperience) && Listed(data, MatchedSkills)
    case Quality => Listed(data, Issues)
    case Improve => Listed(data, Suggestions) && Listed(data, PriorityActions)
    case Ml => FactorsRenderable(data)
    case Unknown => true
  }

  /** `renderContent()`: the kind-specific report, or a raw dump of `data`. */
  function Content(k: Kind, data: Json): (blocks: seq<Block>)
    requires WellShaped(k, data)
    ensures k in {Semantic, Quality, Ml} ==> blocks != [] && blocks[0].title == None
    ensures k == Improve ==> forall i :: 0 <= i < |blocks| ==> blocks[i].title.Some?
    ensures k == Unknown ==> blocks == [Block(None, [RawDump(data)])]
  {
    match k
    case Semantic => SemanticMatchResult(data)
    case Quality => QualityScoreResult(data)
    case Improve => ImprovementResult(data)
    case Ml => MLScoreResult(data)
    case Unknown => [Block(None, [RawDump(data)])]
  }

  /** The inputs on which `ResultCard` renders without throwing: the
      sub-component is reached only when not loading, `data` is truthy and
      carries no truthy `error`. */
  predicate Renderable(t: string, data: Json, isLoading: bool) {
    isLoading || !Truthy(data) || Truthy(Field(data, "error")) || WellShaped(KindOf(t), data)
  }

  function Render(t: string, data: Json, isLoading: bool): (card: Card)
    requires Renderable(t, data, isLoading)
    ensures card == Skeleton <==> isLoading
    ensures card == Blank <==> !isLoading && !Truthy(data)
    ensures card.Panel? <==> !isLoading && Truthy(data)
    ensures card.Panel? ==> card.title == Title(KindOf(t))
  {
    if isLoading then Skeleton
    else if !Truthy(data) then Blank
    else if Truthy(Field(data, "error")) then
      Panel(Title(KindOf(t)), [Block(None, [Alert(Field(data, "error"))])])
    else Panel(Title(KindOf(t)), Content(KindOf(t), data))
  }
}
