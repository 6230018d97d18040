/**
 Turning a language model's raw JSON into scored details: one group per rubric item, one entry per sub item,
 scores clamped and quantised, and a fixture instead of a total of zero. Scores are exact numbers.
 */
module Scoring {
  import opened Wrappers
  import opened HalfPoints
  import opened Json

  datatype RubricSub = RubricSub(requirement: string, score: real)

  datatype RubricItem = RubricItem(name: string, score: real, subItems: seq<RubricSub>)

  datatype Rubric = Rubric(items: seq<RubricItem>, totalScore: real)

  datatype Evidence = Evidence(times: seq<string>, screenshots: seq<string>)

  datatype DetailItem = DetailItem(
    subtitle: string, fullScore: real, aiScore: real, status: string, feedback: string, evidence: Option<Evidence>)

  datatype DetailGroup = DetailGroup(title: string, fullScore: real, aiScore: real, items: seq<DetailItem>)

  datatype Report = Report(details: seq<DetailGroup>, score: real, maxScore: real)

  /** What is derived from a job's id by hashing: a ratio for each title and subtitle, and an overall score. */
  datatype Fixture = Fixture(ratio: (string, string) -> real, overall: real)

  // ---- Names

  function Decimal(n: nat): string {
    (if n < 10 then "" else Decimal(n / 10)) + ["0123456789"[n % 10]]
  }

  function Title(k: nat, item: RubricItem): string {
    if item.name != "" then item.name else "评分项" + Decimal(k + 1)
  }

  function Subtitle(j: nat, sub: RubricSub): string {
    if sub.requirement != "" then sub.requirement else "子项" + Decimal(j + 1)
  }

  // ---- One entry

  /** The texts among the values, stripped, blank ones left out. */
  function Texts(list: seq<Json>): seq<string> {
    if list == [] then []
    else
      var n := |list| - 1;
      Texts(list[..n]) + match TextOf(list[n]) case None => [] case Some(text) => [text]
  }

  function EvidenceOf(raw: Json): Result<Option<Evidence>, JsonError> {
    if !raw.Object? then Ok(None)
    else
      match (Elements(Get(raw, "times")), Elements(Get(raw, "screenshots")))
      case (Ok(times), Ok(screenshots)) =>
        var e := Evidence(Texts(times), Texts(screenshots));
        Ok(if e.times == [] && e.screenshots == [] then None else Some(e))
      case _ => Err(NotIterable)
  }

  function StatusOf(score: real, full: real, raw: Json): string {
    match TextOf(raw)
    case Some(text) => text
    case None => if score < full * 0.65 then "error" else if score >= full * 0.85 then "ok" else "warning"
  }

  function FeedbackOf(raw: Json): string { match TextOf(raw) case Some(text) => text case None => "" }

  function Share(full: real, ratio: real): real { full * ratio }

  /** The raw score clamped, or the fixture's. */
  function UnroundedScore(ratio: real, full: real, raw: Json): real {
    match NumberOf(raw) case Some(n) => Clamp(n, 0.0, full) case None => Round2(Share(full, ratio))
  }

  function ScoreOf(ratio: real, full: real, raw: Json): real { QuantizeHalf(UnroundedScore(ratio, full, raw), full) }

  function BuildItem(fix: Fixture, title: string, j: nat, sub: RubricSub, raw: Json): Result<DetailItem, JsonError> {
    var subtitle := Subtitle(j, sub);
    var score := ScoreOf(fix.ratio(title, subtitle), sub.score, Get(raw, "aiScore"));
    match EvidenceOf(Get(raw, "evidence"))
    case Err(e) => Err(e)
    case Ok(evidence) =>
      Ok(DetailItem(subtitle, sub.score, score, StatusOf(score, sub.score, Get(raw, "status")),
                    FeedbackOf(Get(raw, "feedback")), evidence))
  }

  // ---- Groups

  /** The entries of the first n sub items. */
  function BuildItems(fix: Fixture, title: string, subs: seq<RubricSub>, n: nat, raws: seq<Json>)
    : Result<seq<DetailItem>, JsonError>
    requires n <= |subs|
  {
    if n == 0 then Ok([])
    else
      var raw := LastMatch(raws, "subtitle", Subtitle(n - 1, subs[n - 1]));
      match BuildItems(fix, title, subs, n - 1, raws)
      case Err(e) => Err(e)
      case Ok(items) =>
        match BuildItem(fix, title, n - 1, subs[n - 1], raw)
        case Err(e) => Err(e)
        case Ok(item) => Ok(items + [item])
  }

  function SumItems(items: seq<DetailItem>): real {
    if items == [] then 0.0 else SumItems(items[..|items| - 1]) + items[|items| - 1].aiScore
  }

  function BuildGroup(fix: Fixture, k: nat, item: RubricItem, raw: Json): Result<DetailGroup, JsonError> {
    var title := Title(k, item);
    match Elements(Get(raw, "items"))
    case Err(e) => Err(e)
    case Ok(raws) =>
      match BuildItems(fix, title, item.subItems, |item.subItems|, raws)
      case Err(e) => Err(e)
      case Ok(items) => Ok(DetailGroup(title, item.score, QuantizeHalf(SumItems(items), item.score), items))
  }

  /** The groups of the first n rubric items. */
  function BuildGroups(fix: Fixture, items: seq<RubricItem>, n: nat, raws: seq<Json>)
    : Result<seq<DetailGroup>, JsonError>
    requires n <= |items|
  {
    if n == 0 then Ok([])
    else
      var raw := LastMatch(raws, "title", Title(n - 1, items[n - 1]));
      match BuildGroups(fix, items, n - 1, raws)
      case Err(e) => Err(e)
      case Ok(groups) =>
        match BuildGroup(fix, n - 1, items[n - 1], raw)
        case Err(e) => Err(e)
        case Ok(group) => Ok(groups + [group])
  }

  function Fallback(fix: Fixture): seq<DetailGroup> {
    var score := Round2(fix.overall);
    [DetailGroup("默认评估项", 100.0, score,
                 [DetailItem("综合评分", 100.0, score, "ok", "当前结果基于通用评分规则生成，整体表现较稳定。", None)])]
  }

  function ListOf(raw: Json): seq<Json> { if raw.List? then raw.elements else [] }

  function Details(fix: Fixture, items: seq<RubricItem>, raw: Json): Result<seq<DetailGroup>, JsonError> {
    match BuildGroups(fix, items, |items|, ListOf(raw))
    case Err(e) => Err(e)
    case Ok(groups) => Ok(if groups == [] then Fallback(fix) else groups)
  }

  function SumGroups(groups: seq<DetailGroup>): real {
    if groups == [] then 0.0 else SumGroups(groups[..|groups| - 1]) + groups[|groups| - 1].aiScore
  }

  // ---- The report

  function TotalMax(rubric: Rubric): real { if rubric.totalScore == 0.0 then 100.0 else rubric.totalScore }

  function Total(groups: seq<DetailGroup>, totalMax: real): real { Min(Round2(SumGroups(groups)), totalMax) }

  /** Details and score of a raw result; the fixture's when the raw result's total is not positive. */
  function Normalise(fix: Fixture, rubric: Rubric, raw: Json): Result<Report, JsonError> {
    var totalMax := TotalMax(rubric);
    if !raw.Object? then Err(NotAnObject)
    else
      match Details(fix, rubric.items, Get(raw, "details"))
      case Err(e) => Err(e)
      case Ok(groups) =>
        if Total(groups, totalMax) <= 0.0 && totalMax > 0.0 then
          match Details(fix, rubric.items, Null)
          case Err(e) => Err(e)
          case Ok(fixture) => Ok(Report(fixture, Total(fixture, totalMax), totalMax))
        else Ok(Report(groups, Total(groups, totalMax), totalMax))
  }

  method BuildDetailItems(fix: Fixture, title: string, subs: seq<RubricSub>, raws: seq<Json>)
    returns (r: Result<seq<DetailItem>, JsonError>)
    ensures r == BuildItems(fix, title, subs, |subs|, raws)
  {
    var rawItemMap := IndexBy(raws, "subtitle");
    var items: seq<DetailItem> := [];
    for j := 0 to |subs|
      invariant BuildItems(fix, title, subs, j, raws) == Ok(items)
    {
      var built := BuildItem(fix, title, j, subs[j], Find(rawItemMap, Subtitle(j, subs[j])));
      if built.Err? {
        ItemErrorStays(fix, title, subs, j + 1, raws);
        return Err(built.error);
      }
      items := items + [built.value];
    }
    r := Ok(items);
  }

  lemma {:induction false} ItemErrorStays(fix: Fixture, title: string, subs: seq<RubricSub>, n: nat, raws: seq<Json>)
    requires n <= |subs| && BuildItems(fix, title, subs, n, raws).Err?
    ensures BuildItems(fix, title, subs, |subs|, raws) == BuildItems(fix, title, subs, n, raws)
    decreases |subs| - n
  {
    if n < |subs| {
      ItemErrorStays(fix, title, subs, n + 1, raws);
    }
  }

  /** Two nested loops over the rubric. A group's raw score plays no part: it is the sum of its entries. */
  method BuildDetailGroups(fix: Fixture, items: seq<RubricItem>, rawDetails: Json)
    returns (r: Result<seq<DetailGroup>, JsonError>)
    ensures r == Details(fix, items, rawDetails)
  {
    hide Title, QuantizeHalf, SumItems, LastMatch, BuildItems, Elements, Get, ListOf, Fallback;
    var rawGroupMap := IndexBy(ListOf(rawDetails), "title");
    var groups: seq<DetailGroup> := [];
    for k := 0 to |items|
      invariant BuildGroups(fix, items, k, ListOf(rawDetails)) == Ok(groups)
    {
      var title := Title(k, items[k]);
      var raws := Elements(Get(Find(rawGroupMap, title), "items"));
      if raws.Err? {
        GroupErrorStays(fix, items, k + 1, ListOf(rawDetails));
        return Err(raws.error);
      }
      var built := BuildDetailItems(fix, title, items[k].subItems, raws.value);
      if built.Err? {
        GroupErrorStays(fix, items, k + 1, ListOf(rawDetails));
        return Err(built.error);
      }
      var score := QuantizeHalf(SumItems(built.value), items[k].score);
      groups := groups + [DetailGroup(title, items[k].score, score, built.value)];
    }
    r := Ok(if groups != [] then groups else Fallback(fix));
  }

  lemma {:induction false} GroupErrorStays(fix: Fixture, items: seq<RubricItem>, n: nat, raws: seq<Json>)
    requires n <= |items| && BuildGroups(fix, items, n, raws).Err?
    ensures BuildGroups(fix, items, |items|, raws) == BuildGroups(fix, items, n, raws)
    decreases |items| - n
  {
    if n < |items| {
      GroupErrorStays(fix, items, n + 1, raws);
    }
  }

  method NormalizeResult(fix: Fixture, rubric: Rubric, raw: Json) returns (r: Result<Report, JsonError>)
    ensures r == Normalise(fix, rubric, raw)
  {
    var totalMax := TotalMax(rubric);
    if !raw.Object? {
      return Err(NotAnObject);
    }
    var built := BuildDetailGroups(fix, rubric.items, Get(raw, "details"));
    if built.Err? {
      return Err(built.error);
    }
    var total := Min(Round2(SumGroups(built.value)), totalMax);
    if total <= 0.0 && totalMax > 0.0 {
      built := BuildDetailGroups(fix, rubric.items, Null);
      if built.Err? {
        return Err(built.error);
      }
      total := Min(Round2(SumGroups(built.value)), totalMax);
    }
    r := Ok(Report(built.value, total, totalMax));
  }

  // ---- Alignment

  /** A score in its range: on the half-point grid, or the full score. */
  predicate InRange(score: real, full: real) {
    0.0 <= score <= Max(0.0, full) && (OnGrid(score) || score == full)
  }

  predicate ItemAligned(j: nat, sub: RubricSub, item: DetailItem) {
    item.subtitle == Subtitle(j, sub) && item.fullScore == sub.score && InRange(item.aiScore, sub.score)
  }

  predicate GroupAligned(k: nat, rubricItem: RubricItem, group: DetailGroup) {
    && group.title == Title(k, rubricItem) && group.fullScore == rubricItem.score
    && InRange(group.aiScore, rubricItem.score)
    && |group.items| == |rubricItem.subItems|
    && forall j :: 0 <= j < |group.items| ==> ItemAligned(j, rubricItem.subItems[j], group.items[j])
  }

  predicate Aligned(items: seq<RubricItem>, groups: seq<DetailGroup>) {
    |groups| == |items| && forall k :: 0 <= k < |items| ==> GroupAligned(k, items[k], groups[k])
  }

  lemma {:induction false} ItemsAlign(fix: Fixture, title: string, subs: seq<RubricSub>, n: nat, raws: seq<Json>)
    requires n <= |subs| && BuildItems(fix, title, subs, n, raws).Ok?
    ensures |BuildItems(fix, title, subs, n, raws).value| == n
    ensures forall j :: 0 <= j < n ==> ItemAligned(j, subs[j], BuildItems(fix, title, subs, n, raws).value[j])
    decreases n
  {
    hide BuildItem, ItemAligned, LastMatch, Subtitle;
    if n > 0 {
      ItemsAlign(fix, title, subs, n - 1, raws);
      ItemAligns(fix, title, n - 1, subs[n - 1], LastMatch(raws, "subtitle", Subtitle(n - 1, subs[n - 1])));
    }
  }

  lemma ItemAligns(fix: Fixture, title: string, j: nat, sub: RubricSub, raw: Json)
    requires BuildItem(fix, title, j, sub, raw).Ok?
    ensures ItemAligned(j, sub, BuildItem(fix, title, j, sub, raw).value)
  {
    hide QuantizeHalf, OnGrid, UnroundedScore, StatusOf, FeedbackOf, EvidenceOf, Subtitle, Get;
    QuantizeRange(UnroundedScore(fix.ratio(title, Subtitle(j, sub)), sub.score, Get(raw, "aiScore")), sub.score);
  }

  lemma {:induction false} GroupsAlign(fix: Fixture, items: seq<RubricItem>, n: nat, raws: seq<Json>)
    requires n <= |items| && BuildGroups(fix, items, n, raws).Ok?
    ensures |BuildGroups(fix, items, n, raws).value| == n
    ensures forall k :: 0 <= k < n ==> GroupAligned(k, items[k], BuildGroups(fix, items, n, raws).value[k])
    decreases n
  {
    hide BuildGroup, GroupAligned, Title, LastMatch;
    if n > 0 {
      GroupsAlign(fix, items, n - 1, raws);
      GroupAligns(fix, n - 1, items[n - 1], LastMatch(raws, "title", Title(n - 1, items[n - 1])));
    }
  }

  lemma GroupAligns(fix: Fixture, k: nat, item: RubricItem, raw: Json)
    requires BuildGroup(fix, k, item, raw).Ok?
    ensures GroupAligned(k, item, BuildGroup(fix, k, item, raw).value)
  {
    hide QuantizeHalf, InRange, ItemAligned;
    var raws := Elements(Get(raw, "items")).value;
    ItemsAlign(fix, Title(k, item), item.subItems, |item.subItems|, raws);
    var items := BuildItems(fix, Title(k, item), item.subItems, |item.subItems|, raws).value;
    ScoresFit(SumItems(items), item.score);
  }

  lemma ScoresFit(value: real, full: real)
    ensures InRange(QuantizeHalf(value, full), full)
  {
    QuantizeRange(value, full);
  }

  /** Whatever the raw JSON says: the report has one group per rubric item and one entry per sub item, in the
      rubric's order, under its titles and full scores, and every score is in its range. */
  lemma ReportIsAligned(fix: Fixture, rubric: Rubric, raw: Json)
    requires rubric.items != [] && Normalise(fix, rubric, raw).Ok?
    ensures Aligned(rubric.items, Normalise(fix, rubric, raw).value.details)
    ensures Normalise(fix, rubric, raw).value.score <= Normalise(fix, rubric, raw).value.maxScore
  {
    hide BuildGroups, GroupAligned, SumGroups, Round2, Get;
    var items := rubric.items;
    if BuildGroups(fix, items, |items|, ListOf(Get(raw, "details"))).Ok? {
      GroupsAlign(fix, items, |items|, ListOf(Get(raw, "details")));
    }
    if BuildGroups(fix, items, |items|, ListOf(Null)).Ok? {
      GroupsAlign(fix, items, |items|, ListOf(Null));
    }
  }

  // ---- Conservation

  function SumFull(subs: seq<RubricSub>): real {
    if subs == [] then 0.0 else SumFull(subs[..|subs| - 1]) + subs[|subs| - 1].score
  }

  function SumMax(items: seq<RubricItem>): real {
    if items == [] then 0.0 else SumMax(items[..|items| - 1]) + items[|items| - 1].score
  }

  function SumAll(groups: seq<DetailGroup>): real {
    if groups == [] then 0.0 else SumAll(groups[..|groups| - 1]) + SumItems(groups[|groups| - 1].items)
  }

  /** Sub item maxima on the grid that fit in their group, and group maxima that fit in the total. */
  predicate Fits(rubric: Rubric) {
    && (forall k :: 0 <= k < |rubric.items| ==> GroupFits(rubric.items[k]))
    && SumMax(rubric.items) <= TotalMax(rubric)
  }

  predicate GroupFits(item: RubricItem) {
    && (forall j :: 0 <= j < |item.subItems| ==> item.subItems[j].score >= 0.0 && OnGrid(item.subItems[j].score))
    && SumFull(item.subItems) <= item.score
  }

  lemma {:induction false} EntriesFit(subs: seq<RubricSub>, items: seq<DetailItem>)
    requires |items| == |subs|
    requires forall j :: 0 <= j < |subs| ==> subs[j].score >= 0.0 && OnGrid(subs[j].score)
    requires forall j :: 0 <= j < |subs| ==> InRange(items[j].aiScore, subs[j].score)
    ensures 0.0 <= SumItems(items) <= SumFull(subs) && OnGrid(SumItems(items))
    decreases |items|
  {
    if items != [] {
      var n := |items| - 1;
      EntriesFit(subs[..n], items[..n]);
      GridSum(SumItems(items[..n]), items[n].aiScore);
    }
  }

  /** Nothing is lost in a group: its score is the sum of its entries. */
  lemma GroupAddsUp(fix: Fixture, k: nat, item: RubricItem, raw: Json)
    requires GroupFits(item) && BuildGroup(fix, k, item, raw).Ok?
    ensures var group := BuildGroup(fix, k, item, raw).value;
      && group.aiScore == SumItems(group.items) && OnGrid(group.aiScore) && 0.0 <= group.aiScore <= item.score
  {
    hide QuantizeHalf, OnGrid;
    GroupAligns(fix, k, item, raw);
    var group := BuildGroup(fix, k, item, raw).value;
    EntriesFit(item.subItems, group.items);
    QuantizeKeepsGrid(SumItems(group.items), item.score);
  }

  lemma {:induction false} GroupsAddUp(fix: Fixture, items: seq<RubricItem>, n: nat, raws: seq<Json>)
    requires n <= |items| && BuildGroups(fix, items, n, raws).Ok?
    requires forall k :: 0 <= k < |items| ==> GroupFits(items[k])
    ensures |BuildGroups(fix, items, n, raws).value| == n
    ensures var groups := BuildGroups(fix, items, n, raws).value;
      SumGroups(groups) == SumAll(groups) && OnGrid(SumGroups(groups)) && 0.0 <= SumGroups(groups) <= SumMax(items[..n])
    decreases n
  {
    hide OnGrid, GroupFits, BuildGroup, LastMatch, Title, SumItems;
    if n == 0 {
      NothingIsOnGrid();
    } else {
      GroupsAddUp(fix, items, n - 1, raws);
      GroupAddsUp(fix, n - 1, items[n - 1], LastMatch(raws, "title", Title(n - 1, items[n - 1])));
      AppendGroup(BuildGroups(fix, items, n - 1, raws).value, BuildGroups(fix, items, n, raws).value[n - 1]);
      assert items[..n][..n - 1] == items[..n - 1];
    }
  }

  lemma AppendGroup(groups: seq<DetailGroup>, group: DetailGroup)
    requires OnGrid(SumGroups(groups)) && OnGrid(group.aiScore)
    ensures SumGroups(groups + [group]) == SumGroups(groups) + group.aiScore
    ensures SumAll(groups + [group]) == SumAll(groups) + SumItems(group.items)
    ensures OnGrid(SumGroups(groups + [group]))
  {
    hide OnGrid;
    assert (groups + [group])[..|groups|] == groups;
    GridSum(SumGroups(groups), group.aiScore);
  }

  lemma NothingIsOnGrid()
    ensures OnGrid(0.0)
  {
  }

  lemma DetailsAddUp(fix: Fixture, rubric: Rubric, raw: Json)
    requires rubric.items != [] && Fits(rubric) && Details(fix, rubric.items, raw).Ok?
    ensures var groups := Details(fix, rubric.items, raw).value;
      Total(groups, TotalMax(rubric)) == SumGroups(groups) == SumAll(groups)
  {
    hide Round2, OnGrid, GroupFits;
    var items := rubric.items;
    GroupsAlign(fix, items, |items|, ListOf(raw));
    GroupsAddUp(fix, items, |items|, ListOf(raw));
    assert items[..|items|] == items;
    Round2KeepsGrid(SumGroups(Details(fix, items, raw).value));
  }

  /** For a rubric whose maxima fit, the report's score is the sum of its groups and of all its entries. */
  lemma ScoreIsConserved(fix: Fixture, rubric: Rubric, raw: Json)
    requires rubric.items != [] && Fits(rubric) && Normalise(fix, rubric, raw).Ok?
    ensures var report := Normalise(fix, rubric, raw).value;
      report.score == SumGroups(report.details) == SumAll(report.details)
  {
    hide Fits, Total;
    DetailsAddUp(fix, rubric, Get(raw, "details"));
    if Details(fix, rubric.items, Null).Ok? {
      DetailsAddUp(fix, rubric, Null);
    }
  }

  // ---- Normalising twice

  function Strings(texts: seq<string>): seq<Json> {
    seq(|texts|, i requires 0 <= i < |texts| => String(texts[i]))
  }

  /** The report's parts as JSON. */
  function DumpEvidence(evidence: Option<Evidence>): Json {
    match evidence
    case None => Null
    case Some(e) => Object([Field("times", List(Strings(e.times))), Field("screenshots", List(Strings(e.screenshots)))])
  }

  function DumpItem(item: DetailItem): Json {
    Object([Field("subtitle", String(item.subtitle)), Field("fullScore", Number(item.fullScore)),
            Field("aiScore", Number(item.aiScore)), Field("status", String(item.status)),
            Field("feedback", String(item.feedback)), Field("evidence", DumpEvidence(item.evidence))])
  }

  function DumpItems(items: seq<DetailItem>): seq<Json> {
    seq(|items|, i requires 0 <= i < |items| => DumpItem(items[i]))
  }

  function DumpGroup(group: DetailGroup): Json {
    Object([Field("title", String(group.title)), Field("fullScore", Number(group.fullScore)),
            Field("aiScore", Number(group.aiScore)), Field("items", List(DumpItems(group.items)))])
  }

  function DumpGroups(groups: seq<DetailGroup>): seq<Json> {
    seq(|groups|, i requires 0 <= i < |groups| => DumpGroup(groups[i]))
  }

  lemma ReadItem(item: DetailItem)
    ensures Get(DumpItem(item), "subtitle") == String(item.subtitle)
    ensures Get(DumpItem(item), "aiScore") == Number(item.aiScore)
    ensures Get(DumpItem(item), "status") == String(item.status)
    ensures Get(DumpItem(item), "feedback") == String(item.feedback)
    ensures Get(DumpItem(item), "evidence") == DumpEvidence(item.evidence)
  {
    var fields := DumpItem(item).fields;
    LookupAt(fields, 0);
    LookupAt(fields, 2);
    LookupAt(fields, 3);
    LookupAt(fields, 4);
    LookupAt(fields, 5);
  }

  lemma ReadGroup(group: DetailGroup)
    ensures Get(DumpGroup(group), "title") == String(group.title)
    ensures Get(DumpGroup(group), "items") == List(DumpItems(group.items))
  {
    var fields := DumpGroup(group).fields;
    LookupAt(fields, 0);
    LookupAt(fields, 3);
  }

  lemma ReadEvidence(e: Evidence)
    ensures Get(DumpEvidence(Some(e)), "times") == List(Strings(e.times))
    ensures Get(DumpEvidence(Some(e)), "screenshots") == List(Strings(e.screenshots))
  {
    var fields := DumpEvidence(Some(e)).fields;
    LookupAt(fields, 0);
    LookupAt(fields, 1);
  }

  predicate Clean(text: string) { text != "" && TextOf(String(text)) == Some(text) }

  lemma TextsAreClean(j: Json)
    requires TextOf(j).Some?
    ensures Clean(TextOf(j).value)
  {
  }

  lemma {:induction false} AllClean(list: seq<Json>)
    ensures forall i :: 0 <= i < |Texts(list)| ==> Clean(Texts(list)[i])
    decreases |list|
  {
    hide Clean;
    if list != [] {
      var n := |list| - 1;
      AllClean(list[..n]);
      if TextOf(list[n]).Some? {
        TextsAreClean(list[n]);
      }
    }
  }

  lemma {:induction false} CleanTextsStay(texts: seq<string>)
    requires forall i :: 0 <= i < |texts| ==> Clean(texts[i])
    ensures Texts(Strings(texts)) == texts
    decreases |texts|
  {
    hide TextOf;
    if texts != [] {
      var n := |texts| - 1;
      CleanTextsStay(texts[..n]);
      assert Strings(texts)[..n] == Strings(texts[..n]);
      assert TextOf(Strings(texts)[n]) == Some(texts[n]) by { assert Clean(texts[n]); }
      assert texts == texts[..n] + [texts[n]];
    }
  }

  lemma EvidenceStays(raw: Json)
    requires EvidenceOf(raw).Ok?
    ensures EvidenceOf(DumpEvidence(EvidenceOf(raw).value)) == EvidenceOf(raw)
  {
    hide Texts, Clean;
    var evidence := EvidenceOf(raw).value;
    if evidence.Some? {
      ReadEvidence(evidence.value);
      AllClean(Elements(Get(raw, "times")).value);
      AllClean(Elements(Get(raw, "screenshots")).value);
      CleanTextsStay(evidence.value.times);
      CleanTextsStay(evidence.value.screenshots);
    }
  }

  /** An entry whose texts are as reading leaves them. */
  predicate Settled(item: DetailItem) {
    && Clean(item.status) && (item.feedback == "" || Clean(item.feedback))
    && EvidenceOf(DumpEvidence(item.evidence)) == Ok(item.evidence)
  }

  lemma StatusIsClean(score: real, full: real, raw: Json)
    ensures Clean(StatusOf(score, full, raw))
    ensures FeedbackOf(raw) == "" || Clean(FeedbackOf(raw))
  {
    if TextOf(raw).Some? {
      TextsAreClean(raw);
    } else {
      PlainWord("ok");
      PlainWord("warning");
      PlainWord("error");
    }
  }

  lemma PlainWord(word: string)
    requires word != "" && 'a' <= word[0] <= 'z' && 'a' <= word[|word| - 1] <= 'z'
    ensures Clean(word)
  {
  }

  lemma BuiltIsSettled(fix: Fixture, title: string, j: nat, sub: RubricSub, raw: Json)
    requires BuildItem(fix, title, j, sub, raw).Ok?
    ensures Settled(BuildItem(fix, title, j, sub, raw).value)
  {
    hide ScoreOf, StatusOf, FeedbackOf, EvidenceOf, DumpEvidence, Get, Subtitle, Clean;
    var score := ScoreOf(fix.ratio(title, Subtitle(j, sub)), sub.score, Get(raw, "aiScore"));
    StatusIsClean(score, sub.score, Get(raw, "status"));
    StatusIsClean(score, sub.score, Get(raw, "feedback"));
    EvidenceStays(Get(raw, "evidence"));
  }

  /** What an entry becomes when it is read back for a sub item. */
  function ReadBack(j: nat, sub: RubricSub, item: DetailItem): DetailItem {
    item.(subtitle := Subtitle(j, sub), fullScore := sub.score,
          aiScore := QuantizeHalf(Clamp(item.aiScore, 0.0, sub.score), sub.score))
  }

  lemma CleanReads(text: string, score: real, full: real)
    requires Clean(text)
    ensures StatusOf(score, full, String(text)) == text && FeedbackOf(String(text)) == text
  {
  }

  lemma BlankReads()
    ensures FeedbackOf(String("")) == ""
  {
  }

  lemma ReadsBack(fix: Fixture, title: string, j: nat, sub: RubricSub, item: DetailItem)
    requires Settled(item)
    ensures BuildItem(fix, title, j, sub, DumpItem(item)) == Ok(ReadBack(j, sub, item))
  {
    hide StatusOf, FeedbackOf, EvidenceOf, DumpEvidence, Get, DumpItem, Subtitle, QuantizeHalf, Clean, TextOf;
    ReadItem(item);
    var score := ReadBack(j, sub, item).aiScore;
    CleanReads(item.status, score, sub.score);
    if item.feedback == "" {
      BlankReads();
    } else {
      CleanReads(item.feedback, score, sub.score);
    }
  }

  /** The entry of a sub item that the raw result does not mention. */
  function Default(fix: Fixture, title: string, j: nat, sub: RubricSub): DetailItem {
    var score := ScoreOf(fix.ratio(title, Subtitle(j, sub)), sub.score, Null);
    DetailItem(Subtitle(j, sub), sub.score, score, StatusOf(score, sub.score, Null), "", None)
  }

  lemma ReadsNothing(fix: Fixture, title: string, j: nat, sub: RubricSub)
    ensures BuildItem(fix, title, j, sub, EMPTY) == Ok(Default(fix, title, j, sub))
  {
    hide ScoreOf, Subtitle;
    assert Get(EMPTY, "aiScore") == Get(EMPTY, "status") == Get(EMPTY, "feedback") == Get(EMPTY, "evidence") == Null;
  }

  /** The last entry, or group, of a name. */
  function LastNamed(items: seq<DetailItem>, subtitle: string): (r: Option<DetailItem>)
    ensures r.Some? ==> r.value in items && r.value.subtitle == subtitle
    ensures r.None? ==> forall j :: 0 <= j < |items| ==> items[j].subtitle != subtitle
  {
    if items == [] then None
    else
      var n := |items| - 1;
      if items[n].subtitle == subtitle then Some(items[n]) else LastNamed(items[..n], subtitle)
  }

  function LastTitled(groups: seq<DetailGroup>, title: string): (r: Option<DetailGroup>)
    ensures r.Some? ==> r.value in groups && r.value.title == title
    ensures r.None? ==> forall k :: 0 <= k < |groups| ==> groups[k].title != title
  {
    if groups == [] then None
    else
      var n := |groups| - 1;
      if groups[n].title == title then Some(groups[n]) else LastTitled(groups[..n], title)
  }

  lemma {:induction false} FindsNamed(items: seq<DetailItem>, subtitle: string)
    ensures LastMatch(DumpItems(items), "subtitle", subtitle) ==
              match LastNamed(items, subtitle) { case None => EMPTY case Some(item) => DumpItem(item) }
    decreases |items|
  {
    hide Get;
    if items != [] {
      var n := |items| - 1;
      FindsNamed(items[..n], subtitle);
      ReadItem(items[n]);
      assert DumpItems(items)[..n] == DumpItems(items[..n]);
    }
  }

  lemma {:induction false} FindsTitled(groups: seq<DetailGroup>, title: string)
    ensures LastMatch(DumpGroups(groups), "title", title) ==
              match LastTitled(groups, title) { case None => EMPTY case Some(group) => DumpGroup(group) }
    decreases |groups|
  {
    hide Get;
    if groups != [] {
      var n := |groups| - 1;
      FindsTitled(groups[..n], title);
      ReadGroup(groups[n]);
      assert DumpGroups(groups)[..n] == DumpGroups(groups[..n]);
    }
  }

  /** The entry that a sub item gets from the last one of its name, if there is one. */
  function Reread(fix: Fixture, title: string, j: nat, sub: RubricSub, found: Option<DetailItem>): DetailItem {
    match found case Some(item) => ReadBack(j, sub, item) case None => Default(fix, title, j, sub)
  }

  function RereadAll(fix: Fixture, title: string, subs: seq<RubricSub>, items: seq<DetailItem>): seq<DetailItem> {
    seq(|subs|, j requires 0 <= j < |subs| => Reread(fix, title, j, subs[j], LastNamed(items, Subtitle(j, subs[j]))))
  }

  predicate AllSettled(items: seq<DetailItem>) { forall j :: 0 <= j < |items| ==> Settled(items[j]) }

  lemma SubItemRereads(fix: Fixture, title: string, j: nat, sub: RubricSub, items: seq<DetailItem>)
    requires AllSettled(items)
    ensures BuildItem(fix, title, j, sub, LastMatch(DumpItems(items), "subtitle", Subtitle(j, sub))) ==
              Ok(Reread(fix, title, j, sub, LastNamed(items, Subtitle(j, sub))))
  {
    hide BuildItem, ReadBack, Default, LastMatch, Settled, DumpItem, DumpItems, Subtitle;
    FindsNamed(items, Subtitle(j, sub));
    match LastNamed(items, Subtitle(j, sub)) {
      case None => ReadsNothing(fix, title, j, sub);
      case Some(item) => ReadsBack(fix, title, j, sub, item);
    }
  }

  lemma {:induction false} ItemsReread(fix: Fixture, title: string, subs: seq<RubricSub>, n: nat, items: seq<DetailItem>)
    requires AllSettled(items) && n <= |subs|
    ensures BuildItems(fix, title, subs, n, DumpItems(items)) == Ok(RereadAll(fix, title, subs, items)[..n])
    decreases n
  {
    hide BuildItem, Reread, LastMatch, AllSettled, DumpItems, Subtitle;
    if n > 0 {
      ItemsReread(fix, title, subs, n - 1, items);
      SubItemRereads(fix, title, n - 1, subs[n - 1], items);
      var all := RereadAll(fix, title, subs, items);
      assert all[..n] == all[..n - 1] + [all[n - 1]];
    }
  }

  /** What a rubric item's group becomes when it is read from this one. */
  function Regroup(fix: Fixture, k: nat, item: RubricItem, group: DetailGroup): DetailGroup {
    var entries := RereadAll(fix, Title(k, item), item.subItems, group.items);
    DetailGroup(Title(k, item), item.score, QuantizeHalf(SumItems(entries), item.score), entries)
  }

  lemma GroupRereads(fix: Fixture, k: nat, item: RubricItem, group: DetailGroup)
    requires AllSettled(group.items)
    ensures BuildGroup(fix, k, item, DumpGroup(group)) == Ok(Regroup(fix, k, item, group))
  {
    hide DumpItems, DumpGroup, BuildItems, AllSettled, Title, QuantizeHalf, SumItems, Get;
    ReadGroup(group);
    ItemsReread(fix, Title(k, item), item.subItems, |item.subItems|, group.items);
    var all := RereadAll(fix, Title(k, item), item.subItems, group.items);
    assert all[..|item.subItems|] == all;
  }

  lemma {:induction false} ItemAt(fix: Fixture, title: string, subs: seq<RubricSub>, n: nat, raws: seq<Json>, j: nat)
    requires j < n <= |subs| && BuildItems(fix, title, subs, n, raws).Ok?
    ensures |BuildItems(fix, title, subs, n, raws).value| == n
    ensures BuildItem(fix, title, j, subs[j], LastMatch(raws, "subtitle", Subtitle(j, subs[j]))) ==
              Ok(BuildItems(fix, title, subs, n, raws).value[j])
    decreases n
  {
    hide BuildItem, LastMatch, Subtitle, ItemAligned;
    ItemsAlign(fix, title, subs, n, raws);
    ItemsAlign(fix, title, subs, n - 1, raws);
    if j < n - 1 {
      ItemAt(fix, title, subs, n - 1, raws, j);
    }
  }

  /** Sub items of one name have the same maximum; distinct names in particular. */
  predicate SubtitlesAgree(item: RubricItem) {
    forall i, j :: 0 <= i < j < |item.subItems| && Subtitle(i, item.subItems[i]) == Subtitle(j, item.subItems[j]) ==>
      item.subItems[i].score == item.subItems[j].score
  }

  /** Rubric items of one title have the same maximum and the same sub items. */
  predicate TitlesAgree(items: seq<RubricItem>) {
    forall i, j :: 0 <= i < j < |items| && Title(i, items[i]) == Title(j, items[j]) ==>
      items[i].score == items[j].score && items[i].subItems == items[j].subItems
  }

  lemma SameNameSameItem(fix: Fixture, title: string, item: RubricItem, raws: seq<Json>, items: seq<DetailItem>)
    requires SubtitlesAgree(item) && BuildItems(fix, title, item.subItems, |item.subItems|, raws) == Ok(items)
    requires |items| == |item.subItems|
    ensures forall i, k :: 0 <= i < k < |items| && items[i].subtitle == items[k].subtitle ==> items[i] == items[k]
  {
    hide BuildItems, LastMatch, Subtitle, ScoreOf, StatusOf, FeedbackOf, EvidenceOf, Get;
    forall i, k | 0 <= i < k < |items| && items[i].subtitle == items[k].subtitle ensures items[i] == items[k] {
      ItemAt(fix, title, item.subItems, |item.subItems|, raws, i);
      ItemAt(fix, title, item.subItems, |item.subItems|, raws, k);
      assert Subtitle(i, item.subItems[i]) == Subtitle(k, item.subItems[k]);
    }
  }

  lemma {:induction false} GroupAt(fix: Fixture, items: seq<RubricItem>, n: nat, raws: seq<Json>, k: nat)
    requires k < n <= |items| && BuildGroups(fix, items, n, raws).Ok?
    ensures |BuildGroups(fix, items, n, raws).value| == n
    ensures BuildGroup(fix, k, items[k], LastMatch(raws, "title", Title(k, items[k]))) ==
              Ok(BuildGroups(fix, items, n, raws).value[k])
    decreases n
  {
    hide BuildGroup, LastMatch, Title, GroupAligned;
    GroupsAlign(fix, items, n, raws);
    GroupsAlign(fix, items, n - 1, raws);
    if k < n - 1 {
      GroupAt(fix, items, n - 1, raws, k);
    }
  }

  predicate NamesAgree(items: seq<RubricItem>) {
    TitlesAgree(items) && forall k :: 0 <= k < |items| ==> SubtitlesAgree(items[k])
  }

  lemma SameTitleSameGroup(fix: Fixture, items: seq<RubricItem>, raws: seq<Json>, groups: seq<DetailGroup>)
    requires TitlesAgree(items) && BuildGroups(fix, items, |items|, raws) == Ok(groups) && |groups| == |items|
    ensures forall i, j :: 0 <= i < j < |groups| && groups[i].title == groups[j].title ==> groups[i] == groups[j]
  {
    hide BuildGroups, BuildItems, LastMatch, Title, QuantizeHalf, SumItems, Elements, Get;
    forall i, j | 0 <= i < j < |groups| && groups[i].title == groups[j].title ensures groups[i] == groups[j] {
      GroupAt(fix, items, |items|, raws, i);
      GroupAt(fix, items, |items|, raws, j);
      assert Title(i, items[i]) == Title(j, items[j]);
    }
  }

  lemma {:induction false} GroupsReread(fix: Fixture, items: seq<RubricItem>, n: nat, groups: seq<DetailGroup>)
    requires n <= |items|
    requires forall k :: 0 <= k < |groups| ==> AllSettled(groups[k].items)
    requires forall i :: 0 <= i < |items| ==> LastTitled(groups, Title(i, items[i])).Some?
    ensures BuildGroups(fix, items, n, DumpGroups(groups)).Ok?
    ensures |BuildGroups(fix, items, n, DumpGroups(groups)).value| == n
    ensures forall i :: 0 <= i < n ==> BuildGroups(fix, items, n, DumpGroups(groups)).value[i] ==
                                         Regroup(fix, i, items[i], LastTitled(groups, Title(i, items[i])).value)
    decreases n
  {
    hide BuildGroup, Regroup, DumpGroup, DumpGroups, LastMatch, Title, AllSettled;
    if n > 0 {
      GroupsReread(fix, items, n - 1, groups);
      FindsTitled(groups, Title(n - 1, items[n - 1]));
      GroupRereads(fix, n - 1, items[n - 1], LastTitled(groups, Title(n - 1, items[n - 1])).value);
    }
  }

  lemma {:induction false} ItemsAreSettled(fix: Fixture, title: string, subs: seq<RubricSub>, n: nat, raws: seq<Json>)
    requires n <= |subs| && BuildItems(fix, title, subs, n, raws).Ok?
    ensures AllSettled(BuildItems(fix, title, subs, n, raws).value)
    decreases n
  {
    hide BuildItem, Settled, LastMatch, Subtitle;
    if n > 0 {
      ItemsAreSettled(fix, title, subs, n - 1, raws);
      BuiltIsSettled(fix, title, n - 1, subs[n - 1], LastMatch(raws, "subtitle", Subtitle(n - 1, subs[n - 1])));
    }
  }

  lemma GroupIsSettled(fix: Fixture, k: nat, item: RubricItem, raw: Json)
    requires BuildGroup(fix, k, item, raw).Ok?
    ensures var group := BuildGroup(fix, k, item, raw).value;
      && AllSettled(group.items) && group.aiScore == QuantizeHalf(SumItems(group.items), item.score)
  {
    hide BuildItems, AllSettled, QuantizeHalf, SumItems;
    ItemsAreSettled(fix, Title(k, item), item.subItems, |item.subItems|, Elements(Get(raw, "items")).value);
  }

  /** The entry that a sub item reads when the report is read back: the last of its name in the last group of its
      title, if there is one. */
  function Namesake(groups: seq<DetailGroup>, title: string, subtitle: string): Option<DetailItem> {
    match LastTitled(groups, title) case None => None case Some(group) => LastNamed(group.items, subtitle)
  }

  /** An entry agrees with the one that is read for it: as many points within its own maximum, the same status,
      feedback and evidence; or, when there is none to read, with what the fixture says. */
  predicate Agrees(fix: Fixture, title: string, sub: RubricSub, item: DetailItem, found: Option<DetailItem>) {
    match found
    case Some(other) =>
      && item.aiScore == QuantizeHalf(Clamp(other.aiScore, 0.0, sub.score), sub.score)
      && item.status == other.status && item.feedback == other.feedback && item.evidence == other.evidence
    case None =>
      && item.aiScore == ScoreOf(fix.ratio(title, item.subtitle), sub.score, Null)
      && item.status == StatusOf(item.aiScore, sub.score, Null) && item.feedback == "" && item.evidence == None
  }

  /** A group agrees with the one that is read for its rubric item. */
  predicate GroupAgrees(fix: Fixture, items: seq<RubricItem>, groups: seq<DetailGroup>, i: nat)
    requires Aligned(items, groups) && i < |items|
  {
    forall j :: 0 <= j < |items[i].subItems| ==>
      Agrees(fix, Title(i, items[i]), items[i].subItems[j], groups[i].items[j],
             Namesake(groups, Title(i, items[i]), Subtitle(j, items[i].subItems[j])))
  }

  predicate AllAgree(fix: Fixture, items: seq<RubricItem>, groups: seq<DetailGroup>)
    requires Aligned(items, groups)
  {
    forall i :: 0 <= i < |items| ==> GroupAgrees(fix, items, groups, i)
  }

  lemma RereadIff(fix: Fixture, title: string, j: nat, sub: RubricSub, item: DetailItem, found: Option<DetailItem>)
    requires ItemAligned(j, sub, item)
    ensures Reread(fix, title, j, sub, found) == item <==> Agrees(fix, title, sub, item, found)
  {
    hide QuantizeHalf, ScoreOf, StatusOf, Subtitle, InRange;
    match found {
      case Some(other) =>
        assert item == ReadBack(j, sub, other).(aiScore := item.aiScore, status := item.status,
                                                feedback := item.feedback, evidence := item.evidence);
      case None =>
        assert item == Default(fix, title, j, sub).(aiScore := item.aiScore, status := item.status,
                                                    feedback := item.feedback, evidence := item.evidence);
    }
  }

  lemma RegroupIff(fix: Fixture, k: nat, item: RubricItem, group: DetailGroup, from: DetailGroup)
    requires GroupAligned(k, item, group) && group.aiScore == QuantizeHalf(SumItems(group.items), item.score)
    ensures Regroup(fix, k, item, from) == group <==>
              forall j :: 0 <= j < |item.subItems| ==>
                Agrees(fix, Title(k, item), item.subItems[j], group.items[j],
                       LastNamed(from.items, Subtitle(j, item.subItems[j])))
  {
    hide Reread, Agrees, Subtitle, Title, QuantizeHalf, SumItems, InRange, ItemAligned;
    var entries := RereadAll(fix, Title(k, item), item.subItems, from.items);
    forall j | 0 <= j < |item.subItems|
      ensures entries[j] == group.items[j] <==>
                Agrees(fix, Title(k, item), item.subItems[j], group.items[j],
                       LastNamed(from.items, Subtitle(j, item.subItems[j])))
    {
      RereadIff(fix, Title(k, item), j, item.subItems[j], group.items[j],
                LastNamed(from.items, Subtitle(j, item.subItems[j])));
    }
    assert entries == group.items <==> forall j :: 0 <= j < |item.subItems| ==> entries[j] == group.items[j];
  }

  lemma GroupsAreSettled(fix: Fixture, items: seq<RubricItem>, raws: seq<Json>, groups: seq<DetailGroup>, i: nat)
    requires BuildGroups(fix, items, |items|, raws) == Ok(groups) && i < |items|
    ensures |groups| == |items| && AllSettled(groups[i].items) && groups[i].title == Title(i, items[i])
    ensures groups[i].aiScore == QuantizeHalf(SumItems(groups[i].items), items[i].score)
  {
    hide LastMatch, Title, BuildItems, BuildGroups, AllSettled, QuantizeHalf, SumItems;
    GroupAt(fix, items, |items|, raws, i);
    GroupIsSettled(fix, i, items[i], LastMatch(raws, "title", Title(i, items[i])));
  }

  lemma GroupsReadBackIff(fix: Fixture, items: seq<RubricItem>, raws: seq<Json>, groups: seq<DetailGroup>)
    requires BuildGroups(fix, items, |items|, raws) == Ok(groups) && Aligned(items, groups)
    ensures BuildGroups(fix, items, |items|, DumpGroups(groups)).Ok?
    ensures BuildGroups(fix, items, |items|, DumpGroups(groups)) == Ok(groups) <==> AllAgree(fix, items, groups)
    ensures |BuildGroups(fix, items, |items|, DumpGroups(groups)).value| == |items|
  {
    hide BuildGroups, LastMatch, Title, Subtitle, Agrees, AllSettled, GroupAligned, Regroup, DumpGroups, QuantizeHalf, SumItems,
      LastNamed, LastTitled;
    forall i | 0 <= i < |items| ensures AllSettled(groups[i].items) && groups[i].title == Title(i, items[i]) {
      GroupsAreSettled(fix, items, raws, groups, i);
    }
    GroupsReread(fix, items, |items|, groups);
    var again := BuildGroups(fix, items, |items|, DumpGroups(groups)).value;
    forall i | 0 <= i < |items| ensures again[i] == groups[i] <==> GroupAgrees(fix, items, groups, i) {
      GroupsAreSettled(fix, items, raws, groups, i);
      assert GroupAligned(i, items[i], groups[i]);
      RegroupIff(fix, i, items[i], groups[i], LastTitled(groups, Title(i, items[i])).value);
    }
    assert again == groups <==> forall i :: 0 <= i < |items| ==> again[i] == groups[i];
  }

  /** A report's details, for any rubric, read back as themselves if and only if every entry agrees with the one
      that is read for it. */
  lemma ReadsBackIff(fix: Fixture, items: seq<RubricItem>, raw: Json)
    requires items != [] && Details(fix, items, raw).Ok?
    ensures Aligned(items, Details(fix, items, raw).value)
    ensures Details(fix, items, List(DumpGroups(Details(fix, items, raw).value))) == Details(fix, items, raw) <==>
              AllAgree(fix, items, Details(fix, items, raw).value)
  {
    hide BuildGroups, AllAgree, DumpGroups, GroupAligned, Fallback;
    var groups := BuildGroups(fix, items, |items|, ListOf(raw)).value;
    GroupsAlign(fix, items, |items|, ListOf(raw));
    hide Aligned;
    GroupsReadBackIff(fix, items, ListOf(raw), groups);
  }

  /** When equal names stand for equal things every entry agrees with itself. */
  lemma NamesakesAgree(fix: Fixture, items: seq<RubricItem>, raws: seq<Json>, groups: seq<DetailGroup>)
    requires NamesAgree(items) && BuildGroups(fix, items, |items|, raws) == Ok(groups) && Aligned(items, groups)
    ensures AllAgree(fix, items, groups)
  {
    hide BuildGroups, BuildItem, BuildItems, LastMatch, Title, Subtitle, QuantizeHalf, SumItems, Elements, Get, TitlesAgree,
      SubtitlesAgree;
    SameTitleSameGroup(fix, items, raws, groups);
    forall i | 0 <= i < |items| ensures GroupAgrees(fix, items, groups, i) {
      forall j | 0 <= j < |items[i].subItems|
        ensures Agrees(fix, Title(i, items[i]), items[i].subItems[j], groups[i].items[j],
                       Namesake(groups, Title(i, items[i]), Subtitle(j, items[i].subItems[j])))
      {
        EntryAgrees(fix, items, raws, groups, i, j);
      }
    }
  }

  lemma EntryAgrees(fix: Fixture, items: seq<RubricItem>, raws: seq<Json>, groups: seq<DetailGroup>, i: nat, j: nat)
    requires NamesAgree(items) && BuildGroups(fix, items, |items|, raws) == Ok(groups) && Aligned(items, groups)
    requires forall k, m :: 0 <= k < m < |groups| && groups[k].title == groups[m].title ==> groups[k] == groups[m]
    requires i < |items| && j < |items[i].subItems|
    ensures Agrees(fix, Title(i, items[i]), items[i].subItems[j], groups[i].items[j],
                   Namesake(groups, Title(i, items[i]), Subtitle(j, items[i].subItems[j])))
  {
    hide BuildGroups, BuildItem, BuildItems, LastMatch, Title, Subtitle, QuantizeHalf, SumItems, TitlesAgree, SubtitlesAgree;
    var title, subs, group := Title(i, items[i]), items[i].subItems, groups[i];
    assert GroupAligned(i, items[i], group) && ItemAligned(j, subs[j], group.items[j]);
    assert LastTitled(groups, title) == Some(group);
    GroupAt(fix, items, |items|, raws, i);
    var inside := Elements(Get(LastMatch(raws, "title", title), "items")).value;
    SameNameSameItem(fix, title, items[i], inside, group.items);
    assert LastNamed(group.items, Subtitle(j, subs[j])) == Some(group.items[j]);
    ItemAt(fix, title, subs, |subs|, inside, j);
    BuiltIsQuantised(fix, title, j, subs[j], LastMatch(inside, "subtitle", Subtitle(j, subs[j])));
  }

  lemma BuiltIsQuantised(fix: Fixture, title: string, j: nat, sub: RubricSub, raw: Json)
    requires BuildItem(fix, title, j, sub, raw).Ok?
    ensures var score := BuildItem(fix, title, j, sub, raw).value.aiScore;
      QuantizeHalf(Clamp(score, 0.0, sub.score), sub.score) == score
  {
    hide QuantizeHalf, Clamp, UnroundedScore, StatusOf, FeedbackOf, EvidenceOf, Subtitle, Get;
    QuantizeIsIdempotent(UnroundedScore(fix.ratio(title, Subtitle(j, sub)), sub.score, Get(raw, "aiScore")), sub.score);
  }

  lemma DetailsStay(fix: Fixture, items: seq<RubricItem>, raw: Json)
    requires NamesAgree(items) && Details(fix, items, raw).Ok?
    ensures Details(fix, items, List(DumpGroups(Details(fix, items, raw).value))) == Details(fix, items, raw)
  {
    hide NamesAgree, DumpGroups, Fallback, Aligned;
    if items != [] {
      ReadsBackIff(fix, items, raw);
      NamesakesAgree(fix, items, ListOf(raw), Details(fix, items, raw).value);
    }
  }

  /** Normalising is a projection: a report read back as raw JSON gives the same details and score, also when
      the fixture stood in for a total of zero, for every rubric in which equal names stand for equal things. */
  lemma NormaliseIsAProjection(fix: Fixture, rubric: Rubric, raw: Json, again: Json)
    requires NamesAgree(rubric.items) && Normalise(fix, rubric, raw).Ok?
    requires again.Object? && Get(again, "details") == List(DumpGroups(Normalise(fix, rubric, raw).value.details))
    ensures Normalise(fix, rubric, again) == Normalise(fix, rubric, raw)
  {
    hide NamesAgree, Details, Total, Get, DumpGroups;
    DetailsStay(fix, rubric.items, Get(raw, "details"));
    if Details(fix, rubric.items, Null).Ok? {
      DetailsStay(fix, rubric.items, Null);
    }
  }

  // ---- What repeated names do

  lemma {:induction false} LastOfItsName(items: seq<DetailItem>, j: nat)
    requires j < |items| && forall k :: j < k < |items| ==> items[k].subtitle != items[j].subtitle
    ensures LastNamed(items, items[j].subtitle) == Some(items[j])
    decreases |items|
  {
    if j < |items| - 1 {
      LastOfItsName(items[..|items| - 1], j);
    }
  }

  /** A raw entry that gives a sub item so many points, and says nothing else. */
  function Points(subtitle: string, points: real): Json {
    Object([Field("subtitle", String(subtitle)), Field("aiScore", Number(points))])
  }

  lemma ReadPoints(subtitle: string, points: real)
    ensures Get(Points(subtitle, points), "subtitle") == String(subtitle)
    ensures Get(Points(subtitle, points), "aiScore") == Number(points)
    ensures Get(Points(subtitle, points), "evidence") == Null
  {
    var fields := Points(subtitle, points).fields;
    LookupAt(fields, 0);
    LookupAt(fields, 1);
    LookupMissing(fields, "evidence");
  }

  /** One raw entry without evidence never fails. */
  lemma {:induction false} OneEntryBuilds(fix: Fixture, title: string, subs: seq<RubricSub>, n: nat, raw: Json)
    requires n <= |subs| && Get(raw, "evidence") == Null
    ensures BuildItems(fix, title, subs, n, [raw]).Ok?
    decreases n
  {
    hide Subtitle, ScoreOf, StatusOf, FeedbackOf;
    if n > 0 {
      OneEntryBuilds(fix, title, subs, n - 1, raw);
      var found := LastMatch([raw], "subtitle", Subtitle(n - 1, subs[n - 1]));
      MatchIsOfTheList([raw], "subtitle", Subtitle(n - 1, subs[n - 1]));
      assert Get(found, "evidence") == Null;
    }
  }

  /** Equal names must stand for equal things: of two sub items of one name and maxima on the grid, the earlier one
      worth more than the last, the earlier one loses points when its report is read back, because it then reads the
      last one's entry. */
  lemma RepeatedNamesDrift(fix: Fixture, title: string, subs: seq<RubricSub>, i: nat, j: nat)
    returns (items: seq<DetailItem>, again: seq<DetailItem>)
    requires i < j < |subs| && Subtitle(i, subs[i]) == Subtitle(j, subs[j])
    requires forall k :: j < k < |subs| ==> Subtitle(k, subs[k]) != Subtitle(j, subs[j])
    requires OnGrid(subs[i].score) && OnGrid(subs[j].score) && 0.0 <= subs[j].score < subs[i].score
    ensures BuildItems(fix, title, subs, |subs|, [Points(Subtitle(i, subs[i]), subs[i].score)]) == Ok(items)
    ensures BuildItems(fix, title, subs, |subs|, DumpItems(items)) == Ok(again)
    ensures |items| == |again| == |subs| && items[i].aiScore == subs[i].score && again[i].aiScore == subs[j].score
  {
    hide Subtitle, QuantizeHalf, StatusOf, FeedbackOf, EvidenceOf, OnGrid, InRange, DumpItem, DumpItems, Get, BuildItems,
      Settled, LastNamed;
    var name := Subtitle(i, subs[i]);
    var raw := Points(name, subs[i].score);
    ReadPoints(name, subs[i].score);
    OneEntryBuilds(fix, title, subs, |subs|, raw);
    items := BuildItems(fix, title, subs, |subs|, [raw]).value;
    ItemAt(fix, title, subs, |subs|, [raw], i);
    ItemAt(fix, title, subs, |subs|, [raw], j);
    MatchOne(raw, name);
    QuantizeKeepsGrid(subs[i].score, subs[i].score);
    QuantizeKeepsGrid(subs[j].score, subs[j].score);
    ItemsAlign(fix, title, subs, |subs|, [raw]);
    ItemsAreSettled(fix, title, subs, |subs|, [raw]);
    again := RereadAll(fix, title, subs, items);
    ItemsReread(fix, title, subs, |subs|, items);
    assert again[..|subs|] == again;
    LastOfItsName(items, j);
    QuantizeKeepsGrid(subs[j].score, subs[i].score);
  }

  lemma {:induction false} MatchIsOfTheList(list: seq<Json>, key: string, text: string)
    ensures LastMatch(list, key, text) == EMPTY || LastMatch(list, key, text) in list
    decreases |list|
  {
    if list != [] {
      MatchIsOfTheList(list[..|list| - 1], key, text);
    }
  }

  lemma MatchOne(raw: Json, text: string)
    requires raw.Object? && Get(raw, "subtitle") == String(text)
    ensures LastMatch([raw], "subtitle", text) == raw
  {
  }
}
