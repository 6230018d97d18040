/**
 Reading a scoring rubric from the rows of a sheet: a named row starts a primary item, every row that is not
 blank is one sub item of the item started last.
 */
module RubricTemplate {
  import opened Wrappers
  import opened StringArray
  import opened RubricShares

  datatype RubricError =
    | NoRows | UnexpectedHeader | NoSubItems(name: string) | MissingPrimaryScore | InvalidPrimaryScore(raw: string)
    | NonPositiveScore | SubItemBeforePrimary(line: nat) | MissingColumns(line: nat) | InvalidSubScore(raw: string)
    | NegativeSubScore | NoItems

  datatype Item = Item(id: nat, name: string, score: real, subItems: seq<SubItem>)

  datatype Template = Template(totalScore: int, items: seq<Item>)

  // ---- Rows

  /** The trimmed cells of a row. */
  datatype Row = Row(
    name: string, score: string, subContent: string, subScore: string, standard: string, rule: string, remark: string)

  function CellAt(cells: seq<string>, i: nat): string { if i < |cells| then TrimSpace(cells[i]) else "" }

  function ReadRow(cells: seq<string>): Row {
    Row(CellAt(cells, 0), CellAt(cells, 1), CellAt(cells, 2), CellAt(cells, 3), CellAt(cells, 4), CellAt(cells, 5),
        CellAt(cells, 6))
  }

  predicate Blank(row: Row) { row == Row("", "", "", "", "", "", "") }

  /** Reads a decimal number. */
  type Number = string -> Option<real>

  function PrimaryScore(raw: string, number: Number): Result<real, RubricError> {
    if raw == "" then Err(MissingPrimaryScore)
    else
      match number(raw)
      case None => Err(InvalidPrimaryScore(raw))
      case Some(value) => if value <= 0.0 then Err(NonPositiveScore) else Ok(value)
  }

  function OptionalSubScore(raw: string, number: Number): Result<real, RubricError> {
    if raw == "" then Ok(0.0)
    else
      match number(raw)
      case None => Err(InvalidSubScore(raw))
      case Some(value) => if value < 0.0 then Err(NegativeSubScore) else Ok(value)
  }

  function ValueOr0(score: Result<real, RubricError>): real { if score.Ok? then score.value else 0.0 }

  /** What is wrong with a row that is not blank, on the sheet's given line; `started` when a named row came before. */
  function Problem(row: Row, started: bool, line: nat, number: Number): Option<RubricError> {
    if row.name != "" && PrimaryScore(row.score, number).Err? then Some(PrimaryScore(row.score, number).error)
    else if row.name == "" && !started then Some(SubItemBeforePrimary(line))
    else RestProblem(row, line, number)
  }

  function RestProblem(row: Row, line: nat, number: Number): Option<RubricError> {
    if row.subContent == "" || row.standard == "" || row.rule == "" then Some(MissingColumns(line))
    else if OptionalSubScore(row.subScore, number).Err? then Some(OptionalSubScore(row.subScore, number).error)
    else None
  }

  /** The rows that are not blank, in order. */
  function Filled(rows: seq<Row>): seq<Row> {
    if rows == [] then []
    else
      var n := |rows| - 1;
      Filled(rows[..n]) + if Blank(rows[n]) then [] else [rows[n]]
  }

  predicate Started(rows: seq<Row>) { exists i :: 0 <= i < |rows| && rows[i].name != "" }

  /** The first problem of the rows, whose first row stands on line 3 of the sheet. */
  function FirstProblem(rows: seq<Row>, number: Number): Option<RubricError> {
    if rows == [] then None
    else
      var n := |rows| - 1;
      var before := FirstProblem(rows[..n], number);
      if before.Some? then before
      else if Blank(rows[n]) then None
      else Problem(rows[n], Started(rows[..n]), n + 3, number)
  }

  // ---- Grouping

  type Group = seq<Row>

  function Flat(groups: seq<Group>): seq<Row> {
    if groups == [] then [] else Flat(groups[..|groups| - 1]) + groups[|groups| - 1]
  }

  predicate IsGroup(g: Group) { g != [] && g[0].name != "" && forall j :: 0 < j < |g| ==> g[j].name == "" }

  /** The rows cut, in order and with none left out, into groups that start at each named row. */
  predicate Groups(groups: seq<Group>, rows: seq<Row>) {
    Flat(groups) == rows && forall k :: 0 <= k < |groups| ==> IsGroup(groups[k])
  }

  function SubItemOf(k: nat, j: nat, row: Row, number: Number): SubItem {
    SubItem((k, j), row.subContent, ValueOr0(OptionalSubScore(row.subScore, number)), row.standard, row.rule,
            if row.remark == "" then None else Some(row.remark))
  }

  /** The sub items of the k-th group, its rows one by one, as written. */
  function SubItemsOf(k: nat, g: Group, number: Number): (r: seq<SubItem>)
    ensures |r| == |g|
  {
    seq(|g|, j requires 0 <= j < |g| => SubItemOf(k, j + 1, g[j], number))
  }

  function ScoreOf(g: Group, number: Number): real {
    if g == [] then 0.0 else ValueOr0(PrimaryScore(g[0].score, number))
  }

  function NameOf(g: Group): string { if g == [] then "" else g[0].name }

  function ItemOf(k: nat, g: Group, number: Number): Item {
    Item(k, NameOf(g), RoundToTwo(ScoreOf(g, number)), WithShares(ScoreOf(g, number), SubItemsOf(k, g, number)))
  }

  function ItemsOf(groups: seq<Group>, number: Number): (r: seq<Item>)
    ensures |r| == |groups|
  {
    seq(|groups|, k requires 0 <= k < |groups| => ItemOf(k + 1, groups[k], number))
  }

  function TotalOf(groups: seq<Group>, number: Number): real {
    if groups == [] then 0.0 else TotalOf(groups[..|groups| - 1], number) + ScoreOf(groups[|groups| - 1], number)
  }

  /** The groups with one more row. */
  function Extend(groups: seq<Group>, row: Row): seq<Group>
    requires row.name != "" || groups != []
  {
    if row.name != "" then groups + [[row]]
    else groups[..|groups| - 1] + [groups[|groups| - 1] + [row]]
  }

  lemma ExtendGroups(groups: seq<Group>, rows: seq<Row>, row: Row)
    requires Groups(groups, rows) && (row.name != "" || groups != [])
    ensures Groups(Extend(groups, row), rows + [row])
  {
    var next := Extend(groups, row);
    if row.name != "" {
      assert next[..|groups|] == groups;
    } else {
      assert next[..|groups| - 1] == groups[..|groups| - 1];
    }
  }

  lemma OneRowMore(k: nat, g: Group, row: Row, number: Number)
    ensures SubItemsOf(k, g + [row], number) == SubItemsOf(k, g, number) + [SubItemOf(k, |g| + 1, row, number)]
    ensures g != [] ==> NameOf(g + [row]) == NameOf(g) && ScoreOf(g + [row], number) == ScoreOf(g, number)
  {
  }

  // ---- The reader

  class Reader {
    const number: Number
    var items: seq<Item>
    var primaryName: string
    var primaryScore: real
    var subItems: seq<SubItem>
    var primaryId: nat
    var totalScore: real

    constructor (number: Number)
      ensures this.number == number && Holds([])
    {
      this.number := number;
      items, primaryName, primaryScore, subItems, primaryId, totalScore := [], "", 0.0, [], 0, 0.0;
    }

    /** The reader has read these groups: all but the last are items already. */
    ghost predicate Holds(groups: seq<Group>)
      reads this
    {
      && (forall k :: 0 <= k < |groups| ==> IsGroup(groups[k]))
      && primaryId == |groups|
      && if groups == [] then items == [] && primaryName == "" && subItems == [] && totalScore == 0.0
         else
           var n := |groups| - 1;
           && items == ItemsOf(groups[..n], number) && totalScore == TotalOf(groups[..n], number)
           && primaryName == NameOf(groups[n]) && primaryScore == ScoreOf(groups[n], number)
           && subItems == SubItemsOf(n + 1, groups[n], number)
    }

    /** All the groups are items. */
    ghost predicate Done(groups: seq<Group>)
      reads this
    {
      && (forall k :: 0 <= k < |groups| ==> IsGroup(groups[k]))
      && primaryId == |groups| && items == ItemsOf(groups, number) && totalScore == TotalOf(groups, number)
      && subItems == []
    }

    /** Closes the current item. A named item without sub items would be refused; there never is one. */
    method FlushCurrent(ghost groups: seq<Group>) returns (r: Result<(), RubricError>)
      requires Holds(groups)
      modifies this
      ensures r == Ok(()) && Done(groups)
    {
      if primaryName == "" {
        return Ok(());
      }
      if |subItems| == 0 {
        return Err(NoSubItems(primaryName));
      }
      var subs := subItems;
      var a := new SubItem[|subs|](i requires 0 <= i < |subs| => subs[i]);
      assert a[..] == subs;
      AssignAverageSubScores(primaryScore, a);
      items := items + [Item(primaryId, primaryName, RoundToTwo(primaryScore), a[..])];
      totalScore := totalScore + primaryScore;
      subItems := [];
      InitItems(groups, number);
      r := Ok(());
    }

    /** Closes the current item and opens the row's. */
    method Open(row: Row, ghost groups: seq<Group>) returns (r: Result<(), RubricError>)
      requires Holds(groups) && row.name != ""
      modifies this
      ensures match PrimaryScore(row.score, number)
              case Err(e) => r == Err(e)
              case Ok(score) =>
                && r == Ok(()) && items == ItemsOf(groups, number) && totalScore == TotalOf(groups, number)
                && primaryId == |groups| + 1 && primaryName == row.name && primaryScore == score && subItems == []
    {
      var flushed := FlushCurrent(groups);
      if flushed.Err? {
        return flushed;
      }
      var score := PrimaryScore(row.score, number);
      if score.Err? {
        return Err(score.error);
      }
      primaryId := primaryId + 1;
      primaryName, primaryScore, subItems := row.name, score.value, [];
      r := Ok(());
    }

    method Add(row: Row, line: nat) returns (r: Result<(), RubricError>)
      modifies this`subItems
      ensures match RestProblem(row, line, number)
              case Some(e) => r == Err(e)
              case None =>
                && r == Ok(())
                && subItems == old(subItems) + [SubItemOf(primaryId, |old(subItems)| + 1, row, number)]
    {
      if row.subContent == "" || row.standard == "" || row.rule == "" {
        return Err(MissingColumns(line));
      }
      var subScore := OptionalSubScore(row.subScore, number);
      if subScore.Err? {
        return Err(subScore.error);
      }
      var place: nat := |subItems| + 1;
      subItems := subItems + [SubItem(
        (primaryId, place), row.subContent, subScore.value, row.standard, row.rule,
        if row.remark == "" then None else Some(row.remark))];
      r := Ok(());
    }

    method Take(row: Row, line: nat, ghost groups: seq<Group>) returns (r: Result<(), RubricError>)
      requires Holds(groups) && !Blank(row)
      modifies this
      ensures match Problem(row, groups != [], line, number)
              case Some(e) => r == Err(e)
              case None => r == Ok(()) && Holds(Extend(groups, row))
    {
      hide ItemsOf, TotalOf, SubItemsOf, SubItemOf, PrimaryScore, RestProblem, Blank;
      if row.name != "" {
        var begun := Open(row, groups);
        if begun.Err? {
          return begun;
        }
      } else if primaryName == "" {
        return Err(SubItemBeforePrimary(line));
      }
      r := Add(row, line);
      ghost var next := Extend(groups, row);
      ghost var n := |next| - 1;
      assert next[..n] == if row.name != "" then groups else groups[..n];
      OneRowMore(n + 1, if row.name != "" then [] else groups[n], row, number);
      assert next[n] == (if row.name != "" then [] else groups[n]) + [row];
    }
  }

  const PRIMARY_NAME := "一级指标"
  const PRIMARY_SCORE := "一级指标分值"
  const SUB_CONTENT := "二级指标"
  const SUB_SCORE := "二级指标分值"
  const ANNOTATION := "评分标注"
  const FULL_SCORE := "满分标准"
  const DEDUCTION := "扣分事项"
  const REMARK := "备注"

  predicate HeaderIsRight(first: seq<string>, second: seq<string>) {
    && CellAt(first, 0) == PRIMARY_NAME && CellAt(first, 1) == PRIMARY_SCORE && CellAt(first, 2) == SUB_CONTENT
    && CellAt(first, 3) == SUB_SCORE && CellAt(first, 4) == ANNOTATION
    && CellAt(second, 4) == FULL_SCORE && CellAt(second, 5) == DEDUCTION && CellAt(second, 6) == REMARK
  }

  /** The rows below the two header rows. */
  function DataRows(sheet: seq<seq<string>>): (rows: seq<Row>)
    requires |sheet| >= 2
    ensures |rows| == |sheet| - 2
  {
    seq(|sheet| - 2, i requires 0 <= i < |sheet| - 2 => ReadRow(sheet[i + 2]))
  }

  // ---- What the sheet says, cell by cell

  predicate BlankCells(cells: seq<string>) { forall c :: 0 <= c < 7 ==> CellAt(cells, c) == "" }

  /** A filled row's number of points in a cell that may be left empty. */
  function PointsIn(cell: string, number: Number): real {
    if cell == "" || number(cell).None? then 0.0 else number(cell).value
  }

  /** What the reader has against a filled row, by its cells; `begun` when an item has begun before, `line` its line. Of
      several complaints only the first is made. */
  predicate Complaint(cells: seq<string>, begun: bool, line: nat, number: Number, e: RubricError) {
    var name, points, sub := CellAt(cells, 0), CellAt(cells, 1), CellAt(cells, 3);
    var named := name != "" && points != "" && number(points).Some? && number(points).value > 0.0;
    var incomplete := CellAt(cells, 2) == "" || CellAt(cells, 4) == "" || CellAt(cells, 5) == "";
    match e
    case MissingPrimaryScore => name != "" && points == ""
    case InvalidPrimaryScore(raw) => name != "" && points != "" && raw == points && number(points).None?
    case NonPositiveScore => name != "" && points != "" && number(points).Some? && number(points).value <= 0.0
    case SubItemBeforePrimary(at) => name == "" && !begun && at == line
    case MissingColumns(at) => (named || (name == "" && begun)) && incomplete && at == line
    case InvalidSubScore(raw) =>
      (named || (name == "" && begun)) && !incomplete && sub != "" && raw == sub && number(sub).None?
    case NegativeSubScore =>
      (named || (name == "" && begun)) && !incomplete && sub != "" && number(sub).Some? && number(sub).value < 0.0
    case _ => false
  }

  lemma ProblemIff(cells: seq<string>, begun: bool, line: nat, number: Number, e: RubricError)
    ensures Problem(ReadRow(cells), begun, line, number) == Some(e) <==> Complaint(cells, begun, line, number, e)
  {
    hide CellAt;
  }

  lemma BlankIff(cells: seq<string>)
    ensures Blank(ReadRow(cells)) <==> BlankCells(cells)
  {
    hide CellAt;
  }

  /** The sheet's row is filled and complained about. */
  ghost predicate Fails(sheet: seq<seq<string>>, i: nat, number: Number, e: RubricError) {
    && 2 <= i < |sheet| && !BlankCells(sheet[i])
    && Complaint(sheet[i], exists k :: 2 <= k < i && CellAt(sheet[k], 0) != "", i + 1, number, e)
  }

  ghost predicate FirstFailure(sheet: seq<seq<string>>, i: nat, number: Number, e: RubricError) {
    Fails(sheet, i, number, e) && forall k: nat, f: RubricError :: k < i ==> !Fails(sheet, k, number, f)
  }

  lemma StartedIff(sheet: seq<seq<string>>, n: nat)
    requires 2 <= n <= |sheet|
    ensures Started(DataRows(sheet)[..n - 2]) <==> exists k :: 2 <= k < n && CellAt(sheet[k], 0) != ""
  {
    hide CellAt;
    var rows := DataRows(sheet);
    if k :| 2 <= k < n && CellAt(sheet[k], 0) != "" {
      assert rows[..n - 2][k - 2].name != "";
    }
    if Started(rows[..n - 2]) {
      var i :| 0 <= i < n - 2 && rows[..n - 2][i].name != "";
      assert CellAt(sheet[i + 2], 0) != "";
    }
  }

  lemma RowFailsIff(sheet: seq<seq<string>>, n: nat, number: Number, e: RubricError)
    requires 2 <= n < |sheet|
    ensures Fails(sheet, n, number, e) <==>
              !Blank(DataRows(sheet)[n - 2]) &&
              Problem(DataRows(sheet)[n - 2], Started(DataRows(sheet)[..n - 2]), n + 1, number) == Some(e)
  {
    hide CellAt, Blank, BlankCells, Problem, Complaint, ReadRow, Started;
    StartedIff(sheet, n);
    BlankIff(sheet[n]);
    ProblemIff(sheet[n], exists k :: 2 <= k < n && CellAt(sheet[k], 0) != "", n + 1, number, e);
  }

  /** Nobody has complained about the rows above the n-th, or the first complaint about them is this. */
  ghost predicate SoFar(sheet: seq<seq<string>>, n: nat, number: Number, problem: Option<RubricError>) {
    match problem
    case None => forall i: nat, e: RubricError :: i < n ==> !Fails(sheet, i, number, e)
    case Some(e) => exists i: nat :: i < n && FirstFailure(sheet, i, number, e)
  }

  lemma SoFarNext(sheet: seq<seq<string>>, n: nat, number: Number, problem: Option<RubricError>)
    requires SoFar(sheet, n, number, None)
    requires forall e :: Fails(sheet, n, number, e) <==> problem == Some(e)
    ensures SoFar(sheet, n + 1, number, problem)
  {
    hide Fails;
    match problem {
      case None =>
        forall i: nat, e: RubricError | i < n + 1 ensures !Fails(sheet, i, number, e) {
          assert i < n || i == n;
        }
      case Some(e) =>
        assert Fails(sheet, n, number, e);
        assert FirstFailure(sheet, n, number, e);
    }
  }

  lemma SoFarStays(sheet: seq<seq<string>>, n: nat, number: Number, e: RubricError)
    requires SoFar(sheet, n, number, Some(e))
    ensures SoFar(sheet, n + 1, number, Some(e))
  {
    hide FirstFailure;
  }

  lemma FirstProblemNext(rows: seq<Row>, n: nat, number: Number)
    requires n < |rows|
    ensures FirstProblem(rows[..n + 1], number) ==
              if FirstProblem(rows[..n], number).Some? then FirstProblem(rows[..n], number)
              else if Blank(rows[n]) then None else Problem(rows[n], Started(rows[..n]), n + 3, number)
  {
    hide Blank, Problem, Started;
    assert rows[..n + 1][..n] == rows[..n];
  }

  /** The first problem is the complaint about the first row that has one. */
  lemma {:induction false} FirstProblemIs(sheet: seq<seq<string>>, n: nat, number: Number)
    requires 2 <= n <= |sheet|
    ensures SoFar(sheet, n, number, FirstProblem(DataRows(sheet)[..n - 2], number))
    decreases n
  {
    if n == 2 {
      hide CellAt, Fails;
      forall i: nat, e: RubricError | i < n ensures !Fails(sheet, i, number, e) {
        TooEarly(sheet, i, number, e);
      }
    } else {
      hide *;
      var rows := DataRows(sheet);
      FirstProblemIs(sheet, n - 1, number);
      FirstProblemNext(rows, n - 3, number);
      forall e: RubricError
        ensures Fails(sheet, n - 1, number, e) <==>
                  (if Blank(rows[n - 3]) then None else Problem(rows[n - 3], Started(rows[..n - 3]), n, number)) == Some(e)
      {
        RowFailsIff(sheet, n - 1, number, e);
      }
      if FirstProblem(rows[..n - 3], number).Some? {
        SoFarStays(sheet, n - 1, number, FirstProblem(rows[..n - 3], number).value);
      } else {
        SoFarNext(sheet, n - 1, number, FirstProblem(rows[..n - 2], number));
      }
    }
  }

  lemma TooEarly(sheet: seq<seq<string>>, i: nat, number: Number, e: RubricError)
    requires i < 2
    ensures !Fails(sheet, i, number, e)
  {
  }

  /** A sub item says what its row's cells say, and is numbered by its item and its place in it. */
  predicate SubReads(k: nat, j: nat, sub: SubItem, cells: seq<string>) {
    && sub.id == (k, j) && sub.requirement == CellAt(cells, 2) && sub.fullScoreStandard == CellAt(cells, 4)
    && sub.deductionItems == CellAt(cells, 5)
    && sub.dangerousOperation == if CellAt(cells, 6) == "" then None else Some(CellAt(cells, 6))
  }

  /** The sub scores are the written ones if any is positive; otherwise all are the rounded average but the last, which
      is the rounded rest. */
  ghost predicate SubScoresRead(points: real, subs: seq<SubItem>, rows: seq<seq<string>>, number: Number)
    requires |rows| == |subs| > 0
  {
    if exists j :: 0 <= j < |rows| && PointsIn(CellAt(rows[j], 3), number) > 0.0 then
      forall j :: 0 <= j < |rows| ==> subs[j].score == PointsIn(CellAt(rows[j], 3), number)
    else
      && (forall j :: 0 <= j < |rows| - 1 ==> subs[j].score == Average(points, |rows|))
      && subs[|rows| - 1].score == RoundToTwo(Remainder(points, |rows|))
  }

  /** An item is its rows, the first of which alone is named: name and score are the first row's. */
  ghost predicate ItemReads(k: nat, item: Item, rows: seq<seq<string>>, number: Number) {
    && |rows| == |item.subItems| > 0 && item.id == k
    && item.name == CellAt(rows[0], 0) && item.name != ""
    && (forall j :: 0 < j < |rows| ==> CellAt(rows[j], 0) == "")
    && PointsIn(CellAt(rows[0], 1), number) > 0.0
    && item.score == RoundToTwo(PointsIn(CellAt(rows[0], 1), number))
    && (forall j :: 0 <= j < |rows| ==> SubReads(k, j + 1, item.subItems[j], rows[j]))
    && SubScoresRead(PointsIn(CellAt(rows[0], 1), number), item.subItems, rows, number)
  }

  /** The points of the named rows. */
  function NamedPoints(rows: seq<seq<string>>, number: Number): real {
    if rows == [] then 0.0
    else
      var n := |rows| - 1;
      NamedPoints(rows[..n], number) + if CellAt(rows[n], 0) != "" then PointsIn(CellAt(rows[n], 1), number) else 0.0
  }

  /** The sheet's lines below the header that are not blank, from the top down. */
  ghost predicate FilledLines(sheet: seq<seq<string>>, lines: seq<nat>, n: nat)
    requires n <= |sheet|
  {
    && (forall m, l :: 0 <= m < l < |lines| ==> lines[m] < lines[l])
    && (forall i :: i in lines <==> 2 <= i < n && !BlankCells(sheet[i]))
  }

  function Picked(sheet: seq<seq<string>>, lines: seq<nat>): seq<seq<string>>
    requires forall m :: 0 <= m < |lines| ==> lines[m] < |sheet|
  {
    seq(|lines|, m requires 0 <= m < |lines| => sheet[lines[m]])
  }

  /** The template is the sheet's filled rows, cut at the named ones: each item its stretch of them, and the total the
      rounded sum of the named rows' points. */
  ghost predicate TemplateReads(sheet: seq<seq<string>>, number: Number, t: Template, lines: seq<nat>) {
    && FilledLines(sheet, lines, |sheet|) && (forall m :: 0 <= m < |lines| ==> lines[m] < |sheet|)
    && |AllSubItems(t.items)| == |lines| > 0
    && t.totalScore == Round(NamedPoints(Picked(sheet, lines), number))
    && forall k :: 0 <= k < |t.items| ==> StretchReads(k, t.items, Picked(sheet, lines), number)
  }

  ghost predicate StretchReads(k: nat, items: seq<Item>, rows: seq<seq<string>>, number: Number)
    requires k < |items|
  {
    var from := |AllSubItems(items[..k])|;
    var to := from + |items[k].subItems|;
    to <= |rows| && ItemReads(k + 1, items[k], rows[from..to], number)
  }

  // ---- That the reader's template is that

  function ReadAll(rows: seq<seq<string>>): seq<Row> { seq(|rows|, m requires 0 <= m < |rows| => ReadRow(rows[m])) }

  lemma NextLine(sheet: seq<seq<string>>, init: seq<nat>, n: nat)
    requires 2 <= n < |sheet| && FilledLines(sheet, init, n)
    ensures FilledLines(sheet, if BlankCells(sheet[n]) then init else init + [n], n + 1)
  {
    hide BlankCells;
    var lines := if BlankCells(sheet[n]) then init else init + [n];
    forall i ensures i in lines <==> 2 <= i < n + 1 && !BlankCells(sheet[i]) {
      assert i in lines <==> i in init || (!BlankCells(sheet[n]) && i == n);
    }
    forall m, l | 0 <= m < l < |lines| ensures lines[m] < lines[l] {
      assert init[m] in init;
    }
  }

  lemma PickOneMore(sheet: seq<seq<string>>, init: seq<nat>, n: nat)
    requires n < |sheet| && forall m :: 0 <= m < |init| ==> init[m] < n
    ensures ReadAll(Picked(sheet, init + [n])) == ReadAll(Picked(sheet, init)) + [ReadRow(sheet[n])]
  {
    hide ReadRow;
  }

  lemma InRange(sheet: seq<seq<string>>, lines: seq<nat>, n: nat)
    requires n <= |sheet| && FilledLines(sheet, lines, n)
    ensures forall m :: 0 <= m < |lines| ==> lines[m] < n
  {
    hide BlankCells;
    forall m | 0 <= m < |lines| ensures lines[m] < n {
      assert lines[m] in lines;
    }
  }

  lemma FilledNext(sheet: seq<seq<string>>, n: nat)
    requires 2 <= n < |sheet|
    ensures Filled(DataRows(sheet)[..n - 1]) ==
              Filled(DataRows(sheet)[..n - 2]) + if BlankCells(sheet[n]) then [] else [ReadRow(sheet[n])]
  {
    BlankIff(sheet[n]);
    hide CellAt, ReadRow, Blank, BlankCells;
    assert DataRows(sheet)[..n - 1][..n - 2] == DataRows(sheet)[..n - 2];
  }

  lemma {:induction false} LinesOf(sheet: seq<seq<string>>, n: nat) returns (lines: seq<nat>)
    requires 2 <= n <= |sheet|
    ensures FilledLines(sheet, lines, n) && forall m :: 0 <= m < |lines| ==> lines[m] < |sheet|
    ensures Filled(DataRows(sheet)[..n - 2]) == ReadAll(Picked(sheet, lines))
    decreases n
  {
    if n == 2 {
      hide CellAt, ReadRow, Blank, BlankCells;
      lines := [];
    } else {
      hide *;
      var init := LinesOf(sheet, n - 1);
      FilledNext(sheet, n - 1);
      NextLine(sheet, init, n - 1);
      InRange(sheet, init, n - 1);
      lines := if BlankCells(sheet[n - 1]) then init else init + [n - 1];
      if !BlankCells(sheet[n - 1]) {
        PickOneMore(sheet, init, n - 1);
      }
    }
  }

  /** A row that nobody complains about. */
  predicate Clean(cells: seq<string>, number: Number) {
    && (CellAt(cells, 0) != "" ==> PointsIn(CellAt(cells, 1), number) > 0.0)
    && (CellAt(cells, 3) == "" || (number(CellAt(cells, 3)).Some? && number(CellAt(cells, 3)).value >= 0.0))
  }

  lemma NoComplaint(cells: seq<string>, begun: bool, line: nat, number: Number)
    requires forall e :: !Complaint(cells, begun, line, number, e)
    ensures Clean(cells, number)
  {
    hide CellAt;
    assert !Complaint(cells, begun, line, number, MissingPrimaryScore);
    assert !Complaint(cells, begun, line, number, InvalidPrimaryScore(CellAt(cells, 1)));
    assert !Complaint(cells, begun, line, number, NonPositiveScore);
    assert !Complaint(cells, begun, line, number, SubItemBeforePrimary(line));
    assert !Complaint(cells, begun, line, number, MissingColumns(line));
    assert !Complaint(cells, begun, line, number, InvalidSubScore(CellAt(cells, 3)));
    assert !Complaint(cells, begun, line, number, NegativeSubScore);
  }

  lemma CleanScores(cells: seq<string>, number: Number)
    requires Clean(cells, number)
    ensures ValueOr0(OptionalSubScore(ReadRow(cells).subScore, number)) == PointsIn(CellAt(cells, 3), number)
    ensures CellAt(cells, 0) != "" ==>
              ValueOr0(PrimaryScore(ReadRow(cells).score, number)) == PointsIn(CellAt(cells, 1), number)
  {
    hide CellAt;
  }

  lemma WrittenScores(k: nat, g: Group, rows: seq<seq<string>>, number: Number)
    requires g == ReadAll(rows) && forall m :: 0 <= m < |rows| ==> Clean(rows[m], number)
    ensures forall j :: 0 <= j < |rows| ==> SubItemsOf(k, g, number)[j].score == PointsIn(CellAt(rows[j], 3), number)
  {
    hide CellAt, PointsIn, Clean, OptionalSubScore;
    forall j | 0 <= j < |rows| ensures SubItemsOf(k, g, number)[j].score == PointsIn(CellAt(rows[j], 3), number) {
      CleanScores(rows[j], number);
    }
  }

  lemma SharesRead(points: real, subs: seq<SubItem>, rows: seq<seq<string>>, number: Number)
    requires |subs| == |rows| > 0
    requires forall j :: 0 <= j < |rows| ==> subs[j].score == PointsIn(CellAt(rows[j], 3), number)
    ensures SubScoresRead(points, WithShares(points, subs), rows, number)
  {
    hide CellAt, PointsIn, RoundToTwo, Average, Remainder;
    if j :| 0 <= j < |rows| && PointsIn(CellAt(rows[j], 3), number) > 0.0 {
      assert subs[j].score > 0.0;
    }
  }

  lemma CellsRead(k: nat, g: Group, rows: seq<seq<string>>, number: Number, j: nat)
    requires g == ReadAll(rows) && j < |rows|
    ensures SubReads(k, j + 1, ItemOf(k, g, number).subItems[j], rows[j])
  {
    hide CellAt, RoundToTwo, Share, OptionalSubScore, PrimaryScore;
  }

  lemma HeadReads(k: nat, g: Group, rows: seq<seq<string>>, number: Number)
    requires IsGroup(g) && g == ReadAll(rows) && Clean(rows[0], number)
    ensures ScoreOf(g, number) == PointsIn(CellAt(rows[0], 1), number) > 0.0
    ensures NameOf(g) == CellAt(rows[0], 0) != "" && forall j :: 0 < j < |rows| ==> CellAt(rows[j], 0) == ""
  {
    hide CellAt, PointsIn, PrimaryScore;
    assert g[0] == ReadRow(rows[0]);
    CleanScores(rows[0], number);
    FirstIsPositive(rows[0], number);
    forall j | 0 < j < |rows| ensures CellAt(rows[j], 0) == "" {
      assert g[j] == ReadRow(rows[j]);
    }
  }

  lemma GroupReads(k: nat, g: Group, rows: seq<seq<string>>, number: Number)
    requires IsGroup(g) && g == ReadAll(rows) && forall m :: 0 <= m < |rows| ==> Clean(rows[m], number)
    ensures ItemReads(k, ItemOf(k, g, number), rows, number)
  {
    hide CellAt, RoundToTwo, PointsIn, Clean, SubReads, SubScoresRead, WithShares, ScoreOf, NameOf, SubItemsOf;
    HeadReads(k, g, rows, number);
    WrittenScores(k, g, rows, number);
    SharesRead(ScoreOf(g, number), SubItemsOf(k, g, number), rows, number);
    forall j | 0 <= j < |rows| ensures SubReads(k, j + 1, ItemOf(k, g, number).subItems[j], rows[j]) {
      CellsRead(k, g, rows, number, j);
    }
  }

  lemma FirstIsPositive(cells: seq<string>, number: Number)
    requires Clean(cells, number)
    ensures CellAt(cells, 0) != "" ==> PointsIn(CellAt(cells, 1), number) > 0.0
  {
  }

  lemma {:induction false} GroupPlace(groups: seq<Group>, k: nat)
    requires k < |groups|
    ensures
      var from := |Flat(groups[..k])|;
      from + |groups[k]| <= |Flat(groups)| && Flat(groups)[from..from + |groups[k]|] == groups[k]
    decreases |groups|
  {
    var n := |groups| - 1;
    if k < n {
      GroupPlace(groups[..n], k);
      assert groups[..n][..k] == groups[..k];
    }
  }

  lemma {:induction false} SizesAgree(groups: seq<Group>, number: Number)
    requires forall k :: 0 <= k < |groups| ==> IsGroup(groups[k])
    ensures |AllSubItems(ItemsOf(groups, number))| == |Flat(groups)|
    decreases |groups|
  {
    if groups != [] {
      var n := |groups| - 1;
      SizesAgree(groups[..n], number);
      assert ItemsOf(groups, number)[..n] == ItemsOf(groups[..n], number);
      SizeOfItem(n + 1, groups[n], number);
    }
  }

  lemma {:induction false} TotalIsNamedPoints(groups: seq<Group>, rows: seq<seq<string>>, number: Number)
    requires (forall k :: 0 <= k < |groups| ==> IsGroup(groups[k])) && Flat(groups) == ReadAll(rows)
    requires forall m :: 0 <= m < |rows| ==> Clean(rows[m], number)
    ensures TotalOf(groups, number) == NamedPoints(rows, number)
    decreases |groups|
  {
    hide CellAt, PointsIn, Clean, PrimaryScore;
    if groups != [] {
      var n, g := |groups| - 1, groups[|groups| - 1];
      var from := |rows| - |g|;
      assert Flat(groups[..n]) == Flat(groups)[..from] == ReadAll(rows[..from]);
      TotalIsNamedPoints(groups[..n], rows[..from], number);
      CleanScores(rows[from], number);
      assert g[0] == Flat(groups)[from] == ReadRow(rows[from]);
      assert rows[..from + 1][..from] == rows[..from];
      forall m | from < m < |rows| ensures CellAt(rows[m], 0) == "" {
        assert g[m - from] == Flat(groups)[m] == ReadRow(rows[m]);
      }
      UnnamedAddNothing(rows, from + 1, number);
    }
  }

  lemma {:induction false} UnnamedAddNothing(rows: seq<seq<string>>, n: nat, number: Number)
    requires n <= |rows| && forall m :: n <= m < |rows| ==> CellAt(rows[m], 0) == ""
    ensures NamedPoints(rows, number) == NamedPoints(rows[..n], number)
    decreases |rows|
  {
    hide CellAt, PointsIn;
    if n < |rows| {
      UnnamedAddNothing(rows[..|rows| - 1], n, number);
      assert rows[..|rows| - 1][..n] == rows[..n];
    } else {
      assert rows[..n] == rows;
    }
  }

  lemma ReadAllSlice(rows: seq<seq<string>>, from: nat, to: nat)
    requires from <= to <= |rows|
    ensures ReadAll(rows)[from..to] == ReadAll(rows[from..to])
  {
    hide ReadRow;
  }

  lemma FirstItems(groups: seq<Group>, k: nat, number: Number)
    requires k < |groups|
    ensures ItemsOf(groups, number)[..k] == ItemsOf(groups[..k], number)
    ensures ItemsOf(groups, number)[k] == ItemOf(k + 1, groups[k], number)
  {
    hide ItemOf;
  }

  lemma NotEmpty(g: Group)
    requires IsGroup(g)
    ensures g != []
  {
  }

  lemma StretchOf(k: nat, groups: seq<Group>, rows: seq<seq<string>>, number: Number)
    requires (forall i :: 0 <= i < |groups| ==> IsGroup(groups[i])) && Flat(groups) == ReadAll(rows) && k < |groups|
    requires forall m :: 0 <= m < |rows| ==> Clean(rows[m], number)
    ensures StretchReads(k, ItemsOf(groups, number), rows, number)
  {
    hide *;
    var items, from := ItemsOf(groups, number), |Flat(groups[..k])|;
    StretchGroup(k, groups, rows, number);
    StretchSizes(k, groups, number);
    Stretch(k, items, rows, number, from, from + |groups[k]|);
  }

  lemma StretchSizes(k: nat, groups: seq<Group>, number: Number)
    requires (forall i :: 0 <= i < |groups| ==> IsGroup(groups[i])) && k < |groups|
    ensures |AllSubItems(ItemsOf(groups, number)[..k])| == |Flat(groups[..k])|
    ensures |ItemsOf(groups, number)[k].subItems| == |groups[k]|
  {
    hide ItemOf, IsGroup, AllSubItems, Flat;
    FirstItems(groups, k, number);
    SizesAgree(groups[..k], number);
    assert IsGroup(groups[k]);
    NotEmpty(groups[k]);
    SizeOfItem(k + 1, groups[k], number);
  }

  lemma Stretch(k: nat, items: seq<Item>, rows: seq<seq<string>>, number: Number, from: nat, to: nat)
    requires k < |items| && from == |AllSubItems(items[..k])| && to == from + |items[k].subItems| <= |rows|
    requires ItemReads(k + 1, items[k], rows[from..to], number)
    ensures StretchReads(k, items, rows, number)
  {
    hide ItemReads, AllSubItems;
  }

  lemma StretchGroup(k: nat, groups: seq<Group>, rows: seq<seq<string>>, number: Number)
    requires (forall i :: 0 <= i < |groups| ==> IsGroup(groups[i])) && Flat(groups) == ReadAll(rows) && k < |groups|
    requires forall m :: 0 <= m < |rows| ==> Clean(rows[m], number)
    ensures
      var from := |Flat(groups[..k])|;
      var to := from + |groups[k]|;
      to <= |rows| && ItemReads(k + 1, ItemsOf(groups, number)[k], rows[from..to], number)
  {
    hide ItemReads, ItemOf, Clean, ReadRow, Flat, IsGroup;
    var from := |Flat(groups[..k])|;
    var to := from + |groups[k]|;
    GroupPlace(groups, k);
    FirstItems(groups, k, number);
    ReadAllSlice(rows, from, to);
    assert IsGroup(groups[k]);
    GroupReads(k + 1, groups[k], rows[from..to], number);
  }

  /** When no row is complained about, what the groups make is what the cells say. */
  lemma TemplateIsRead(sheet: seq<seq<string>>, number: Number, groups: seq<Group>)
    requires |sheet| >= 2 && (forall i: nat, e: RubricError :: !Fails(sheet, i, number, e))
    requires Groups(groups, Filled(DataRows(sheet))) && groups != []
    ensures exists lines ::
              TemplateReads(sheet, number, Template(Round(TotalOf(groups, number)), ItemsOf(groups, number)), lines)
  {
    hide CellAt, Clean, ItemReads, StretchReads, BlankCells, ReadRow, Fails, Complaint;
    var lines := LinesOf(sheet, |sheet|);
    assert DataRows(sheet)[..|sheet| - 2] == DataRows(sheet);
    var rows := Picked(sheet, lines);
    forall m | 0 <= m < |rows| ensures Clean(rows[m], number) {
      assert lines[m] in lines;
      FilledIsClean(sheet, lines[m], number);
    }
    TotalIsNamedPoints(groups, rows, number);
    SizesAgree(groups, number);
    NoRowsNoGroups(groups);
    var t := Template(Round(TotalOf(groups, number)), ItemsOf(groups, number));
    forall k | 0 <= k < |t.items| ensures StretchReads(k, t.items, rows, number) {
      StretchOf(k, groups, rows, number);
    }
    assert TemplateReads(sheet, number, t, lines);
  }

  lemma FilledIsClean(sheet: seq<seq<string>>, i: nat, number: Number)
    requires 2 <= i < |sheet| && !BlankCells(sheet[i]) && forall e: RubricError :: !Fails(sheet, i, number, e)
    ensures Clean(sheet[i], number)
  {
    hide CellAt, Clean, BlankCells, Complaint;
    var begun, line := exists k :: 2 <= k < i && CellAt(sheet[k], 0) != "", i + 1;
    forall e ensures !Complaint(sheet[i], begun, line, number, e) {
      assert !Fails(sheet, i, number, e);
    }
    NoComplaint(sheet[i], begun, line, number);
  }

  /** Reads the rows below the header until one has a problem. */
  method ReadRows(sheet: seq<seq<string>>, reader: Reader)
    returns (r: Result<(), RubricError>, ghost groups: seq<Group>)
    requires |sheet| >= 3 && reader.Holds([])
    modifies reader
    ensures match FirstProblem(DataRows(sheet), reader.number)
            case Some(e) => r == Err(e)
            case None => r == Ok(()) && reader.Holds(groups) && Groups(groups, Filled(DataRows(sheet)))
  {
    hide ReadRow, FirstProblem, Filled, Started, Problem, Blank, Groups;
    ghost var rows := DataRows(sheet);
    groups := [];
    NothingRead(rows, reader.number);
    var index := 2;
    while index < |sheet|
      invariant 2 <= index <= |sheet|
      invariant FirstProblem(rows[..index - 2], reader.number) == None
      invariant Groups(groups, Filled(rows[..index - 2]))
      invariant Started(rows[..index - 2]) <==> groups != []
      invariant reader.Holds(groups)
    {
      var row := ReadRow(sheet[index]);
      ghost var i := index - 2;
      NextRow(rows, i, reader.number);
      ProblemUnlessStarted(row, groups != [], index + 1, reader.number);
      assert Filled(rows[..i]) + [] == Filled(rows[..i]);
      if !Blank(row) {
        var taken := reader.Take(row, index + 1, groups);
        if taken.Err? {
          FirstProblemStays(rows, i + 1, reader.number);
          r := Err(taken.error);
          return;
        }
        ExtendGroups(groups, Filled(rows[..i]), row);
        groups := Extend(groups, row);
      }
      index := index + 1;
    }
    assert rows[..|rows|] == rows;
    r := Ok(());
  }

  /** What a sheet with the right header gives: the first complaint, or the template that its cells say. */
  ghost predicate Gives(sheet: seq<seq<string>>, number: Number, r: Result<Template, RubricError>) {
    if exists i: nat, e: RubricError :: Fails(sheet, i, number, e) then
      r.Err? && exists i: nat :: FirstFailure(sheet, i, number, r.error)
    else if forall i :: 2 <= i < |sheet| ==> BlankCells(sheet[i]) then r == Err(NoItems)
    else r.Ok? && exists lines :: TemplateReads(sheet, number, r.value, lines)
  }

  lemma NothingFilled(sheet: seq<seq<string>>)
    requires |sheet| >= 2
    ensures Filled(DataRows(sheet)) == [] <==> forall i :: 2 <= i < |sheet| ==> BlankCells(sheet[i])
  {
    hide CellAt, ReadRow, BlankCells, Filled, Blank;
    var lines := LinesOf(sheet, |sheet|);
    assert DataRows(sheet)[..|sheet| - 2] == DataRows(sheet);
    if lines != [] {
      assert lines[0] in lines;
    }
  }

  lemma ParsedGives(sheet: seq<seq<string>>, number: Number, groups: seq<Group>, r: Result<Template, RubricError>)
    requires |sheet| >= 3
    requires match FirstProblem(DataRows(sheet), number)
             case Some(e) => r == Err(e)
             case None =>
               if Filled(DataRows(sheet)) == [] then r == Err(NoItems)
               else
                 && Groups(groups, Filled(DataRows(sheet)))
                 && r == Ok(Template(Round(TotalOf(groups, number)), ItemsOf(groups, number)))
    ensures Gives(sheet, number, r)
  {
    AllRows(sheet);
    FirstProblemIs(sheet, |sheet|, number);
    NothingFilled(sheet);
    hide *;
    match FirstProblem(DataRows(sheet), number) {
      case Some(e) => FailureGives(sheet, number, e);
      case None =>
        NoneFails(sheet, number);
        if Filled(DataRows(sheet)) == [] {
          EmptyGives(sheet, number);
        } else {
          FlatOfGroups(groups, Filled(DataRows(sheet)));
          TemplateIsRead(sheet, number, groups);
          TemplateGives(sheet, number, r.value);
        }
    }
  }

  lemma AllRows(sheet: seq<seq<string>>)
    requires |sheet| >= 2
    ensures DataRows(sheet)[..|sheet| - 2] == DataRows(sheet)
  {
  }

  lemma FlatOfGroups(groups: seq<Group>, rows: seq<Row>)
    requires Groups(groups, rows) && rows != []
    ensures groups != []
  {
    NoRowsNoGroups(groups);
  }

  lemma FailureGives(sheet: seq<seq<string>>, number: Number, e: RubricError)
    requires SoFar(sheet, |sheet|, number, Some(e))
    ensures Gives(sheet, number, Err(e))
  {
    hide Fails, BlankCells, TemplateReads;
    var i: nat :| i < |sheet| && FirstFailure(sheet, i, number, e);
    assert Fails(sheet, i, number, e);
  }

  lemma EmptyGives(sheet: seq<seq<string>>, number: Number)
    requires forall i: nat, e: RubricError :: !Fails(sheet, i, number, e)
    requires forall i :: 2 <= i < |sheet| ==> BlankCells(sheet[i])
    ensures Gives(sheet, number, Err(NoItems))
  {
    hide Fails, BlankCells, TemplateReads;
  }

  lemma TemplateGives(sheet: seq<seq<string>>, number: Number, t: Template)
    requires forall i: nat, e: RubricError :: !Fails(sheet, i, number, e)
    requires !(forall i :: 2 <= i < |sheet| ==> BlankCells(sheet[i]))
    requires exists lines :: TemplateReads(sheet, number, t, lines)
    ensures Gives(sheet, number, Ok(t))
  {
    hide Fails, BlankCells, TemplateReads;
  }

  lemma NoneFails(sheet: seq<seq<string>>, number: Number)
    requires SoFar(sheet, |sheet|, number, None)
    ensures forall i: nat, e: RubricError :: !Fails(sheet, i, number, e)
  {
    hide Fails;
    forall i: nat, e: RubricError ensures !Fails(sheet, i, number, e) {
      if i >= |sheet| {
        PastTheEnd(sheet, i, number, e);
      }
    }
  }

  lemma PastTheEnd(sheet: seq<seq<string>>, i: nat, number: Number, e: RubricError)
    requires i >= |sheet|
    ensures !Fails(sheet, i, number, e)
  {
  }

  /** The sheet's rows cut into groups, and from them the template; or the first problem met. */
  method ParseRubricTemplate(sheet: seq<seq<string>>, number: Number)
    returns (r: Result<Template, RubricError>, ghost groups: seq<Group>)
    ensures |sheet| < 3 ==> r == Err(NoRows)
    ensures |sheet| >= 3 && !HeaderIsRight(sheet[0], sheet[1]) ==> r == Err(UnexpectedHeader)
    ensures |sheet| >= 3 && HeaderIsRight(sheet[0], sheet[1]) ==> Gives(sheet, number, r)
    ensures |sheet| >= 3 && HeaderIsRight(sheet[0], sheet[1]) ==>
              match FirstProblem(DataRows(sheet), number)
              case Some(e) => r == Err(e)
              case None =>
                if Filled(DataRows(sheet)) == [] then r == Err(NoItems)
                else
                  && Groups(groups, Filled(DataRows(sheet)))
                  && r == Ok(Template(Round(TotalOf(groups, number)), ItemsOf(groups, number)))
  {
    groups := [];
    if |sheet| < 3 {
      r := Err(NoRows);
      return;
    }
    if !HeaderIsRight(sheet[0], sheet[1]) {
      r := Err(UnexpectedHeader);
      return;
    }
    r, groups := ParseRows(sheet, number);
    hide *;
    ParsedGives(sheet, number, groups, r);
  }

  /** The part below the header. */
  method ParseRows(sheet: seq<seq<string>>, number: Number)
    returns (r: Result<Template, RubricError>, ghost groups: seq<Group>)
    requires |sheet| >= 3
    ensures match FirstProblem(DataRows(sheet), number)
            case Some(e) => r == Err(e)
            case None =>
              if Filled(DataRows(sheet)) == [] then r == Err(NoItems)
              else
                && Groups(groups, Filled(DataRows(sheet)))
                && r == Ok(Template(Round(TotalOf(groups, number)), ItemsOf(groups, number)))
  {
    hide DataRows, FirstProblem, Filled, ItemsOf, TotalOf;
    var reader := new Reader(number);
    var read: Result<(), RubricError>;
    read, groups := ReadRows(sheet, reader);
    if read.Err? {
      r := Err(read.error);
      return;
    }
    NoRowsNoGroups(groups);
    var flushed := reader.FlushCurrent(groups);
    match flushed {
      case Err(e) =>
        r := Err(e);
        return;
      case Ok(_) =>
    }
    if |reader.items| == 0 {
      r := Err(NoItems);
      return;
    }
    r := Ok(Template(Round(reader.totalScore), reader.items));
  }

  lemma NothingRead(rows: seq<Row>, number: Number)
    ensures FirstProblem(rows[..0], number) == None && Groups([], Filled(rows[..0])) && !Started(rows[..0])
  {
  }

  lemma ProblemUnlessStarted(row: Row, started: bool, line: nat, number: Number)
    ensures Problem(row, started, line, number) == None ==> row.name != "" || started
    ensures Blank(row) ==> row.name == ""
  {
  }

  lemma NextRow(rows: seq<Row>, i: nat, number: Number)
    requires i < |rows|
    ensures Filled(rows[..i + 1]) == Filled(rows[..i]) + if Blank(rows[i]) then [] else [rows[i]]
    ensures FirstProblem(rows[..i], number) == None ==>
              FirstProblem(rows[..i + 1], number) ==
                if Blank(rows[i]) then None else Problem(rows[i], Started(rows[..i]), i + 3, number)
    ensures Started(rows[..i + 1]) <==> Started(rows[..i]) || rows[i].name != ""
  {
    var next := rows[..i + 1];
    assert next[..i] == rows[..i];
    if Started(rows[..i]) {
      var k :| 0 <= k < i && rows[..i][k].name != "";
      assert next[k].name != "";
    }
    if rows[i].name != "" {
      assert next[i].name != "";
    }
  }

  lemma {:induction false} FirstProblemStays(rows: seq<Row>, i: nat, number: Number)
    requires i <= |rows| && FirstProblem(rows[..i], number).Some?
    ensures FirstProblem(rows, number) == FirstProblem(rows[..i], number)
    decreases |rows| - i
  {
    if i == |rows| {
      assert rows[..i] == rows;
    } else {
      assert rows[..i + 1][..i] == rows[..i];
      FirstProblemStays(rows, i + 1, number);
    }
  }

  // ---- The rows and their sub items, one to one

  function AllSubItems(items: seq<Item>): seq<SubItem> {
    if items == [] then [] else AllSubItems(items[..|items| - 1]) + items[|items| - 1].subItems
  }

  /** How many rows are named. */
  function Named(rows: seq<Row>): nat {
    if rows == [] then 0 else Named(rows[..|rows| - 1]) + if rows[|rows| - 1].name != "" then 1 else 0
  }

  /** How many rows there are from the last named one on. */
  function Since(rows: seq<Row>): nat {
    if rows == [] then 0
    else if rows[|rows| - 1].name != "" then 1
    else Since(rows[..|rows| - 1]) + 1
  }

  /** A sub item that says what the last of the rows says, numbered by its primary item and its place in it. */
  predicate Tells(sub: SubItem, rows: seq<Row>)
    requires rows != []
  {
    var row := rows[|rows| - 1];
    && sub.id == (Named(rows), Since(rows))
    && sub.requirement == row.subContent && sub.fullScoreStandard == row.standard && sub.deductionItems == row.rule
    && sub.dangerousOperation == if row.remark == "" then None else Some(row.remark)
  }

  lemma {:induction false} CountInGroup(before: seq<Row>, g: Group, j: nat)
    requires IsGroup(g) && j < |g|
    ensures Named(before + g[..j + 1]) == Named(before) + 1 && Since(before + g[..j + 1]) == j + 1
    decreases j
  {
    var rows := before + g[..j + 1];
    assert rows[|rows| - 1] == g[j];
    assert rows[..|rows| - 1] == before + g[..j];
    if j == 0 {
      assert before + g[..0] == before;
    } else {
      CountInGroup(before, g, j - 1);
    }
  }

  lemma {:induction false} OneNamePerGroup(groups: seq<Group>)
    requires forall k :: 0 <= k < |groups| ==> IsGroup(groups[k])
    ensures Named(Flat(groups)) == |groups|
    decreases |groups|
  {
    if groups != [] {
      var n := |groups| - 1;
      OneNamePerGroup(groups[..n]);
      CountInGroup(Flat(groups[..n]), groups[n], |groups[n]| - 1);
      assert groups[n][..|groups[n]|] == groups[n];
    }
  }

  lemma InitItems(groups: seq<Group>, number: Number)
    requires groups != []
    ensures ItemsOf(groups, number) ==
              ItemsOf(groups[..|groups| - 1], number) + [ItemOf(|groups|, groups[|groups| - 1], number)]
  {
  }

  lemma LastGroupTells(before: seq<Row>, g: Group, k: nat, number: Number, j: nat)
    requires IsGroup(g) && j < |g| && Named(before) + 1 == k
    ensures Tells(ItemOf(k, g, number).subItems[j], before + g[..j + 1])
  {
    hide Named, Since;
    CountInGroup(before, g, j);
    var rows := before + g[..j + 1];
    assert rows[|rows| - 1] == g[j];
  }

  /** The sub items of all items, one after the other, are the rows one by one. */
  lemma {:induction false} RowsAreSubItems(groups: seq<Group>, number: Number)
    requires forall k :: 0 <= k < |groups| ==> IsGroup(groups[k])
    ensures |AllSubItems(ItemsOf(groups, number))| == |Flat(groups)|
    ensures forall m :: 0 <= m < |Flat(groups)| ==>
              Tells(AllSubItems(ItemsOf(groups, number))[m], Flat(groups)[..m + 1])
    decreases |groups|
  {
    hide Tells, ItemOf;
    if groups != [] {
      var n := |groups| - 1;
      var init, g := groups[..n], groups[n];
      var before := Flat(init);
      RowsAreSubItems(init, number);
      OneNamePerGroup(init);
      InitItems(groups, number);
      var items := ItemsOf(groups, number);
      assert items[..n] == ItemsOf(init, number);
      SizeOfItem(n + 1, g, number);
      forall m | 0 <= m < |Flat(groups)| ensures Tells(AllSubItems(items)[m], Flat(groups)[..m + 1]) {
        if m < |before| {
          assert Flat(groups)[..m + 1] == before[..m + 1];
        } else {
          LastGroupTells(before, g, n + 1, number, m - |before|);
          assert Flat(groups)[..m + 1] == before + g[..m - |before| + 1];
        }
      }
    }
  }

  lemma SizeOfItem(k: nat, g: Group, number: Number)
    requires g != []
    ensures |ItemOf(k, g, number).subItems| == |g|
  {
  }

  lemma NotLonger(rows: seq<Row>, g: Group, h: Group)
    requires IsGroup(g) && IsGroup(h) && |g| <= |rows| && |h| <= |rows|
    requires rows[|rows| - |g|..] == g && rows[|rows| - |h|..] == h
    ensures |h| <= |g|
  {
    var start := |rows| - |g|;
    assert rows[start] == g[0];
    assert forall i :: |rows| - |h| < i < |rows| ==> rows[i] == h[i - (|rows| - |h|)];
  }

  lemma NoRowsNoGroups(groups: seq<Group>)
    requires forall k :: 0 <= k < |groups| ==> IsGroup(groups[k])
    ensures Flat(groups) == [] <==> groups == []
  {
  }

  /** There is only one way to cut rows into groups. */
  lemma {:induction false} GroupsAreUnique(a: seq<Group>, b: seq<Group>, rows: seq<Row>)
    requires Groups(a, rows) && Groups(b, rows)
    ensures a == b
    decreases |rows|
  {
    if a == [] || b == [] {
      NoRowsNoGroups(a);
      NoRowsNoGroups(b);
    } else {
      var g, h := a[|a| - 1], b[|b| - 1];
      var n := |rows|;
      assert rows[n - |g|..] == g && rows[n - |h|..] == h;
      NotLonger(rows, g, h);
      NotLonger(rows, h, g);
      assert Flat(a[..|a| - 1]) == rows[..n - |g|] == Flat(b[..|b| - 1]);
      GroupsAreUnique(a[..|a| - 1], b[..|b| - 1], rows[..n - |g|]);
      assert a == a[..|a| - 1] + [g] && b == b[..|b| - 1] + [h];
    }
  }

  /** An item whose sub items have no scores of their own is worth what they add up to; half a cent and a
      negative last share together are the only exception. */
  lemma ItemAddsUpIff(k: nat, g: Group, number: Number)
    requires g != [] && ScoreOf(g, number) > 0.0 && !HasExplicit(SubItemsOf(k, g, number))
    ensures Sum(ItemOf(k, g, number).subItems) == ItemOf(k, g, number).score <==>
              !(HalfCent(ScoreOf(g, number)) && Remainder(ScoreOf(g, number), |g|) < 0.0)
  {
    SharesAddUpIff(ScoreOf(g, number), SubItemsOf(k, g, number));
  }
}
