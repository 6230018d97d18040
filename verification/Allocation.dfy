/**
 Who reviews which video: building an assignment for selected videos, in turn or as specified, and
 spreading pending videos anew after a shuffle, in turn or by quota. Ids are opaque; NIL is the nil id.
 */
module Allocation {
  import opened Wrappers

  type Id = nat

  const NIL: Id := 0

  type Plan = map<Id, Id>

  datatype Error =
    | TaskNotFound | VideoIdsRequired | ScorerIdsRequired | VideoNotFound | ScorerNotFound
    | SpecificRequired | SpecificInvalid | StrategyRequired | StrategyInvalid
    | ModeRequired | ModeInvalid | DivisionByZero | CountRequired | CountInvalid | CountMismatch

  predicate Distinct(ids: seq<Id>) { forall i, j :: 0 <= i < j < |ids| ==> ids[i] != ids[j] }

  // ---- Unique ids, in order of first occurrence

  function Uniques(ids: seq<Id>): (r: seq<Id>)
    ensures Distinct(r)
    ensures forall id :: id in r <==> id in ids && id != NIL
    ensures |r| <= |ids|
  {
    if ids == [] then []
    else
      var last, before := ids[|ids| - 1], Uniques(ids[..|ids| - 1]);
      assert ids == ids[..|ids| - 1] + [last];
      if last == NIL || last in before then before else before + [last]
  }

  method UniqueUUIDs(ids: seq<Id>) returns (result: seq<Id>)
    ensures result == Uniques(ids)
  {
    var seen: set<Id> := {};
    result := [];
    for n := 0 to |ids|
      invariant result == Uniques(ids[..n])
      invariant forall id :: id in seen <==> id in result
    {
      assert ids[..n + 1][..n] == ids[..n];
      if ids[n] != NIL && ids[n] !in seen {
        seen := seen + {ids[n]};
        result := result + [ids[n]];
      }
    }
    assert ids[..|ids|] == ids;
  }

  function SetOf(ids: seq<Id>): set<Id> { set id | id in ids }

  lemma {:induction false} SetOfDistinct(ids: seq<Id>)
    requires Distinct(ids)
    ensures |SetOf(ids)| == |ids|
    decreases |ids|
  {
    if ids == [] {
      assert SetOf(ids) == {};
    } else {
      var init, last := ids[..|ids| - 1], ids[|ids| - 1];
      SetOfDistinct(init);
      assert ids == init + [last];
      assert last !in SetOf(init);
      assert SetOf(ids) == SetOf(init) + {last};
    }
  }

  /** Distinct rows found for a list of ids, as many as the list has unique ids, are exactly those ids. */
  lemma RowsAreUniques(rows: seq<Id>, ids: seq<Id>)
    requires Distinct(rows) && NIL !in rows && (forall id :: id in rows ==> id in ids)
    requires |rows| == |Uniques(ids)|
    ensures forall id :: id in rows <==> id in ids && id != NIL
  {
    var a, b := SetOf(rows), SetOf(Uniques(ids));
    SetOfDistinct(rows);
    SetOfDistinct(Uniques(ids));
    assert b == a + (b - a);
    assert b - a == {};
    forall id | id in ids && id != NIL ensures id in rows {
      assert id in b;
      assert id in a;
    }
  }

  // ---- Plans

  /** Each id with the label at its place; a repeated id keeps its last label. */
  function Zip(ids: seq<Id>, labels: seq<Id>): Plan
    requires |ids| == |labels|
  {
    if ids == [] then map[] else Zip(ids[..|ids| - 1], labels[..|ids| - 1])[ids[|ids| - 1] := labels[|ids| - 1]]
  }

  lemma {:induction false} ZipCovers(ids: seq<Id>, labels: seq<Id>)
    requires |ids| == |labels|
    ensures forall id :: id in Zip(ids, labels) <==> id in ids
    ensures forall id :: id in Zip(ids, labels) ==> Zip(ids, labels)[id] in labels
    decreases |ids|
  {
    if ids != [] {
      var n := |ids| - 1;
      ZipCovers(ids[..n], labels[..n]);
      assert ids == ids[..n] + [ids[n]] && labels == labels[..n] + [labels[n]];
    }
  }

  function Assigned(plan: Plan, scorer: Id): set<Id> { set v | v in plan && plan[v] == scorer }

  lemma OneMoreAssigned(plan: Plan, id: Id, chosen: Id, scorer: Id)
    requires id !in plan
    ensures |Assigned(plan[id := chosen], scorer)| == |Assigned(plan, scorer)| + if chosen == scorer then 1 else 0
  {
    assert Assigned(plan[id := chosen], scorer) == Assigned(plan, scorer) + if chosen == scorer then {id} else {};
  }

  /** With distinct ids a label is given out as often as it occurs. */
  lemma {:induction false} ZipCounts(ids: seq<Id>, labels: seq<Id>, scorer: Id)
    requires |ids| == |labels| && Distinct(ids)
    ensures |Assigned(Zip(ids, labels), scorer)| == multiset(labels)[scorer]
    decreases |ids|
  {
    if ids != [] {
      var n := |ids| - 1;
      var before := Zip(ids[..n], labels[..n]);
      ZipCounts(ids[..n], labels[..n], scorer);
      ZipCovers(ids[..n], labels[..n]);
      assert labels == labels[..n] + [labels[n]];
      assert ids[n] !in ids[..n];
      OneMoreAssigned(before, ids[n], labels[n], scorer);
    }
  }

  /** Labels that go round the scorers. */
  function Turns(scorers: seq<Id>, n: nat): (labels: seq<Id>)
    requires scorers != []
    ensures |labels| == n
  {
    seq(n, i requires 0 <= i < n => scorers[i % |scorers|])
  }

  /** What the j-th of k scorers gets of n videos: n / k, and one more for the first n mod k. */
  function Share(n: nat, k: nat, j: nat): nat
    requires k > 0
  {
    n / k + if j < n % k then 1 else 0
  }

  lemma MulMono(a: nat, b: nat, k: nat)
    requires a <= b
    ensures a * k <= b * k
  {
    assert b * k == a * k + (b - a) * k;
  }

  lemma QuotientIs(m: nat, q: nat, r: nat, k: nat)
    requires k > 0 && r < k && m == q * k + r
    ensures m / k == q && m % k == r
  {
    var q' := m / k;
    assert m == q' * k + m % k;
    if q' < q {
      MulMono(q' + 1, q, k);
    } else if q' > q {
      MulMono(q + 1, q', k);
    }
  }

  lemma NextShare(n: nat, k: nat, j: nat)
    requires j < k
    ensures Share(n + 1, k, j) == Share(n, k, j) + if n % k == j then 1 else 0
  {
    var q, r := n / k, n % k;
    assert n == q * k + r;
    if r == k - 1 {
      assert n + 1 == (q + 1) * k + 0;
      QuotientIs(n + 1, q + 1, 0, k);
    } else {
      QuotientIs(n + 1, q, r + 1, k);
    }
  }

  lemma NextTurn(scorers: seq<Id>, n: nat)
    requires scorers != []
    ensures Turns(scorers, n + 1) == Turns(scorers, n) + [scorers[n % |scorers|]]
  {
  }

  /** Going round distinct scorers gives each his share. */
  lemma {:induction false} TurnsCount(scorers: seq<Id>, n: nat, j: nat)
    requires Distinct(scorers) && j < |scorers|
    ensures multiset(Turns(scorers, n))[scorers[j]] == Share(n, |scorers|, j)
    decreases n
  {
    hide Share, Turns;
    if n == 0 {
      assert Turns(scorers, 0) == [];
      NothingToShare(|scorers|, j);
    } else {
      TurnsCount(scorers, n - 1, j);
      NextTurn(scorers, n - 1);
      NextShare(n - 1, |scorers|, j);
      var i := (n - 1) % |scorers|;
      assert scorers[i] == scorers[j] <==> i == j;
    }
  }

  lemma NothingToShare(k: nat, j: nat)
    requires k > 0
    ensures Share(0, k, j) == 0
  {
    QuotientIs(0, 0, 0, k);
  }

  datatype Quota = Quota(scorer: Id, count: int)

  function Repeat(id: Id, n: nat): (r: seq<Id>)
    ensures |r| == n && forall x :: x in r ==> x == id
  {
    seq(n, i => id)
  }

  /** Each quota's scorer as often as the quota says, quota after quota. */
  function Blocks(quotas: seq<Quota>): seq<Id> {
    if quotas == [] then []
    else Blocks(quotas[..|quotas| - 1]) + Repeat(quotas[|quotas| - 1].scorer, Times(quotas[|quotas| - 1].count))
  }

  /** How often a loop up to the count runs. */
  function Times(count: int): nat { if count > 0 then count else 0 }

  function Total(quotas: seq<Quota>): int {
    if quotas == [] then 0 else Total(quotas[..|quotas| - 1]) + quotas[|quotas| - 1].count
  }

  lemma {:induction false} RepeatCounts(id: Id, n: nat, scorer: Id)
    ensures multiset(Repeat(id, n))[scorer] == if id == scorer then n else 0
    decreases n
  {
    if n > 0 {
      RepeatCounts(id, n - 1, scorer);
      assert Repeat(id, n) == Repeat(id, n - 1) + [id];
    }
  }

  lemma {:induction false} BlocksAvoid(quotas: seq<Quota>, scorer: Id)
    requires forall i :: 0 <= i < |quotas| ==> quotas[i].scorer != scorer
    ensures multiset(Blocks(quotas))[scorer] == 0
    decreases |quotas|
  {
    if quotas != [] {
      var n := |quotas| - 1;
      BlocksAvoid(quotas[..n], scorer);
      RepeatCounts(quotas[n].scorer, Times(quotas[n].count), scorer);
    }
  }

  /** With distinct scorers, each has exactly his quota. */
  lemma {:induction false} BlocksCount(quotas: seq<Quota>, q: nat)
    requires q < |quotas| && forall i, j :: 0 <= i < j < |quotas| ==> quotas[i].scorer != quotas[j].scorer
    ensures multiset(Blocks(quotas))[quotas[q].scorer] == Times(quotas[q].count)
    decreases |quotas|
  {
    var n := |quotas| - 1;
    RepeatCounts(quotas[n].scorer, Times(quotas[n].count), quotas[q].scorer);
    if q == n {
      BlocksAvoid(quotas[..n], quotas[n].scorer);
    } else {
      BlocksCount(quotas[..n], q);
    }
  }

  lemma {:induction false} BlocksLength(quotas: seq<Quota>)
    requires forall i :: 0 <= i < |quotas| ==> quotas[i].count > 0
    ensures |Blocks(quotas)| == Total(quotas)
    decreases |quotas|
  {
    if quotas != [] {
      BlocksLength(quotas[..|quotas| - 1]);
    }
  }

  // ---- Assignment

  datatype Strategy = AverageStrategy | SpecificStrategy | OtherStrategy(blank: bool)

  datatype Specific = Specific(video: Id, scorer: Id)

  datatype AssignInput = AssignInput(
    task: Id, videoIds: seq<Id>, scorerIds: seq<Id>, strategy: Strategy, specific: seq<Specific>)

  predicate ValidAssign(input: AssignInput) {
    && input.task != NIL && input.videoIds != [] && input.scorerIds != []
    && (input.strategy.AverageStrategy? || (input.strategy.SpecificStrategy? && input.specific != []))
  }

  method ValidateAssignScorersInput(input: AssignInput) returns (r: Result<(), Error>)
    ensures r.Ok? <==> ValidAssign(input)
    ensures r ==
              if input.task == NIL then Err(TaskNotFound)
              else if |input.videoIds| == 0 then Err(VideoIdsRequired)
              else if |input.scorerIds| == 0 then Err(ScorerIdsRequired)
              else match input.strategy {
                case AverageStrategy => Ok(())
                case SpecificStrategy => if |input.specific| == 0 then Err(SpecificRequired) else Ok(())
                case OtherStrategy(blank) => Err(if blank then StrategyRequired else StrategyInvalid)
              }
  {
    if input.task == NIL { return Err(TaskNotFound); }
    if input.videoIds == [] { return Err(VideoIdsRequired); }
    if input.scorerIds == [] { return Err(ScorerIdsRequired); }
    match input.strategy {
      case AverageStrategy => r := Ok(());
      case SpecificStrategy => r := if input.specific == [] then Err(SpecificRequired) else Ok(());
      case OtherStrategy(blank) => r := Err(if blank then StrategyRequired else StrategyInvalid);
    }
  }

  function Videos(specific: seq<Specific>): seq<Id> { seq(|specific|, i requires 0 <= i < |specific| => specific[i].video) }

  function Scorers(specific: seq<Specific>): seq<Id> { seq(|specific|, i requires 0 <= i < |specific| => specific[i].scorer) }

  /** The ids handed out to the scorers in turn. The first id without a row refuses them all; without scorers the
      source divides by zero at the first id that has one. */
  function InTurn(ids: seq<Id>, videos: seq<Id>, scorers: seq<Id>): Result<Plan, Error> {
    if scorers == [] && ids != [] && ids[0] in videos then Err(DivisionByZero)
    else if exists v :: v in ids && v !in videos then Err(VideoNotFound)
    else if ids == [] then Ok(map[])
    else Ok(Zip(ids, Turns(scorers, |ids|)))
  }

  method AssignInTurn(ids: seq<Id>, videos: seq<Id>, scorers: seq<Id>) returns (r: Result<Plan, Error>)
    ensures r == InTurn(ids, videos, scorers)
    ensures if |scorers| == 0 && |ids| > 0 && ids[0] in videos then r == Err(DivisionByZero)
            else if exists i :: 0 <= i < |ids| && ids[i] !in videos then r == Err(VideoNotFound)
            else r.Ok? && (|ids| == 0 || AsTurnsGo(r.value, ids, scorers))
  {
    hide Zip, AsTurnsGo;
    if scorers != [] {
      TurnsAreAsTheyGo(ids, scorers);
    }
    ZipNothing();
    var plan: Plan := map[];
    ghost var labels := if scorers == [] then [] else Turns(scorers, |ids|);
    for n := 0 to |ids|
      invariant n > 0 ==> scorers != []
      invariant scorers != [] ==> plan == Zip(ids[..n], labels[..n])
      invariant scorers == [] ==> plan == map[]
      invariant forall i :: 0 <= i < n ==> ids[i] in videos
    {
      if ids[n] !in videos {
        return Err(VideoNotFound);
      }
      if |scorers| == 0 {
        return Err(DivisionByZero);
      }
      plan := plan[ids[n] := scorers[n % |scorers|]];
      ZipOneMore(ids, labels, n);
    }
    assert ids[..|ids|] == ids && labels[..|labels|] == labels;
    r := Ok(plan);
  }

  predicate Known(specific: seq<Specific>, videos: seq<Id>, scorers: seq<Id>) {
    forall i :: 0 <= i < |specific| ==> specific[i].video in videos && specific[i].scorer in scorers
  }

  method AssignSpecific(specific: seq<Specific>, videos: seq<Id>, scorers: seq<Id>) returns (r: Option<Plan>)
    ensures r == if Known(specific, videos, scorers) then Some(Zip(Videos(specific), Scorers(specific))) else None
    ensures r.Some? <==>
              forall i :: 0 <= i < |specific| ==> specific[i].video in videos && specific[i].scorer in scorers
    ensures r.Some? ==> AsSpecified(r.value, specific)
  {
    SpecifiedIsAsSpecified(specific);
    hide AsSpecified;
    var plan: Plan := map[];
    ghost var ids, labels := Videos(specific), Scorers(specific);
    for n := 0 to |specific|
      invariant plan == Zip(ids[..n], labels[..n])
      invariant Known(specific[..n], videos, scorers)
    {
      var item := specific[n];
      if item.video !in videos || item.scorer !in scorers {
        return None;
      }
      plan := plan[item.video := item.scorer];
      ZipOneMore(ids, labels, n);
      assert specific[..n + 1] == specific[..n] + [item];
    }
    assert specific[..|specific|] == specific;
    assert ids[..|ids|] == ids && labels[..|ids|] == labels;
    r := Some(plan);
  }

  /** `videos` and `scorers` are the rows found for the input. A specified plan must cover every selected
      video; when one is specified twice the last word counts. */
  method BuildAssignments(input: AssignInput, videos: seq<Id>, scorers: seq<Id>) returns (r: Result<Plan, Error>)
    ensures input.strategy.AverageStrategy? ==>
              if |scorers| == 0 && |input.videoIds| > 0 && input.videoIds[0] in videos then r == Err(DivisionByZero)
              else if exists i :: 0 <= i < |input.videoIds| && input.videoIds[i] !in videos then r == Err(VideoNotFound)
              else r.Ok? && (|input.videoIds| == 0 || AsTurnsGo(r.value, input.videoIds, scorers))
    ensures input.strategy.SpecificStrategy? ==>
              if (forall i :: 0 <= i < |input.specific| ==>
                    input.specific[i].video in videos && input.specific[i].scorer in scorers) &&
                 (forall v :: v in input.videoIds ==>
                    exists i :: 0 <= i < |input.specific| && input.specific[i].video == v)
              then r.Ok? && AsSpecified(r.value, input.specific) else r == Err(SpecificInvalid)
    ensures input.strategy.AverageStrategy? ==> r == InTurn(input.videoIds, videos, scorers)
    ensures input.strategy.SpecificStrategy? ==>
              r == if Known(input.specific, videos, scorers) &&
                      (forall v :: v in input.videoIds ==> v in Videos(input.specific))
                   then Ok(Zip(Videos(input.specific), Scorers(input.specific))) else Err(SpecificInvalid)
    ensures input.strategy.OtherStrategy? ==> r == Ok(map[])
  {
    hide AsSpecified, AsTurnsGo, Zip, Turns, InTurn;
    VideosAreNamed(input.specific);
    match input.strategy {
      case AverageStrategy => r := AssignInTurn(input.videoIds, videos, scorers);
      case SpecificStrategy =>
        var built := AssignSpecific(input.specific, videos, scorers);
        if built.None? {
          return Err(SpecificInvalid);
        }
        ZipCovers(Videos(input.specific), Scorers(input.specific));
        for n := 0 to |input.videoIds|
          invariant forall i :: 0 <= i < n ==> input.videoIds[i] in built.value
        {
          if input.videoIds[n] !in built.value {
            return Err(SpecificInvalid);
          }
        }
        r := Ok(built.value);
      case OtherStrategy(_) => r := Ok(map[]);
    }
  }

  /** The whole of an assignment up to its plan; `videos` and `scorers` are what the database finds. In average mode
      the division by zero happens exactly when every scorer id is nil and the first video id is not; otherwise a
      nil video id refuses the plan, and without one every video has its turn. */
  method PlanAssignments(input: AssignInput, videos: seq<Id>, scorers: seq<Id>) returns (r: Result<Plan, Error>)
    requires Distinct(videos) && NIL !in videos && forall id :: id in videos ==> id in input.videoIds
    requires Distinct(scorers) && NIL !in scorers && forall id :: id in scorers ==> id in input.scorerIds
    ensures r.Ok? ==> ValidAssign(input)
    ensures ValidAssign(input) && |videos| != |Uniques(input.videoIds)| ==> r == Err(VideoNotFound)
    ensures ValidAssign(input) && |videos| == |Uniques(input.videoIds)| && |scorers| != |Uniques(input.scorerIds)| ==>
              r == Err(ScorerNotFound)
    ensures ValidAssign(input) && input.strategy.AverageStrategy? &&
            |videos| == |Uniques(input.videoIds)| && |scorers| == |Uniques(input.scorerIds)| ==>
              if AllNil(input.scorerIds) && input.videoIds[0] != NIL then r == Err(DivisionByZero)
              else if NIL in input.videoIds then r == Err(VideoNotFound)
              else
                && r.Ok? && AsTurnsGo(r.value, input.videoIds, scorers)
                && r == Ok(Zip(input.videoIds, Turns(scorers, |input.videoIds|)))
    ensures ValidAssign(input) && input.strategy.SpecificStrategy? &&
            |videos| == |Uniques(input.videoIds)| && |scorers| == |Uniques(input.scorerIds)| ==>
              r == if Known(input.specific, input.videoIds, input.scorerIds) && NoNil(input.specific) &&
                      (forall v :: v in input.videoIds ==> v in Videos(input.specific))
                   then Ok(Zip(Videos(input.specific), Scorers(input.specific))) else Err(SpecificInvalid)
    ensures r.Ok? && input.strategy.SpecificStrategy? ==>
              AsSpecified(r.value, input.specific) && forall v :: v in input.videoIds ==> v in r.value
  {
    hide AsSpecified, AsTurnsGo, Zip, Turns;
    VideosAreNamed(input.specific);
    SpecifiedIsAsSpecified(input.specific);
    ZipCovers(Videos(input.specific), Scorers(input.specific));
    var valid := ValidateAssignScorersInput(input);
    if valid.Err? {
      return Err(valid.error);
    }
    var uniqueVideos := UniqueUUIDs(input.videoIds);
    if |videos| != |uniqueVideos| {
      return Err(VideoNotFound);
    }
    var uniqueScorers := UniqueUUIDs(input.scorerIds);
    if |scorers| != |uniqueScorers| {
      return Err(ScorerNotFound);
    }
    RowsAreUniques(videos, input.videoIds);
    RowsAreUniques(scorers, input.scorerIds);
    NoneIffAllNil(scorers, input.scorerIds);
    assert input.videoIds[0] in input.videoIds;
    r := BuildAssignments(input, videos, scorers);
  }

  predicate NoNil(specific: seq<Specific>) {
    forall i :: 0 <= i < |specific| ==> specific[i].video != NIL && specific[i].scorer != NIL
  }

  predicate AllNil(ids: seq<Id>) { forall i :: 0 <= i < |ids| ==> ids[i] == NIL }

  lemma NoneIffAllNil(rows: seq<Id>, ids: seq<Id>)
    requires forall id :: id in rows <==> id in ids && id != NIL
    ensures rows == [] <==> AllNil(ids)
  {
    if rows != [] {
      assert rows[0] in ids;
    }
    if !AllNil(ids) {
      var i :| 0 <= i < |ids| && ids[i] != NIL;
      assert ids[i] in rows;
    }
  }

  /** One video and the nil scorer are let through by every check before the division. */
  lemma NilScorerDividesByZero()
    ensures ValidAssign(AssignInput(1, [5], [NIL], AverageStrategy, []))
    ensures Uniques([5]) == [5] && Uniques([NIL]) == [] && InTurn([5], [5], []) == Err(DivisionByZero)
    ensures ValidReassign(ReassignInput(1, [5], [NIL], AverageMode, []))
  {
    assert [5][..0] == [] && [NIL][..0] == [];
    assert Uniques([5]) == [5] && Uniques([NIL]) == [];
  }

  /** Every id has the label at its last place. */
  lemma {:induction false} ZipKeepsLast(ids: seq<Id>, labels: seq<Id>, i: nat)
    requires |ids| == |labels| && i < |ids| && forall j :: i < j < |ids| ==> ids[j] != ids[i]
    ensures ids[i] in Zip(ids, labels) && Zip(ids, labels)[ids[i]] == labels[i]
    decreases |ids|
  {
    var n := |ids| - 1;
    if i < n {
      ZipKeepsLast(ids[..n], labels[..n], i);
    }
  }

  /** The last of the items that name the video says whose it is. */
  predicate LastSays(specific: seq<Specific>, i: nat) {
    i < |specific| && forall j :: i < j < |specific| ==> specific[j].video != specific[i].video
  }

  /** The plan that a list of specified assignments asks for: the videos it names, each with the scorer of the last item
      that names it. */
  ghost predicate AsSpecified(plan: Plan, specific: seq<Specific>) {
    && (forall v :: v in plan ==> exists i :: 0 <= i < |specific| && specific[i].video == v)
    && (forall i :: 0 <= i < |specific| ==> specific[i].video in plan)
    && (forall i :: 0 <= i < |specific| && LastSays(specific, i) ==> plan[specific[i].video] == specific[i].scorer)
  }

  /** The plan of going round the scorers: the selected videos, each with the scorer whose turn it is at the last place
      it is selected at. */
  ghost predicate AsTurnsGo(plan: Plan, ids: seq<Id>, scorers: seq<Id>) {
    && scorers != [] && (forall v :: v in plan <==> v in ids)
    && (forall i :: 0 <= i < |ids| && (forall j :: i < j < |ids| ==> ids[j] != ids[i]) ==>
          plan[ids[i]] == scorers[i % |scorers|])
  }

  lemma SpecifiedIsAsSpecified(specific: seq<Specific>)
    ensures AsSpecified(Zip(Videos(specific), Scorers(specific)), specific)
  {
    hide Zip;
    ZipCovers(Videos(specific), Scorers(specific));
    forall i | 0 <= i < |specific|
      ensures specific[i].video in Zip(Videos(specific), Scorers(specific))
    {
      assert Videos(specific)[i] == specific[i].video;
    }
    forall i | 0 <= i < |specific| && LastSays(specific, i)
      ensures Zip(Videos(specific), Scorers(specific))[specific[i].video] == specific[i].scorer
    {
      ZipKeepsLast(Videos(specific), Scorers(specific), i);
    }
  }

  lemma TurnsAreAsTheyGo(ids: seq<Id>, scorers: seq<Id>)
    requires scorers != []
    ensures AsTurnsGo(Zip(ids, Turns(scorers, |ids|)), ids, scorers)
  {
    hide Zip;
    var labels := Turns(scorers, |ids|);
    ZipCovers(ids, labels);
    forall i | 0 <= i < |ids| && forall j :: i < j < |ids| ==> ids[j] != ids[i]
      ensures Zip(ids, labels)[ids[i]] == scorers[i % |scorers|]
    {
      ZipKeepsLast(ids, labels, i);
    }
  }

  lemma VideosAreNamed(specific: seq<Specific>)
    ensures forall v :: v in Videos(specific) <==> exists i :: 0 <= i < |specific| && specific[i].video == v
  {
    forall v ensures v in Videos(specific) <==> exists i :: 0 <= i < |specific| && specific[i].video == v {
      if i :| 0 <= i < |specific| && specific[i].video == v {
        assert Videos(specific)[i] == v;
      }
    }
  }

  /** Nothing else is asked for. */
  lemma OnlyOnePlanIsAsSpecified(a: Plan, b: Plan, specific: seq<Specific>)
    requires AsSpecified(a, specific) && AsSpecified(b, specific)
    ensures a == b
  {
    forall v | v in a ensures v in b && a[v] == b[v] {
      var i := LastItem(specific, v, |specific|);
      assert LastSays(specific, i);
    }
    forall v | v in b ensures v in a {
      var i :| 0 <= i < |specific| && specific[i].video == v;
    }
  }

  lemma {:induction false} LastItem(specific: seq<Specific>, v: Id, n: nat) returns (i: nat)
    requires n <= |specific| && exists k :: 0 <= k < n && specific[k].video == v
    ensures i < n && specific[i].video == v && forall j :: i < j < n ==> specific[j].video != v
    decreases n
  {
    if specific[n - 1].video == v {
      i := n - 1;
    } else {
      i := LastItem(specific, v, n - 1);
    }
  }

  lemma ZipNothing()
    ensures Zip([], []) == map[]
  {
  }

  lemma ZipOneMore(ids: seq<Id>, labels: seq<Id>, n: nat)
    requires n < |ids| && n < |labels|
    ensures Zip(ids[..n + 1], labels[..n + 1]) == Zip(ids[..n], labels[..n])[ids[n] := labels[n]]
    ensures ids[..n + 1] == ids[..n] + [ids[n]]
  {
    assert ids[..n + 1][..n] == ids[..n] && labels[..n + 1][..n] == labels[..n];
  }

  /** A plan that covers exactly the given videos and shares them out evenly, the extra ones to the first. */
  ghost predicate Fair(plan: Plan, ids: seq<Id>, scorers: seq<Id>) {
    && scorers != []
    && (forall v :: v in plan <==> v in ids)
    && (forall v :: v in plan ==> plan[v] in scorers)
    && (forall j :: 0 <= j < |scorers| ==> |Assigned(plan, scorers[j])| == Share(|plan|, |scorers|, j))
  }

  lemma ZipSize(ids: seq<Id>, labels: seq<Id>)
    requires |ids| == |labels|
    ensures |Zip(ids, labels)| == |SetOf(ids)|
  {
    ZipCovers(ids, labels);
    assert Zip(ids, labels).Keys == SetOf(ids);
  }

  lemma LabelsAreScorers(scorers: seq<Id>, n: nat)
    requires scorers != []
    ensures forall x :: x in Turns(scorers, n) ==> x in scorers
  {
    forall x | x in Turns(scorers, n) ensures x in scorers {
      var i :| 0 <= i < n && Turns(scorers, n)[i] == x;
    }
  }

  lemma FairShare(ids: seq<Id>, scorers: seq<Id>, j: nat)
    requires Distinct(ids) && Distinct(scorers) && j < |scorers|
    ensures
      var plan := Zip(ids, Turns(scorers, |ids|));
      |Assigned(plan, scorers[j])| == Share(|plan|, |scorers|, j)
  {
    hide *;
    SetOfDistinct(ids);
    ZipSize(ids, Turns(scorers, |ids|));
    ZipCounts(ids, Turns(scorers, |ids|), scorers[j]);
    TurnsCount(scorers, |ids|, j);
  }

  lemma TurnsAreFair(ids: seq<Id>, scorers: seq<Id>)
    requires Distinct(ids) && Distinct(scorers) && scorers != []
    ensures Fair(Zip(ids, Turns(scorers, |ids|)), ids, scorers)
  {
    hide Share, Turns, Zip, Assigned, Distinct;
    LabelsAreScorers(scorers, |ids|);
    ZipCovers(ids, Turns(scorers, |ids|));
    forall j | 0 <= j < |scorers|
      ensures
        var plan := Zip(ids, Turns(scorers, |ids|));
        |Assigned(plan, scorers[j])| == Share(|plan|, |scorers|, j)
    {
      FairShare(ids, scorers, j);
    }
  }

  lemma {:induction false} SetOfRepeated(ids: seq<Id>)
    requires !Distinct(ids)
    ensures |SetOf(ids)| < |ids|
    decreases |ids|
  {
    var init, last := ids[..|ids| - 1], ids[|ids| - 1];
    assert ids == init + [last];
    assert SetOf(ids) == SetOf(init) + {last};
    if Distinct(init) {
      SetOfDistinct(init);
      assert last in init;
      assert SetOf(ids) == SetOf(init);
    } else {
      SetOfRepeated(init);
    }
  }

  /** Assigning in turn is fair to every team of scorers exactly when no video id is repeated: a repeated id
      takes a turn and gives nothing for it. With as many scorers as ids the last one shows it. */
  lemma FairIffNoRepeats(ids: seq<Id>)
    ensures Distinct(ids) <==>
              forall scorers: seq<Id> :: scorers != [] && Distinct(scorers) ==>
                Fair(Zip(ids, Turns(scorers, |ids|)), ids, scorers)
  {
    if Distinct(ids) {
      forall scorers: seq<Id> | scorers != [] && Distinct(scorers)
        ensures Fair(Zip(ids, Turns(scorers, |ids|)), ids, scorers)
      {
        TurnsAreFair(ids, scorers);
      }
    } else {
      var n := |ids|;
      var team: seq<Id> := seq(n, i => i + 1);
      UnfairToTheLast(ids, team);
    }
  }

  lemma NoShareForTheLast(m: nat, n: nat)
    requires m < n
    ensures Share(m, n, n - 1) == 0
  {
    QuotientIs(m, 0, m, n);
  }

  lemma LastTurn(team: seq<Id>, n: nat)
    requires 0 < n == |team|
    ensures Turns(team, n)[n - 1] == team[n - 1]
  {
    QuotientIs(n - 1, 0, n - 1, n);
  }

  lemma LastHasATurn(ids: seq<Id>, team: seq<Id>)
    requires ids != [] && |team| == |ids|
    ensures |Assigned(Zip(ids, Turns(team, |ids|)), team[|ids| - 1])| > 0
  {
    hide Turns;
    ZipCovers(ids, Turns(team, |ids|));
    LastTurn(team, |ids|);
    assert ids[|ids| - 1] in Assigned(Zip(ids, Turns(team, |ids|)), team[|ids| - 1]);
  }

  lemma UnfairToTheLast(ids: seq<Id>, team: seq<Id>)
    requires !Distinct(ids) && |team| == |ids|
    ensures !Fair(Zip(ids, Turns(team, |ids|)), ids, team)
  {
    hide Share, Turns, Zip, Assigned;
    SetOfRepeated(ids);
    ZipSize(ids, Turns(team, |ids|));
    NoShareForTheLast(|SetOf(ids)|, |ids|);
    LastHasATurn(ids, team);
  }

  /** One video selected twice goes to the second of two scorers, where the first should have it. */
  lemma RepeatedIdsMayBeUnfair()
    ensures !Fair(Zip([1, 1], Turns([8, 9], 2)), [1, 1], [8, 9])
  {
    assert [1, 1][0] == [1, 1][1];
    UnfairToTheLast([1, 1], [8, 9]);
  }

  // ---- Reassignment

  datatype Mode = AverageMode | QuantityMode | OtherMode(blank: bool)

  datatype ReassignInput = ReassignInput(
    task: Id, videoIds: seq<Id>, scorerIds: seq<Id>, mode: Mode, quotas: seq<Quota>)

  /** Quotas the validation lets through. */
  predicate Sensible(quotas: seq<Quota>) {
    && (forall i :: 0 <= i < |quotas| ==> quotas[i].scorer != NIL && quotas[i].count > 0)
    && (forall i, j :: 0 <= i < j < |quotas| ==> quotas[i].scorer != quotas[j].scorer)
  }

  predicate ValidReassign(input: ReassignInput) {
    && input.task != NIL && input.videoIds != [] && input.scorerIds != []
    && match input.mode {
         case AverageMode => true
         case QuantityMode =>
           input.quotas != [] && Sensible(input.quotas) && Total(input.quotas) == |Uniques(input.videoIds)|
         case OtherMode(_) => false
       }
  }

  method ValidateReassignPendingVideosInput(input: ReassignInput) returns (r: Result<(), Error>)
    ensures r.Ok? <==> ValidReassign(input)
    ensures input.task == NIL ==> r == Err(TaskNotFound)
    ensures input.task != NIL && |input.videoIds| == 0 ==> r == Err(VideoIdsRequired)
    ensures input.task != NIL && |input.videoIds| > 0 && |input.scorerIds| == 0 ==> r == Err(ScorerIdsRequired)
    ensures input.task != NIL && |input.videoIds| > 0 && |input.scorerIds| > 0 ==>
              match input.mode {
                case AverageMode => r == Ok(())
                case QuantityMode =>
                  if |input.quotas| == 0 then r == Err(CountRequired)
                  else if (forall q :: q in input.quotas ==> q.scorer != NIL && q.count >= 1) &&
                          (forall i, j :: 0 <= i < j < |input.quotas| ==> input.quotas[i].scorer != input.quotas[j].scorer)
                  then r == if Total(input.quotas) == |Uniques(input.videoIds)| then Ok(()) else Err(CountMismatch)
                  else r == Err(CountInvalid)
                case OtherMode(blank) => r == Err(if blank then ModeRequired else ModeInvalid)
              }
    ensures r == Err(CountMismatch) <==>
              && input.task != NIL && input.videoIds != [] && input.scorerIds != [] && input.mode.QuantityMode?
              && input.quotas != [] && Sensible(input.quotas) && Total(input.quotas) != |Uniques(input.videoIds)|
  {
    if input.task == NIL { return Err(TaskNotFound); }
    if input.videoIds == [] { return Err(VideoIdsRequired); }
    if input.scorerIds == [] { return Err(ScorerIdsRequired); }
    match input.mode {
      case AverageMode => r := Ok(());
      case QuantityMode =>
        if input.quotas == [] {
          return Err(CountRequired);
        }
        var total, seen: set<Id> := 0, {};
        for n := 0 to |input.quotas|
          invariant total == Total(input.quotas[..n]) && Sensible(input.quotas[..n])
          invariant forall id :: id in seen <==> exists i :: 0 <= i < n && input.quotas[i].scorer == id
        {
          var item := input.quotas[n];
          assert input.quotas[..n + 1][..n] == input.quotas[..n];
          if item.scorer == NIL || item.count <= 0 {
            return Err(CountInvalid);
          }
          if item.scorer in seen {
            return Err(CountInvalid);
          }
          seen := seen + {item.scorer};
          total := total + item.count;
        }
        assert input.quotas[..|input.quotas|] == input.quotas;
        var unique := UniqueUUIDs(input.videoIds);
        r := if total != |unique| then Err(CountMismatch) else Ok(());
      case OtherMode(blank) => r := Err(if blank then ModeRequired else ModeInvalid);
    }
  }

  /** The in-place shuffle: from the top down, each place swaps with a place not above it. The choices are
      arbitrary, so what is proved holds of every shuffle. */
  method Shuffle(a: array<Id>, choices: seq<nat>)
    requires |choices| >= a.Length && forall i :: 0 <= i < a.Length ==> choices[i] <= i
    modifies a
    ensures multiset(a[..]) == multiset(old(a[..]))
  {
    var i := a.Length - 1;
    while i > 0
      invariant i < a.Length
      invariant multiset(a[..]) == multiset(old(a[..]))
    {
      var j := choices[i];
      a[i], a[j] := a[j], a[i];
      i := i - 1;
    }
  }

  lemma ShuffledIds(ids: seq<Id>, shuffled: seq<Id>)
    requires Distinct(ids) && multiset(shuffled) == multiset(ids)
    ensures Distinct(shuffled) && |shuffled| == |ids|
    ensures forall id :: id in shuffled <==> id in ids
  {
    assert |shuffled| == |multiset(shuffled)| && |ids| == |multiset(ids)|;
    assert forall id :: id in shuffled <==> id in multiset(shuffled);
    assert forall id :: id in ids <==> id in multiset(ids);
    forall i, j | 0 <= i < j < |shuffled| ensures shuffled[i] != shuffled[j] {
      if shuffled[i] == shuffled[j] {
        Twice(shuffled, i, j);
        Once(ids, shuffled[i]);
      }
    }
  }

  lemma Twice(ids: seq<Id>, i: nat, j: nat)
    requires i < j < |ids| && ids[i] == ids[j]
    ensures multiset(ids)[ids[i]] >= 2
  {
    assert ids == ids[..i] + [ids[i]] + ids[i + 1..j] + [ids[j]] + ids[j + 1..];
  }

  lemma {:induction false} Once(ids: seq<Id>, id: Id)
    requires Distinct(ids)
    ensures multiset(ids)[id] <= 1
    decreases |ids|
  {
    if ids != [] {
      var n := |ids| - 1;
      assert ids == ids[..n] + [ids[n]];
      Once(ids[..n], id);
      assert ids[n] !in ids[..n];
      assert ids[n] !in multiset(ids[..n]);
    }
  }

  /** What a plan by quota promises: exactly the given videos, each scorer exactly his quota. */
  ghost predicate ByQuota(plan: Plan, ids: seq<Id>, quotas: seq<Quota>) {
    && (forall v :: v in plan <==> v in ids)
    && (forall q :: 0 <= q < |quotas| ==> |Assigned(plan, quotas[q].scorer)| == quotas[q].count)
  }

  lemma BlocksAreByQuota(ids: seq<Id>, quotas: seq<Quota>)
    requires Distinct(ids) && Sensible(quotas) && |Blocks(quotas)| == |ids|
    ensures ByQuota(Zip(ids, Blocks(quotas)), ids, quotas)
  {
    ZipCovers(ids, Blocks(quotas));
    forall q | 0 <= q < |quotas| ensures |Assigned(Zip(ids, Blocks(quotas)), quotas[q].scorer)| == quotas[q].count {
      ZipCounts(ids, Blocks(quotas), quotas[q].scorer);
      BlocksCount(quotas, q);
    }
  }

  /** Gives the next `quota.count` ids to the quota's scorer, None when the ids run out. `labels` are the
      scorers of all ids given out when it is done. */
  method GiveQuota(plan: Plan, ids: seq<Id>, start: nat, quota: Quota, ghost labels: seq<Id>)
    returns (r: Option<Plan>)
    requires start <= |ids| && |labels| == start + Times(quota.count)
    requires forall i :: start <= i < |labels| ==> labels[i] == quota.scorer
    requires plan == Zip(ids[..start], labels[..start])
    ensures r == if |labels| <= |ids| then Some(Zip(ids[..|labels|], labels)) else None
  {
    var given := plan;
    for i := start to start + Times(quota.count)
      invariant i <= |ids| && given == Zip(ids[..i], labels[..i])
    {
      if i >= |ids| {
        return None;
      }
      ZipOneMore(ids, labels, i);
      assert labels[i] == quota.scorer;
      hide Zip;
      given := given[ids[i] := quota.scorer];
    }
    assert labels[..|labels|] == labels;
    r := Some(given);
  }

  predicate KnownQuotas(quotas: seq<Quota>, scorers: seq<Id>) {
    forall q :: 0 <= q < |quotas| ==> quotas[q].scorer in scorers
  }

  /** The first quota at which the loop stops: an unknown scorer, or more than there are ids. */
  function LoopProblem(quotas: seq<Quota>, scorers: seq<Id>, n: nat): Option<Error> {
    if quotas == [] then None
    else
      var last := |quotas| - 1;
      var before := LoopProblem(quotas[..last], scorers, n);
      if before.Some? then before
      else if quotas[last].scorer !in scorers then Some(CountInvalid)
      else if |Blocks(quotas)| > n then Some(CountMismatch)
      else None
  }

  /** Why quotas cannot be handed out to n ids, if they cannot. */
  function QuotaProblem(quotas: seq<Quota>, scorers: seq<Id>, n: nat): Option<Error> {
    var problem := LoopProblem(quotas, scorers, n);
    if problem.None? && |Blocks(quotas)| != n then Some(CountMismatch) else problem
  }

  lemma {:induction false} LoopProblemStays(quotas: seq<Quota>, scorers: seq<Id>, n: nat, q: nat)
    requires q <= |quotas| && LoopProblem(quotas[..q], scorers, n).Some?
    ensures LoopProblem(quotas, scorers, n) == LoopProblem(quotas[..q], scorers, n)
    decreases |quotas| - q
  {
    if q == |quotas| {
      assert quotas[..q] == quotas;
    } else {
      assert quotas[..q + 1][..q] == quotas[..q];
      LoopProblemStays(quotas, scorers, n, q + 1);
    }
  }

  /** Hands out the ids quota by quota. */
  method AssignByQuota(ids: seq<Id>, quotas: seq<Quota>, scorers: seq<Id>) returns (r: Result<Plan, Error>)
    ensures match QuotaProblem(quotas, scorers, |ids|)
            case Some(e) => r == Err(e)
            case None => |Blocks(quotas)| == |ids| && r == Ok(Zip(ids, Blocks(quotas)))
  {
    var plan: Plan, position: nat := map[], 0;
    for q := 0 to |quotas|
      invariant position == |Blocks(quotas[..q])| <= |ids|
      invariant LoopProblem(quotas[..q], scorers, |ids|) == None
      invariant plan == Zip(ids[..position], Blocks(quotas[..q]))
    {
      var item := quotas[q];
      NextBlock(quotas, q);
      if item.scorer !in scorers {
        LoopProblemStays(quotas, scorers, |ids|, q + 1);
        return Err(CountInvalid);
      }
      var given := GiveQuota(plan, ids, position, item, Blocks(quotas[..q + 1]));
      if given.None? {
        LoopProblemStays(quotas, scorers, |ids|, q + 1);
        return Err(CountMismatch);
      }
      plan, position := given.value, position + Times(item.count);
    }
    assert quotas[..|quotas|] == quotas;
    if position != |ids| {
      return Err(CountMismatch);
    }
    assert ids[..position] == ids;
    r := Ok(plan);
  }

  lemma NextBlock(quotas: seq<Quota>, q: nat)
    requires q < |quotas|
    ensures quotas[..q + 1][..q] == quotas[..q]
    ensures Blocks(quotas[..q + 1]) == Blocks(quotas[..q]) + Repeat(quotas[q].scorer, Times(quotas[q].count))
    ensures Blocks(quotas[..q + 1])[..|Blocks(quotas[..q])|] == Blocks(quotas[..q])
  {
    assert quotas[..q + 1][..q] == quotas[..q];
  }

  lemma {:induction false} TotalGrows(quotas: seq<Quota>, n: nat)
    requires n <= |quotas| && Sensible(quotas)
    ensures Total(quotas[..n]) <= Total(quotas)
    decreases |quotas| - n
  {
    if n == |quotas| {
      assert quotas[..n] == quotas;
    } else {
      TotalGrows(quotas, n + 1);
      assert quotas[..n + 1][..n] == quotas[..n];
    }
  }

  lemma {:induction false} FitsThroughout(quotas: seq<Quota>, scorers: seq<Id>, n: nat, q: nat)
    requires q <= |quotas| && Sensible(quotas) && Total(quotas) == n
    ensures LoopProblem(quotas[..q], scorers, n) == if KnownQuotas(quotas[..q], scorers) then None else Some(CountInvalid)
    decreases q
  {
    if q > 0 {
      assert quotas[..q][..q - 1] == quotas[..q - 1];
      assert |Blocks(quotas[..q])| <= n by {
        BlocksLength(quotas[..q]);
        TotalGrows(quotas, q);
      }
      hide Blocks, Total, Sensible;
      FitsThroughout(quotas, scorers, n, q - 1);
      KnownOneMore(quotas, scorers, q - 1);
    }
  }

  lemma KnownOneMore(quotas: seq<Quota>, scorers: seq<Id>, q: nat)
    requires q < |quotas|
    ensures KnownQuotas(quotas[..q + 1], scorers) <==> KnownQuotas(quotas[..q], scorers) && quotas[q].scorer in scorers
  {
    assert quotas[..q + 1] == quotas[..q] + [quotas[q]];
  }

  /** Sensible quotas that add up to the ids can only fail for an unknown scorer: the two exits for a count mismatch
      are not taken. */
  lemma MismatchIsUnreachable(quotas: seq<Quota>, scorers: seq<Id>, n: nat)
    requires Sensible(quotas) && Total(quotas) == n
    ensures QuotaProblem(quotas, scorers, n) == if KnownQuotas(quotas, scorers) then None else Some(CountInvalid)
  {
    assert quotas[..|quotas|] == quotas;
    FitsThroughout(quotas, scorers, n, |quotas|);
    BlocksLength(quotas);
  }

  /** What reassignment promises about a plan, whatever the shuffle was. */
  ghost predicate Promised(plan: Plan, input: ReassignInput, rows: seq<Id>, scorers: seq<Id>) {
    if input.mode.AverageMode? then Fair(plan, rows, scorers) else ByQuota(plan, rows, input.quotas)
  }

  /** The plan for the shuffled ids, before it is checked against the selection. */
  function Spread(input: ReassignInput, ids: seq<Id>, scorers: seq<Id>): Result<Plan, Error> {
    match input.mode
    case AverageMode => InTurn(ids, ids, scorers)
    case QuantityMode =>
      (match QuotaProblem(input.quotas, scorers, |ids|)
       case Some(e) => Err(e)
       case None => Ok(Zip(ids, Blocks(input.quotas))))
    case OtherMode(_) => Ok(map[])
  }

  /** The closing check: the first selected video without a row or without an assignment. */
  function Closing(videoIds: seq<Id>, rows: seq<Id>, plan: Plan): Option<Error> {
    if videoIds == [] then None
    else if videoIds[0] !in rows then Some(VideoNotFound)
    else if videoIds[0] !in plan then Some(CountMismatch)
    else Closing(videoIds[1..], rows, plan)
  }

  method SpreadShuffled(input: ReassignInput, ids: seq<Id>, scorers: seq<Id>) returns (r: Result<Plan, Error>)
    ensures r == Spread(input, ids, scorers)
  {
    match input.mode {
      case AverageMode => r := AssignInTurn(ids, ids, scorers);
      case QuantityMode => r := AssignByQuota(ids, input.quotas, scorers);
      case OtherMode(_) => r := Ok(map[]);
    }
  }

  method CheckSelected(videoIds: seq<Id>, rows: seq<Id>, plan: Plan) returns (problem: Option<Error>)
    ensures problem == Closing(videoIds, rows, plan)
  {
    for n := 0 to |videoIds|
      invariant Closing(videoIds, rows, plan) == Closing(videoIds[n..], rows, plan)
    {
      assert videoIds[n..][1..] == videoIds[n + 1..];
      if videoIds[n] !in rows {
        return Some(VideoNotFound);
      }
      if videoIds[n] !in plan {
        return Some(CountMismatch);
      }
    }
    problem := None;
  }

  /** `ids` is the order that the shuffle gave the rows. */
  method BuildReassignments(input: ReassignInput, rows: seq<Id>, scorers: seq<Id>, choices: seq<nat>)
    returns (r: Result<Plan, Error>, ghost ids: seq<Id>)
    requires |choices| >= |rows| && forall i :: 0 <= i < |rows| ==> choices[i] <= i
    ensures multiset(ids) == multiset(rows)
    ensures match Spread(input, ids, scorers)
            case Err(e) => r == Err(e)
            case Ok(plan) =>
              match Closing(input.videoIds, rows, plan)
              case Some(e) => r == Err(e)
              case None => r == Ok(plan)
  {
    var a := new Id[|rows|](i requires 0 <= i < |rows| => rows[i]);
    assert a[..] == rows;
    Shuffle(a, choices);
    ids := a[..];
    r := SpreadShuffled(input, a[..], scorers);
    if r.Ok? {
      var problem := CheckSelected(input.videoIds, rows, r.value);
      if problem.Some? {
        r := Err(problem.value);
      }
    }
  }

  lemma {:induction false} CoveredSelection(videoIds: seq<Id>, rows: seq<Id>, plan: Plan)
    requires forall v :: v in rows ==> v in plan
    ensures Closing(videoIds, rows, plan) == if forall v :: v in videoIds ==> v in rows then None else Some(VideoNotFound)
    decreases |videoIds|
  {
    if videoIds != [] {
      assert videoIds == [videoIds[0]] + videoIds[1..];
      CoveredSelection(videoIds[1..], rows, plan);
    }
  }

  /** A plan that was spread keeps its mode's promise, for every shuffle. */
  lemma SpreadKeepsPromise(input: ReassignInput, rows: seq<Id>, ids: seq<Id>, scorers: seq<Id>)
    requires Distinct(rows) && multiset(ids) == multiset(rows) && Distinct(scorers)
    requires input.mode.AverageMode? ==> scorers != []
    requires input.mode.QuantityMode? ==> Sensible(input.quotas)
    requires !input.mode.OtherMode? && Spread(input, ids, scorers).Ok?
    ensures Promised(Spread(input, ids, scorers).value, input, rows, scorers)
    ensures forall v :: v in Spread(input, ids, scorers).value <==> v in rows
  {
    ShuffledIds(rows, ids);
    if input.mode.AverageMode? {
      TurnsAreFair(ids, scorers);
      NoTurns(scorers);
    } else {
      BlocksAreByQuota(ids, input.quotas);
    }
  }

  lemma NoTurns(scorers: seq<Id>)
    requires scorers != []
    ensures Zip([], Turns(scorers, 0)) == map[]
  {
  }

  /** The whole of a reassignment up to its plan. `rows` and `scorers` are what the database finds for the
      input's ids. For every shuffle a valid input is refused exactly for a row that is missing, a quota for a
      scorer who is not selected, or a nil video id, and divides by zero exactly in average mode with nil scorer
      ids only; otherwise every selected video is assigned once, in turn or by quota. The count-mismatch exits of
      the building loops are never taken. */
  method PlanReassignment(input: ReassignInput, rows: seq<Id>, scorers: seq<Id>, choices: seq<nat>)
    returns (r: Result<Plan, Error>)
    requires Distinct(rows) && NIL !in rows && forall id :: id in rows ==> id in input.videoIds
    requires Distinct(scorers) && NIL !in scorers && forall id :: id in scorers ==> id in input.scorerIds
    requires |choices| >= |rows| && forall i :: 0 <= i < |rows| ==> choices[i] <= i
    ensures r.Ok? ==> ValidReassign(input)
    ensures ValidReassign(input) && |rows| != |Uniques(input.videoIds)| ==> r == Err(VideoNotFound)
    ensures ValidReassign(input) && |rows| == |Uniques(input.videoIds)| && |scorers| != |Uniques(input.scorerIds)| ==>
              r == Err(ScorerNotFound)
    ensures ValidReassign(input) && |rows| == |Uniques(input.videoIds)| && |scorers| == |Uniques(input.scorerIds)| ==>
              if input.mode.AverageMode? && AllNil(input.scorerIds) && !AllNil(input.videoIds) then r == Err(DivisionByZero)
              else if input.mode.QuantityMode? && !KnownQuotas(input.quotas, input.scorerIds) then r == Err(CountInvalid)
              else if NIL in input.videoIds then r == Err(VideoNotFound)
              else r.Ok? && Promised(r.value, input, rows, scorers) && forall v :: v in r.value <==> v in input.videoIds
  {
    var valid := ValidateReassignPendingVideosInput(input);
    if valid.Err? {
      return Err(valid.error);
    }
    var uniqueVideos := UniqueUUIDs(input.videoIds);
    if |rows| != |uniqueVideos| {
      return Err(VideoNotFound);
    }
    var uniqueScorers := UniqueUUIDs(input.scorerIds);
    if |scorers| != |uniqueScorers| {
      return Err(ScorerNotFound);
    }
    RowsAreUniques(rows, input.videoIds);
    RowsAreUniques(scorers, input.scorerIds);
    ghost var ids;
    r, ids := BuildReassignments(input, rows, scorers, choices);
    SelectedPlan(input, rows, scorers, ids);
  }

  /** What the builder makes of rows that are exactly the selection. */
  lemma SelectedPlan(input: ReassignInput, rows: seq<Id>, scorers: seq<Id>, ids: seq<Id>)
    requires ValidReassign(input) && Distinct(rows) && Distinct(scorers) && multiset(ids) == multiset(rows)
    requires |rows| == |Uniques(input.videoIds)|
    requires forall id :: id in rows <==> id in input.videoIds && id != NIL
    requires forall id :: id in scorers <==> id in input.scorerIds && id != NIL
    ensures
      var spread := Spread(input, ids, scorers);
      if input.mode.AverageMode? && AllNil(input.scorerIds) && !AllNil(input.videoIds) then spread == Err(DivisionByZero)
      else if input.mode.QuantityMode? && !KnownQuotas(input.quotas, input.scorerIds) then spread == Err(CountInvalid)
      else
        && spread.Ok?
        && Closing(input.videoIds, rows, spread.value) == (if NIL in input.videoIds then Some(VideoNotFound) else None)
        && (NIL !in input.videoIds ==>
              Promised(spread.value, input, rows, scorers) && forall v :: v in spread.value <==> v in input.videoIds)
  {
    ShuffledIds(rows, ids);
    NoneIffAllNil(scorers, input.scorerIds);
    NoneIffAllNil(rows, input.videoIds);
    if input.mode.QuantityMode? {
      MismatchIsUnreachable(input.quotas, scorers, |ids|);
      assert KnownQuotas(input.quotas, scorers) <==> KnownQuotas(input.quotas, input.scorerIds);
    }
    var spread := Spread(input, ids, scorers);
    if spread.Ok? {
      if input.mode.AverageMode? && scorers == [] {
        CoveredSelection(input.videoIds, rows, spread.value);
      } else {
        SpreadKeepsPromise(input, rows, ids, scorers);
        CoveredSelection(input.videoIds, rows, spread.value);
      }
    }
  }
}
