/**
 What a report says, entry by entry, told from the rubric and the raw JSON alone: which raw object speaks for
 a group or an entry, what score, status, feedback and evidence it gives, what stands in for what it leaves
 out, how the scores add up, and which raw results are refused.
 */
module ReportEntries {
  import opened Wrappers
  import opened Text
  import opened HalfPoints
  import opened Json
  import opened Scoring

  // ---- Reading raw JSON

  /** The value that counts for a key: the last one given. */
  ghost predicate ValueAt(j: Json, key: string, v: Json) {
    if j.Object? && exists i: nat :: i < |j.fields| && j.fields[i].key == key then
      exists i: nat :: i < |j.fields| && j.fields[i] == Field(key, v) && forall k: nat :: i < k < |j.fields| ==> j.fields[k].key != key
    else v == Null
  }

  /** A text that is not blank, without the white space around it. */
  ghost predicate Stripped(j: Json, text: string) {
    && j.String? && text != "" && !IsSpace(text[0]) && !IsSpace(text[|text| - 1])
    && exists lo: nat, hi: nat :: lo <= hi <= |j.s| && text == j.s[lo..hi]
         && forall i: nat :: i < lo || hi <= i < |j.s| ==> IsSpace(j.s[i])
  }

  ghost predicate Blank(j: Json) { j.String? ==> forall i: nat :: i < |j.s| ==> IsSpace(j.s[i]) }

  ghost predicate IsAnswer(raw: Json, key: string, name: string) { raw.Object? && ValueAt(raw, key, String(name)) }

  /** Who answers for a name: the last object in the list that bears it, or an empty one. */
  ghost predicate AnswersFor(list: seq<Json>, key: string, name: string, raw: Json) {
    if exists i: nat :: i < |list| && IsAnswer(list[i], key, name) then
      exists i: nat :: i < |list| && list[i] == raw && IsAnswer(list[i], key, name)
        && forall k: nat :: i < k < |list| ==> !IsAnswer(list[k], key, name)
    else raw == Object([])
  }

  predicate Refused(j: Json) { j == Bool(true) || (j.Number? && j.n != 0.0) }

  ghost predicate Ascends(at: seq<nat>) { forall i: nat, k: nat :: i < k < |at| ==> at[i] < at[k] }

  /** Each key once, where it first stands: `at` are the places. */
  ghost predicate FirstKeysAt(fields: seq<Field>, list: seq<Json>, at: seq<nat>) {
    && |at| == |list| && Ascends(at)
    && (forall i: nat :: i < |at| ==> at[i] < |fields| && list[i] == String(fields[at[i]].key))
    && (forall i: nat, k: nat :: i < |at| && k < at[i] < |fields| ==> fields[k].key != fields[at[i]].key)
    && (forall k: nat :: k < |fields| ==> String(fields[k].key) in list)
  }

  /** The texts that are not blank, stripped, in their order: `at` are their places. */
  ghost predicate TextsAt(list: seq<Json>, texts: seq<string>, at: seq<nat>) {
    && |at| == |texts| && Ascends(at)
    && (forall i: nat :: i < |at| ==> at[i] < |list| && Stripped(list[at[i]], texts[i]))
    && (forall k: nat :: k < |list| ==> k in at || Blank(list[k]))
  }

  ghost predicate FirstKeys(fields: seq<Field>, list: seq<Json>) { exists at :: FirstKeysAt(fields, list, at) }

  ghost predicate TextsIn(list: seq<Json>, texts: seq<string>) { exists at :: TextsAt(list, texts, at) }

  ghost predicate Visits(j: Json, list: seq<Json>) {
    && !Refused(j) && (j.List? ==> list == j.elements)
    && (j.Null? || j.Bool? || j.Number? ==> list == [])
    && (j.String? ==> |list| == |j.s| && forall i :: 0 <= i < |list| ==> list[i] == String([j.s[i]]))
    && (j.Object? ==> FirstKeys(j.fields, list))
  }

  lemma {:induction false} LookupIsLast(fields: seq<Field>, key: string)
    ensures ValueAt(Object(fields), key, Lookup(fields, key))
    decreases |fields|
  {
    var j := Object(fields);
    if fields != [] {
      var n := |fields| - 1;
      if fields[n].key == key {
        assert j.fields[n] == Field(key, Lookup(fields, key));
      } else {
        var front := Object(fields[..n]);
        LookupIsLast(fields[..n], key);
        if i: nat :| i < |j.fields| && j.fields[i].key == key {
          assert front.fields[i].key == key;
          var m: nat :| m < |front.fields| && front.fields[m] == Field(key, Lookup(fields[..n], key)) &&
            forall k: nat :: m < k < |front.fields| ==> front.fields[k].key != key;
          assert j.fields[m] == Field(key, Lookup(fields, key));
          forall k: nat | m < k < |j.fields| ensures j.fields[k].key != key {
            assert k < n ==> front.fields[k].key != key;
          }
        } else {
          assert forall i: nat :: i < n ==> front.fields[i] == j.fields[i];
        }
      }
    }
  }

  lemma GetIsValueAt(j: Json, key: string)
    ensures ValueAt(j, key, Get(j, key))
  {
    if j.Object? {
      LookupIsLast(j.fields, key);
      assert Object(j.fields) == j;
    }
  }

  lemma ValueIsGet(j: Json, key: string, v: Json)
    requires ValueAt(j, key, v)
    ensures v == Get(j, key)
  {
    GetIsValueAt(j, key);
    if j.Object? {
      if i: nat :| i < |j.fields| && j.fields[i].key == key {
        var m: nat :| m < |j.fields| && j.fields[m] == Field(key, v) && forall k: nat :: m < k < |j.fields| ==> j.fields[k].key != key;
        var p: nat :| p < |j.fields| && j.fields[p] == Field(key, Get(j, key)) && forall k: nat :: p < k < |j.fields| ==> j.fields[k].key != key;
        assert m == p;
      }
    }
  }

  lemma {:induction false} MatchAnswers(list: seq<Json>, key: string, name: string)
    ensures AnswersFor(list, key, name, LastMatch(list, key, name))
    decreases |list|
  {
    if list != [] {
      var n := |list| - 1;
      var front := list[..n];
      GetIsValueAt(list[n], key);
      if list[n].Object? && Get(list[n], key) == String(name) {
        assert IsAnswer(list[n], key, name);
      } else {
        assert !IsAnswer(list[n], key, name) by {
          if IsAnswer(list[n], key, name) { ValueIsGet(list[n], key, String(name)); }
        }
        MatchAnswers(front, key, name);
        assert forall i: nat :: i < n ==> front[i] == list[i];
        if i: nat :| i < |front| && IsAnswer(front[i], key, name) {
          var m: nat :| m < |front| && front[m] == LastMatch(front, key, name) && IsAnswer(front[m], key, name) &&
            forall k: nat :: m < k < |front| ==> !IsAnswer(front[k], key, name);
          assert list[m] == LastMatch(list, key, name);
          forall k: nat | m < k < |list| ensures !IsAnswer(list[k], key, name) {
            assert k < n ==> front[k] == list[k];
          }
        } else {
          forall i: nat | i < |list| ensures !IsAnswer(list[i], key, name) {
            assert i < n ==> front[i] == list[i];
          }
        }
      }
    }
  }

  lemma {:induction false} KeysAreFirst(fields: seq<Field>) returns (at: seq<nat>)
    ensures FirstKeysAt(fields, Keys(fields), at)
    decreases |fields|
  {
    hide FirstKeysAt;
    if fields == [] {
      at := [];
      assert fields == [] && Keys(fields) == [];
      NoKeys();
    } else {
      var n := |fields| - 1;
      at := KeysAreFirst(fields[..n]);
      if i :| 0 <= i < n && fields[i].key == fields[n].key {
        assert Keys(fields) == Keys(fields[..n]);
        KnownKey(fields, Keys(fields[..n]), at);
      } else {
        assert Keys(fields) == Keys(fields[..n]) + [String(fields[n].key)];
        NewKey(fields, Keys(fields[..n]), at);
        at := at + [n];
      }
    }
  }

  lemma NoKeys()
    ensures FirstKeysAt([], [], [])
  {
  }

  lemma KnownKey(fields: seq<Field>, list: seq<Json>, at: seq<nat>)
    requires fields != [] && FirstKeysAt(fields[..|fields| - 1], list, at)
    requires exists i :: 0 <= i < |fields| - 1 && fields[i].key == fields[|fields| - 1].key
    ensures FirstKeysAt(fields, list, at)
  {
    var n := |fields| - 1;
    var front := fields[..n];
    assert forall k: nat :: k < n ==> fields[k] == front[k];
    var i :| 0 <= i < n && fields[i].key == fields[n].key;
    assert String(front[i].key) in list;
  }

  lemma NewKey(fields: seq<Field>, list: seq<Json>, at: seq<nat>)
    requires fields != [] && FirstKeysAt(fields[..|fields| - 1], list, at)
    requires forall i :: 0 <= i < |fields| - 1 ==> fields[i].key != fields[|fields| - 1].key
    ensures FirstKeysAt(fields, list + [String(fields[|fields| - 1].key)], at + [|fields| - 1])
  {
    var n := |fields| - 1;
    var front := fields[..n];
    assert forall k: nat :: k < n ==> fields[k] == front[k];
    forall k: nat | k < |fields| ensures String(fields[k].key) in list + [String(fields[n].key)] {
      if k < n { assert String(front[k].key) in list; }
    }
  }

  lemma {:induction false} TextsAreIn(list: seq<Json>) returns (at: seq<nat>)
    ensures TextsAt(list, Texts(list), at)
    decreases |list|
  {
    hide TextOf, TextsAt;
    if list == [] {
      at := [];
      NoTexts();
    } else {
      var n := |list| - 1;
      at := TextsAreIn(list[..n]);
      TextIsStripped(list[n]);
      OneMoreText(list, Texts(list[..n]), at, TextOf(list[n]));
      if TextOf(list[n]).Some? {
        at := at + [n];
      } else {
        assert Texts(list) == Texts(list[..n]);
      }
    }
  }

  lemma NoTexts()
    ensures TextsAt([], [], [])
  {
  }

  lemma OneMoreText(list: seq<Json>, texts: seq<string>, at: seq<nat>, text: Option<string>)
    requires list != [] && TextsAt(list[..|list| - 1], texts, at)
    requires if text.Some? then Stripped(list[|list| - 1], text.value) else Blank(list[|list| - 1])
    ensures text.Some? ==> TextsAt(list, texts + [text.value], at + [|list| - 1])
    ensures text.None? ==> TextsAt(list, texts, at)
  {
    hide Stripped, Blank;
    var n := |list| - 1;
    var front := list[..n];
    assert forall k: nat :: k < n ==> list[k] == front[k];
    forall k: nat | k < |list| ensures k in at + [n] || Blank(list[k]) {
      if k < n { assert k in at || Blank(front[k]); }
    }
  }

  lemma ElementsVisit(j: Json)
    ensures Elements(j).Err? <==> Refused(j)
    ensures Elements(j).Ok? ==> Visits(j, Elements(j).value)
  {
    if j.Object? { var at := KeysAreFirst(j.fields); }
  }

  lemma TextIsStripped(j: Json)
    ensures TextOf(j).None? <==> Blank(j)
    ensures TextOf(j).Some? ==> Stripped(j, TextOf(j).value)
  {
    if j.String? {
      var lo, hi := TrimKeepsTheMiddle(IsSpace, j.s);
      var text := Trim(IsSpace, j.s);
      assert text == j.s[lo..hi];
      if text != "" {
        assert j.s[lo] == text[0];
      }
    }
  }

  // ---- Scores

  /** The nearest multiple of a half, or of a hundredth; of two equally near the even multiple. */
  ghost predicate NearestHalf(x: real, r: real) { exists k: int :: IsRounded(Halves(x), k) && r == k as real / 2.0 }

  ghost predicate NearestCent(x: real, r: real) { exists k: int :: IsRounded(Cents(x), k) && r == k as real / 100.0 }

  function Halves(x: real): real { x * 2.0 }

  function Cents(x: real): real { x * 100.0 }

  predicate IsRounded(x: real, k: int) {
    x - 0.5 <= k as real <= x + 0.5 && (x - k as real == 0.5 || k as real - x == 0.5 ==> k % 2 == 0)
  }

  /** A number made a score: kept between zero and the full score, and brought to the half point. */
  ghost predicate IsScore(number: real, full: real, score: real) {
    if full <= 0.0 then score == 0.0
    else
      var kept := if number < 0.0 then 0.0 else if number > full then full else number;
      exists half :: NearestHalf(kept, half) && score == if half > full then full else half
  }

  lemma QuantizedIsScore(number: real, full: real)
    ensures IsScore(number, full, QuantizeHalf(number, full))
    ensures IsScore(number, full, QuantizeHalf(Clamp(number, 0.0, full), full))
  {
    var c := Clamp(number, 0.0, full);
    var k := RoundEven(c * 2.0);
    assert IsRounded(Halves(c), k);
    assert NearestHalf(c, k as real / 2.0);
  }

  lemma Round2IsNearest(x: real)
    ensures NearestCent(x, Round2(x))
  {
    assert IsRounded(Cents(x), RoundEven(Cents(x)));
  }

  ghost predicate SharedScore(share: real, full: real, score: real) {
    exists cents :: NearestCent(share, cents) && IsScore(cents, full, score)
  }

  /** A number is scored, and where there is none the fixture's share of the full score, in cents. */
  ghost predicate ScoreTells(ratio: real, full: real, raw: Json, score: real) {
    match raw
    case Number(n) => IsScore(n, full, score)
    case Bool(b) => IsScore(if b then 1.0 else 0.0, full, score)
    case _ => SharedScore(Share(full, ratio), full, score)
  }

  lemma ScoreIsTold(ratio: real, full: real, raw: Json)
    ensures ScoreTells(ratio, full, raw, ScoreOf(ratio, full, raw))
  {
    hide QuantizeHalf, Round2, IsScore, NearestCent, Clamp, Share;
    Round2IsNearest(Share(full, ratio));
    QuantizedIsScore(Round2(Share(full, ratio)), full);
    match raw {
      case Number(n) => QuantizedIsScore(n, full);
      case Bool(b) => QuantizedIsScore(if b then 1.0 else 0.0, full);
      case _ =>
    }
  }

  // ---- One entry

  /** The status given, or one by the share reached: an error below 65 percent, fine from 85 percent on. */
  ghost predicate StatusTells(score: real, full: real, raw: Json, status: string) {
    if Blank(raw) then
      && (status == "error" <==> score < full * 0.65)
      && (status == "ok" <==> full * 0.85 <= score && full * 0.65 <= score)
      && (status == "warning" <==> full * 0.65 <= score < full * 0.85)
    else Stripped(raw, status)
  }

  ghost predicate FeedbackTells(raw: Json, feedback: string) {
    if Blank(raw) then feedback == "" else Stripped(raw, feedback)
  }

  /** The evidence is an object's texts under its two keys, if there are any. */
  ghost predicate EvidenceTells(raw: Json, evidence: Option<Evidence>) {
    if raw.Object? then
      && Elements(Get(raw, "times")).Ok? && Elements(Get(raw, "screenshots")).Ok?
      && var times, screenshots := if evidence.Some? then evidence.value.times else [],
                                   if evidence.Some? then evidence.value.screenshots else [];
         && TextsIn(Elements(Get(raw, "times")).value, times)
         && TextsIn(Elements(Get(raw, "screenshots")).value, screenshots)
         && (evidence.Some? <==> times != [] || screenshots != [])
    else evidence == None
  }

  /** An entry, told from the sub item, its place, and the raw object that answers for it. */
  ghost predicate EntryTells(fix: Fixture, title: string, j: nat, sub: RubricSub, raw: Json, item: DetailItem) {
    && item.subtitle == (if sub.requirement == "" then "子项" + Decimal(j + 1) else sub.requirement)
    && item.fullScore == sub.score
    && ScoreTells(fix.ratio(title, item.subtitle), sub.score, Get(raw, "aiScore"), item.aiScore)
    && StatusTells(item.aiScore, sub.score, Get(raw, "status"), item.status)
    && FeedbackTells(Get(raw, "feedback"), item.feedback)
    && EvidenceTells(Get(raw, "evidence"), item.evidence)
  }

  lemma TextsAreTold(score: real, full: real, raw: Json)
    ensures StatusTells(score, full, raw, StatusOf(score, full, raw))
    ensures FeedbackTells(raw, FeedbackOf(raw))
  {
    TextIsStripped(raw);
    hide Blank, Stripped, TextOf;
    assert "error" != "ok" && "ok" != "warning" && "error" != "warning" by {
      assert |"ok"| == 2 && "error"[0] != "warning"[0];
    }
  }

  lemma EvidenceIsTold(raw: Json)
    requires EvidenceOf(raw).Ok?
    ensures EvidenceTells(raw, EvidenceOf(raw).value)
  {
    hide TextsAt, Texts, Get, Elements;
    if raw.Object? {
      var i := TextsAreIn(Elements(Get(raw, "times")).value);
      var k := TextsAreIn(Elements(Get(raw, "screenshots")).value);
    }
  }

  lemma EntryIsTold(fix: Fixture, title: string, j: nat, sub: RubricSub, raw: Json)
    requires BuildItem(fix, title, j, sub, raw).Ok?
    ensures EntryTells(fix, title, j, sub, raw, BuildItem(fix, title, j, sub, raw).value)
  {
    hide ScoreOf, ScoreTells, StatusOf, StatusTells, FeedbackOf, FeedbackTells, EvidenceOf, EvidenceTells, Get, Decimal;
    var item := BuildItem(fix, title, j, sub, raw).value;
    ScoreIsTold(fix.ratio(title, item.subtitle), sub.score, Get(raw, "aiScore"));
    TextsAreTold(item.aiScore, sub.score, Get(raw, "status"));
    TextsAreTold(item.aiScore, sub.score, Get(raw, "feedback"));
    EvidenceIsTold(Get(raw, "evidence"));
  }

  // ---- Sums

  ghost predicate RunningSums(values: seq<real>, sums: seq<real>) {
    |sums| == |values| + 1 && sums[0] == 0.0 && forall i: nat :: i < |values| ==> sums[i + 1] == sums[i] + values[i]
  }

  ghost predicate AddsUp(values: seq<real>, total: real) {
    exists sums :: RunningSums(values, sums) && sums[|values|] == total
  }

  function EntryScores(items: seq<DetailItem>): seq<real> {
    seq(|items|, i requires 0 <= i < |items| => items[i].aiScore)
  }

  function GroupScores(groups: seq<DetailGroup>): seq<real> {
    seq(|groups|, i requires 0 <= i < |groups| => groups[i].aiScore)
  }

  lemma NothingAddsUp()
    ensures AddsUp([], 0.0)
  {
    assert RunningSums([], [0.0]);
  }

  lemma OneMoreAddsUp(values: seq<real>, total: real, value: real)
    requires AddsUp(values, total)
    ensures AddsUp(values + [value], total + value)
  {
    var sums :| RunningSums(values, sums) && sums[|values|] == total;
    assert RunningSums(values + [value], sums + [total + value]);
  }

  lemma {:induction false} EntriesAddUp(items: seq<DetailItem>)
    ensures AddsUp(EntryScores(items), SumItems(items))
    decreases |items|
  {
    hide AddsUp;
    if items == [] {
      NothingAddsUp();
    } else {
      var n := |items| - 1;
      EntriesAddUp(items[..n]);
      OneMoreAddsUp(EntryScores(items[..n]), SumItems(items[..n]), items[n].aiScore);
      assert EntryScores(items) == EntryScores(items[..n]) + [items[n].aiScore];
    }
  }

  lemma {:induction false} GroupsAddUp(groups: seq<DetailGroup>)
    ensures AddsUp(GroupScores(groups), SumGroups(groups))
    decreases |groups|
  {
    hide AddsUp;
    if groups == [] {
      NothingAddsUp();
    } else {
      var n := |groups| - 1;
      GroupsAddUp(groups[..n]);
      OneMoreAddsUp(GroupScores(groups[..n]), SumGroups(groups[..n]), groups[n].aiScore);
      assert GroupScores(groups) == GroupScores(groups[..n]) + [groups[n].aiScore];
    }
  }

  // ---- Groups

  function RawEntries(list: seq<Json>, title: string): Result<seq<Json>, JsonError> {
    Elements(Get(LastMatch(list, "title", title), "items"))
  }

  ghost predicate SummedScore(scores: seq<real>, full: real, score: real) {
    exists total :: AddsUp(scores, total) && IsScore(total, full, score)
  }

  /** A group, told from the rubric item, its place, and the raw groups. A raw group's own score plays no part. */
  ghost predicate GroupTells(fix: Fixture, k: nat, item: RubricItem, list: seq<Json>, group: DetailGroup) {
    && group.title == (if item.name == "" then "评分项" + Decimal(k + 1) else item.name)
    && group.fullScore == item.score
    && SummedScore(EntryScores(group.items), item.score, group.aiScore)
    && var raws := RawEntries(list, group.title);
       raws.Ok? && EntriesTell(fix, group.title, item.subItems, raws.value, group.items)
  }

  ghost predicate EntriesTell(
    fix: Fixture, title: string, subs: seq<RubricSub>, raws: seq<Json>, items: seq<DetailItem>)
  {
    |items| == |subs| && forall j: nat :: j < |subs| ==>
      EntryTells(fix, title, j, subs[j], LastMatch(raws, "subtitle", items[j].subtitle), items[j])
  }

  ghost predicate GroupsTell(fix: Fixture, items: seq<RubricItem>, raw: Json, groups: seq<DetailGroup>) {
    |groups| == |items| && forall k: nat :: k < |items| ==>
      GroupTells(fix, k, items[k], if raw.List? then raw.elements else [], groups[k])
  }

  lemma EntriesAreTold(fix: Fixture, title: string, subs: seq<RubricSub>, raws: seq<Json>)
    requires BuildItems(fix, title, subs, |subs|, raws).Ok?
    ensures EntriesTell(fix, title, subs, raws, BuildItems(fix, title, subs, |subs|, raws).value)
  {
    hide BuildItems, EntryTells, LastMatch, BuildItem, ItemAligned;
    var items := BuildItems(fix, title, subs, |subs|, raws).value;
    ItemsAlign(fix, title, subs, |subs|, raws);
    forall j: nat | j < |subs|
      ensures EntryTells(fix, title, j, subs[j], LastMatch(raws, "subtitle", items[j].subtitle), items[j])
    {
      ItemAt(fix, title, subs, |subs|, raws, j);
      EntryIsTold(fix, title, j, subs[j], LastMatch(raws, "subtitle", Subtitle(j, subs[j])));
      assert ItemAligned(j, subs[j], items[j]);
      ItemNamed(j, subs[j], items[j]);
    }
  }

  lemma ItemNamed(j: nat, sub: RubricSub, item: DetailItem)
    requires ItemAligned(j, sub, item)
    ensures item.subtitle == Subtitle(j, sub)
  {
  }

  lemma GroupIsTold(fix: Fixture, k: nat, item: RubricItem, list: seq<Json>)
    requires BuildGroup(fix, k, item, LastMatch(list, "title", Title(k, item))).Ok?
    ensures GroupTells(fix, k, item, list, BuildGroup(fix, k, item, LastMatch(list, "title", Title(k, item))).value)
  {
    hide EntriesTell, BuildItems, LastMatch, QuantizeHalf, SumItems, Elements, Get, IsScore, AddsUp, Decimal;
    var raws := RawEntries(list, Title(k, item)).value;
    var items := BuildItems(fix, Title(k, item), item.subItems, |item.subItems|, raws).value;
    EntriesAreTold(fix, Title(k, item), item.subItems, raws);
    EntriesAddUp(items);
    QuantizedIsScore(SumItems(items), item.score);
    assert SummedScore(EntryScores(items), item.score, QuantizeHalf(SumItems(items), item.score));
  }

  lemma GroupsAreTold(fix: Fixture, items: seq<RubricItem>, raw: Json)
    requires items != [] && Details(fix, items, raw).Ok?
    ensures GroupsTell(fix, items, raw, Details(fix, items, raw).value)
  {
    hide BuildGroups, BuildGroup, GroupTells, LastMatch, Title, GroupAligned;
    var list := ListOf(raw);
    GroupsAlign(fix, items, |items|, list);
    forall k: nat | k < |items| ensures GroupTells(fix, k, items[k], list, BuildGroups(fix, items, |items|, list).value[k]) {
      GroupAt(fix, items, |items|, list, k);
      GroupIsTold(fix, k, items[k], list);
    }
  }

  // ---- What is refused

  ghost predicate EntryRefused(raw: Json) {
    var evidence := Get(raw, "evidence");
    evidence.Object? && (Refused(Get(evidence, "times")) || Refused(Get(evidence, "screenshots")))
  }

  ghost predicate GroupRefused(k: nat, item: RubricItem, list: seq<Json>) {
    var raws := RawEntries(list, Title(k, item));
    if raws.Err? then true
    else exists j: nat :: j < |item.subItems| && EntryRefused(LastMatch(raws.value, "subtitle", Subtitle(j, item.subItems[j])))
  }

  ghost predicate DetailsRefused(items: seq<RubricItem>, raw: Json) {
    exists k: nat :: k < |items| && GroupRefused(k, items[k], if raw.List? then raw.elements else [])
  }

  lemma EntryRefusedIff(fix: Fixture, title: string, j: nat, sub: RubricSub, raw: Json)
    ensures BuildItem(fix, title, j, sub, raw).Err? <==> EntryRefused(raw)
  {
    hide ScoreOf, StatusOf, FeedbackOf, Texts;
  }

  lemma {:induction false} EntriesRefusedIff(fix: Fixture, title: string, subs: seq<RubricSub>, n: nat, raws: seq<Json>)
    requires n <= |subs|
    ensures BuildItems(fix, title, subs, n, raws).Err? <==>
              exists j: nat :: j < n && EntryRefused(LastMatch(raws, "subtitle", Subtitle(j, subs[j])))
    decreases n
  {
    hide BuildItem, LastMatch, Subtitle, EntryRefused;
    if n > 0 {
      EntriesRefusedIff(fix, title, subs, n - 1, raws);
      EntryRefusedIff(fix, title, n - 1, subs[n - 1], LastMatch(raws, "subtitle", Subtitle(n - 1, subs[n - 1])));
    }
  }

  lemma GroupRefusedIff(fix: Fixture, k: nat, item: RubricItem, list: seq<Json>)
    ensures BuildGroup(fix, k, item, LastMatch(list, "title", Title(k, item))).Err? <==> GroupRefused(k, item, list)
  {
    hide BuildItems, LastMatch, Title, Subtitle, Get, Elements, QuantizeHalf, SumItems, EntryRefused;
    var raws := RawEntries(list, Title(k, item));
    if raws.Ok? {
      EntriesRefusedIff(fix, Title(k, item), item.subItems, |item.subItems|, raws.value);
    }
  }

  lemma {:induction false} GroupsRefusedIff(fix: Fixture, items: seq<RubricItem>, n: nat, list: seq<Json>)
    requires n <= |items|
    ensures BuildGroups(fix, items, n, list).Err? <==> exists k: nat :: k < n && GroupRefused(k, items[k], list)
    decreases n
  {
    hide BuildGroup, LastMatch, Title, GroupRefused;
    if n > 0 {
      GroupsRefusedIff(fix, items, n - 1, list);
      GroupRefusedIff(fix, n - 1, items[n - 1], list);
    }
  }

  lemma NothingIsRefused(items: seq<RubricItem>)
    ensures !DetailsRefused(items, Null)
  {
  }

  // ---- The whole report

  ghost predicate TotalTells(groups: seq<DetailGroup>, max: real, score: real) {
    exists total, cents :: AddsUp(GroupScores(groups), total) && NearestCent(total, cents)
      && score == if cents > max then max else cents
  }

  /** Without a rubric: one group of one entry at the fixture's overall score. */
  ghost predicate IsFallback(fix: Fixture, details: seq<DetailGroup>) {
    && |details| == 1 && details[0].title == "默认评估项" && details[0].fullScore == 100.0
    && NearestCent(fix.overall, details[0].aiScore)
    && |details[0].items| == 1 && details[0].items[0].subtitle == "综合评分"
    && details[0].items[0].fullScore == 100.0 && details[0].items[0].aiScore == details[0].aiScore
    && details[0].items[0].status == "ok" && details[0].items[0].evidence == None
  }

  ghost predicate DetailsTell(fix: Fixture, items: seq<RubricItem>, raw: Json, details: seq<DetailGroup>) {
    if items == [] then IsFallback(fix, details) else GroupsTell(fix, items, raw, details)
  }

  /** The details asked for and their total; unless the total is not positive and could have been, when the
      details are those of no raw result. */
  ghost predicate ReportTells(fix: Fixture, rubric: Rubric, raw: Json, report: Report) {
    && report.maxScore == (if rubric.totalScore == 0.0 then 100.0 else rubric.totalScore)
    && TotalTells(report.details, report.maxScore, report.score)
    && exists asked, score ::
         && DetailsTell(fix, rubric.items, Get(raw, "details"), asked) && TotalTells(asked, report.maxScore, score)
         && (if score <= 0.0 < report.maxScore then DetailsTell(fix, rubric.items, Null, report.details)
             else report.details == asked)
  }

  lemma NoRubric(fix: Fixture, raw: Json)
    ensures Details(fix, [], raw) == Ok(Fallback(fix))
  {
  }

  lemma DetailsAreTold(fix: Fixture, items: seq<RubricItem>, raw: Json)
    ensures Details(fix, items, raw).Err? <==> DetailsRefused(items, raw)
    ensures Details(fix, items, raw).Ok? ==> DetailsTell(fix, items, raw, Details(fix, items, raw).value)
  {
    hide BuildGroups, GroupsTell, GroupRefused, NearestCent, Round2;
    GroupsRefusedIff(fix, items, |items|, ListOf(raw));
    if items == [] {
      Round2IsNearest(fix.overall);
      NoRubric(fix, raw);
    } else if Details(fix, items, raw).Ok? {
      GroupsAreTold(fix, items, raw);
    }
  }

  lemma TotalIsTold(groups: seq<DetailGroup>, max: real)
    ensures TotalTells(groups, max, Total(groups, max))
  {
    hide AddsUp, NearestCent, Round2;
    GroupsAddUp(groups);
    Round2IsNearest(SumGroups(groups));
  }

  /** The report of every raw result, and exactly which raw results have none. */
  lemma ReportIsTold(fix: Fixture, rubric: Rubric, raw: Json)
    ensures Normalise(fix, rubric, raw).Err? <==> !raw.Object? || DetailsRefused(rubric.items, Get(raw, "details"))
    ensures Normalise(fix, rubric, raw).Ok? ==> ReportTells(fix, rubric, raw, Normalise(fix, rubric, raw).value)
  {
    hide Details, DetailsRefused, DetailsTell, Total, TotalTells, Get;
    var asked := Details(fix, rubric.items, Get(raw, "details"));
    DetailsAreTold(fix, rubric.items, Get(raw, "details"));
    DetailsAreTold(fix, rubric.items, Null);
    NothingIsRefused(rubric.items);
    if asked.Ok? {
      TotalIsTold(asked.value, TotalMax(rubric));
      TotalIsTold(Details(fix, rubric.items, Null).value, TotalMax(rubric));
    }
  }

  // ---- The numbers in stand-in names

  function Digit(c: char): (r: int)
    ensures '0' <= c <= '9' <==> 0 <= r < 10
  {
    c as int - '0' as int
  }

  /** The number that a row of digits writes. */
  function Written(s: string): int {
    if s == "" then 0 else 10 * Written(s[..|s| - 1]) + Digit(s[|s| - 1])
  }

  lemma DigitsCount(k: nat)
    requires k < 10
    ensures Digit("0123456789"[k]) == k
  {
  }

  lemma OneMoreDigit(s: string, c: char)
    ensures Written(s + [c]) == 10 * Written(s) + Digit(c)
  {
    assert (s + [c])[..|s|] == s;
  }

  lemma {:induction false} DecimalIsWritten(n: nat)
    ensures Written(Decimal(n)) == n && Decimal(n) != ""
    ensures forall i :: 0 <= i < |Decimal(n)| ==> '0' <= Decimal(n)[i] <= '9'
    ensures n > 0 ==> Decimal(n)[0] != '0'
  {
    hide Written, Digit;
    var c := "0123456789"[n % 10];
    DigitsCount(n % 10);
    assert '0' <= c <= '9' && (c == '0' ==> n % 10 == 0) by { DigitsAreDigits(n % 10); }
    if n >= 10 {
      DecimalIsWritten(n / 10);
      OneMoreDigit(Decimal(n / 10), c);
    } else {
      OneMoreDigit("", c);
      assert Decimal(n) == "" + [c];
      NothingWritten();
    }
  }

  lemma DigitsAreDigits(k: nat)
    requires k < 10
    ensures '0' <= "0123456789"[k] <= '9' && ("0123456789"[k] == '0' ==> k == 0)
  {
  }

  lemma NothingWritten()
    ensures Written("") == 0
  {
  }
}
