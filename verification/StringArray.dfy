/**
 The text column that stores a list of strings: printing it as a brace literal and reading it back. Texts are
 sequences of Unicode characters.
 */
module StringArray {
  import opened Text
  import opened Wrappers

  datatype Error = UnsupportedFormat | MalformedLiteral | MalformedJson | UnsupportedSource

  // ---- White space and the null word

  predicate IsSpace(c: char) {
    || '\t' <= c <= '\r' || c == ' ' || c == '\U{0085}' || c == '\U{00A0}'
    || c == '\U{1680}' || '\U{2000}' <= c <= '\U{200A}' || c == '\U{2028}' || c == '\U{2029}'
    || c == '\U{202F}' || c == '\U{205F}' || c == '\U{3000}'
  }

  function TrimSpace(s: string): string { Trim(IsSpace, s) }

  predicate EqualFoldNull(s: string) {
    |s| == 4 && s[0] in "Nn" && s[1] in "Uu" && s[2] in "Ll" && s[3] in "Ll"
  }

  /** What reading does to an element: trimmed, and the word NULL in any case becomes empty. */
  function Clean(item: string): (r: string)
    ensures Plain(r)
    ensures r == item <==> Plain(item)
  {
    var trimmed := TrimSpace(item);
    if EqualFoldNull(trimmed) then "" else trimmed
  }

  /** An element with no white space at its ends that is not the word NULL. */
  predicate Plain(item: string) { Trimmed(IsSpace, item) && !EqualFoldNull(item) }

  function CleanAll(items: seq<string>): (r: seq<string>)
    ensures |r| == |items| && forall i :: 0 <= i < |items| ==> r[i] == Clean(items[i])
  {
    seq(|items|, i requires 0 <= i < |items| => Clean(items[i]))
  }

  // ---- Escaping

  function ReplaceAll(s: string, target: char, replacement: string): string {
    if s == "" then ""
    else ReplaceAll(s[..|s| - 1], target, replacement) + if s[|s| - 1] == target then replacement else [s[|s| - 1]]
  }

  /** Backslashes doubled, then quotes prefixed: two passes over the text. */
  function EscapeArrayElement(value: string): string {
    ReplaceAll(ReplaceAll(value, '\\', "\\\\"), '\"', "\\\"")
  }

  /** One pass: a backslash before every backslash and every quote. */
  function EscapeEach(value: string): string {
    if value == "" then ""
    else EscapeEach(value[..|value| - 1]) + EscapeChar(value[|value| - 1])
  }

  function EscapeChar(c: char): string { if c == '\\' || c == '\"' then ['\\', c] else [c] }

  lemma ReplaceAllEnds(init: string, c: char, target: char, replacement: string)
    ensures ReplaceAll(init + [c], target, replacement) ==
              ReplaceAll(init, target, replacement) + if c == target then replacement else [c]
  {
    assert (init + [c])[..|init|] == init;
  }

  lemma {:induction false} ReplaceAllOfSum(a: string, b: string, target: char, replacement: string)
    ensures ReplaceAll(a + b, target, replacement) == ReplaceAll(a, target, replacement) + ReplaceAll(b, target, replacement)
    decreases |b|
  {
    if b == "" {
      assert a + b == a;
    } else {
      hide ReplaceAll;
      var init, c := b[..|b| - 1], b[|b| - 1];
      assert b == init + [c] && a + b == (a + init) + [c];
      ReplaceAllOfSum(a, init, target, replacement);
      ReplaceAllEnds(a + init, c, target, replacement);
      ReplaceAllEnds(init, c, target, replacement);
    }
  }

  /** The second pass leaves alone what the first one wrote, so the two passes are one. */
  lemma {:induction false} TwoPassesAreOne(value: string)
    ensures EscapeArrayElement(value) == EscapeEach(value)
    decreases |value|
  {
    if value != "" {
      var init, c := value[..|value| - 1], value[|value| - 1];
      TwoPassesAreOne(init);
      var first := if c == '\\' then "\\\\" else [c];
      ReplaceAllOfSum(ReplaceAll(init, '\\', "\\\\"), first, '\"', "\\\"");
      assert ReplaceAll("", '\"', "\\\"") == "";
      if c == '\\' {
        assert "\\\\"[..1] == "\\" && "\\"[..0] == "";
      } else {
        assert [c][..0] == "";
      }
      assert ReplaceAll(first, '\"', "\\\"") == EscapeChar(c);
    }
  }

  // ---- Printing

  function Quoted(item: string): string { "\"" + EscapeArrayElement(item) + "\"" }

  function Body(items: seq<string>): string {
    if items == [] then ""
    else
      var n := |items| - 1;
      Body(items[..n]) + (if n > 0 then "," else "") + Quoted(items[n])
  }

  function Print(items: seq<string>): string { "{" + Body(items) + "}" }

  // ---- Reading

  datatype Scanner = Scanner(result: seq<string>, current: string, inQuotes: bool, escaped: bool)

  const START := Scanner([], "", false, false)

  function Eat(s: Scanner, r: char): Scanner {
    if s.escaped then s.(current := s.current + [r], escaped := false)
    else if r == '\\' then s.(escaped := true)
    else if r == '\"' then s.(inQuotes := !s.inQuotes)
    else if r == ',' && !s.inQuotes then s.(result := s.result + [s.current], current := "")
    else s.(current := s.current + [r])
  }

  function EatAll(s: Scanner, content: string): Scanner {
    if content == "" then s else Eat(EatAll(s, content[..|content| - 1]), content[|content| - 1])
  }

  /** What the text between the braces splits into, before cleaning. */
  function Split(content: string): Result<seq<string>, Error> {
    if content == "" then Ok([])
    else
      var s := EatAll(START, content);
      if s.escaped || s.inQuotes then Err(MalformedLiteral) else Ok(s.result + [s.current])
  }

  predicate IsLiteral(s: string) { |s| >= 2 && s[0] == '{' && s[|s| - 1] == '}' }

  function FromJson(read: Option<seq<string>>): Result<seq<string>, Error> {
    match read case None => Err(MalformedJson) case Some(items) => Ok(items)
  }

  /** `json` reads a list of strings from JSON text, if it is one. */
  function Parse(raw: string, json: string -> Option<seq<string>>): Result<seq<string>, Error> {
    var s := TrimSpace(raw);
    if s == "" then Ok([])
    else if s[0] == '[' then FromJson(json(s))
    else if !IsLiteral(s) then Err(UnsupportedFormat)
    else
      match Split(s[1..|s| - 1])
      case Err(e) => Err(e)
      case Ok(items) => Ok(CleanAll(items))
  }

  // ---- Which literals are malformed

  /** How many backslashes the text ends with. */
  function Trailing(content: string): nat {
    if content == "" || content[|content| - 1] != '\\' then 0 else Trailing(content[..|content| - 1]) + 1
  }

  /** How many quotes there are that no backslash escapes. */
  function OpenQuotes(content: string): nat {
    if content == "" then 0
    else
      var n := |content| - 1;
      OpenQuotes(content[..n]) + if content[n] == '\"' && Trailing(content[..n]) % 2 == 0 then 1 else 0
  }

  lemma {:induction false} FlagsCount(content: string)
    ensures EatAll(START, content).escaped <==> Trailing(content) % 2 == 1
    ensures EatAll(START, content).inQuotes <==> OpenQuotes(content) % 2 == 1
    decreases |content|
  {
    if content != "" {
      FlagsCount(content[..|content| - 1]);
    }
  }

  /** The text between the braces is refused exactly when a quote is left open or a backslash has nothing to
      escape. */
  lemma MalformedIff(content: string)
    ensures Split(content).Err? <==> OpenQuotes(content) % 2 == 1 || Trailing(content) % 2 == 1
  {
    FlagsCount(content);
  }

  // ---- What a literal says, character by character

  /** The character is escaped: an odd number of backslashes stands before it. */
  predicate Escaped(content: string, i: nat)
    requires i < |content|
  {
    Trailing(content[..i]) % 2 == 1
  }

  /** An unescaped comma outside quotes. */
  predicate Separates(content: string, i: nat)
    requires i < |content|
  {
    content[i] == ',' && !Escaped(content, i) && OpenQuotes(content[..i]) % 2 == 0
  }

  /** Part of an element: escaped, or neither a backslash nor a quote nor a separating comma. */
  predicate IsKept(content: string, i: nat)
    requires i < |content|
  {
    Escaped(content, i) || (content[i] != '\\' && content[i] != '\"' && !Separates(content, i))
  }

  /** The characters from one place to another that are part of an element. */
  function KeptBetween(content: string, from: nat, to: nat): string
    requires from <= to <= |content|
  {
    if from == to then ""
    else KeptBetween(content, from, to - 1) + if IsKept(content, to - 1) then [content[to - 1]] else ""
  }

  /** The places of the separating commas before `n`, in order. */
  ghost predicate AreCuts(content: string, cuts: seq<nat>, n: nat)
    requires n <= |content|
  {
    && (forall k, l :: 0 <= k < l < |cuts| ==> cuts[k] < cuts[l])
    && (forall i :: i in cuts <==> 0 <= i < n && Separates(content, i))
  }

  function From(cuts: seq<nat>, k: nat): nat
    requires k <= |cuts|
  {
    if k == 0 then 0 else cuts[k - 1] + 1
  }

  function To(cuts: seq<nat>, k: nat, n: nat): nat
    requires k <= |cuts|
  {
    if k == |cuts| then n else cuts[k]
  }

  /** The pieces between the cuts, each without its quotes and escaping backslashes. */
  ghost predicate ArePieces(content: string, cuts: seq<nat>, items: seq<string>, n: nat)
    requires n <= |content|
  {
    && AreCuts(content, cuts, n) && |items| == |cuts| + 1
    && forall k :: 0 <= k <= |cuts| ==>
         From(cuts, k) <= To(cuts, k, n) <= n && items[k] == KeptBetween(content, From(cuts, k), To(cuts, k, n))
  }

  lemma NoCuts(content: string)
    ensures AreCuts(content, [], 0) && ArePieces(content, [], [""], 0)
  {
  }

  lemma FlagsAt(content: string, i: nat)
    requires i < |content|
    ensures Escaped(content, i) <==> EatAll(START, content[..i]).escaped
    ensures Separates(content, i) <==>
              content[i] == ',' && !EatAll(START, content[..i]).escaped && !EatAll(START, content[..i]).inQuotes
  {
    hide EatAll, Trailing, OpenQuotes;
    FlagsCount(content[..i]);
  }

  lemma CutsGrow(content: string, cuts: seq<nat>, n: nat)
    requires n < |content| && AreCuts(content, cuts, n)
    ensures AreCuts(content, if Separates(content, n) then cuts + [n] else cuts, n + 1)
  {
    hide Separates;
    var next := if Separates(content, n) then cuts + [n] else cuts;
    forall i ensures i in next <==> 0 <= i < n + 1 && Separates(content, i) {
      assert i in next <==> i in cuts || (Separates(content, n) && i == n);
    }
    forall k, l | 0 <= k < l < |next| ensures next[k] < next[l] {
      assert cuts[k] in cuts;
    }
  }

  lemma PieceEnds(content: string, cuts: seq<nat>, items: seq<string>, n: nat)
    requires n < |content| && ArePieces(content, cuts, items, n) && Separates(content, n)
    ensures ArePieces(content, cuts + [n], items + [""], n + 1)
  {
    CutsGrow(content, cuts, n);
    hide Separates, AreCuts;
    var next, more := cuts + [n], items + [""];
    forall k | 0 <= k <= |next|
      ensures From(next, k) <= To(next, k, n + 1) <= n + 1
      ensures more[k] == KeptBetween(content, From(next, k), To(next, k, n + 1))
    {
      if k <= |cuts| {
        assert From(next, k) == From(cuts, k) && To(next, k, n + 1) == To(cuts, k, n);
      }
    }
  }

  lemma PieceGrows(content: string, cuts: seq<nat>, items: seq<string>, n: nat)
    requires n < |content| && ArePieces(content, cuts, items, n) && !Separates(content, n)
    ensures
      var k, last := |cuts|, items[|cuts|];
      ArePieces(content, cuts, items[k := last + if IsKept(content, n) then [content[n]] else ""], n + 1)
  {
    CutsGrow(content, cuts, n);
    hide Separates, AreCuts, IsKept;
    var last := |cuts|;
    var more := items[last := items[last] + if IsKept(content, n) then [content[n]] else ""];
    forall k | 0 <= k <= |cuts|
      ensures From(cuts, k) <= To(cuts, k, n + 1) <= n + 1
      ensures more[k] == KeptBetween(content, From(cuts, k), To(cuts, k, n + 1))
    {
      if k < last {
        assert To(cuts, k, n + 1) == To(cuts, k, n);
      } else {
        assert From(cuts, k) <= n;
      }
    }
  }

  /** One character more. */
  lemma EatKeepsPieces(content: string, cuts: seq<nat>, n: nat) returns (next: seq<nat>)
    requires n < |content|
    requires var s := EatAll(START, content[..n]); ArePieces(content, cuts, s.result + [s.current], n)
    ensures var s := EatAll(START, content[..n + 1]); ArePieces(content, next, s.result + [s.current], n + 1)
  {
    var s := EatAll(START, content[..n]);
    FlagsAt(content, n);
    EatNext(content, n);
    hide EatAll, Escaped, Separates, ArePieces, AreCuts;
    if Separates(content, n) {
      PieceEnds(content, cuts, s.result + [s.current], n);
      next := cuts + [n];
    } else {
      PieceGrows(content, cuts, s.result + [s.current], n);
      next := cuts;
      assert (s.result + [s.current])[|cuts|] == s.current by { PiecesCount(content, cuts, s.result + [s.current], n); }
      var last := s.current + if IsKept(content, n) then [content[n]] else "";
      PiecesCount(content, cuts, s.result + [s.current], n);
      assert (s.result + [s.current])[|cuts| := last] == s.result + [last];
      assert s.current + "" == s.current;
    }
  }

  lemma PiecesCount(content: string, cuts: seq<nat>, items: seq<string>, n: nat)
    requires n <= |content| && ArePieces(content, cuts, items, n)
    ensures |items| == |cuts| + 1
  {
  }

  lemma EatNext(content: string, n: nat)
    requires n < |content|
    ensures EatAll(START, content[..n + 1]) == Eat(EatAll(START, content[..n]), content[n])
  {
    assert content[..n + 1][..n] == content[..n];
  }

  lemma {:induction false} PiecesOf(content: string, n: nat) returns (cuts: seq<nat>)
    requires n <= |content|
    ensures var s := EatAll(START, content[..n]); ArePieces(content, cuts, s.result + [s.current], n)
    decreases n
  {
    if n == 0 {
      cuts := [];
      NoCuts(content);
    } else {
      hide *;
      var before := PiecesOf(content, n - 1);
      cuts := EatKeepsPieces(content, before, n - 1);
    }
  }

  /** The text between the braces is cut at its separating commas, and each piece is its characters without the quotes
      and the backslashes that escape. */
  lemma SplitCuts(content: string)
    requires content != "" && Split(content).Ok?
    ensures exists cuts :: ArePieces(content, cuts, Split(content).value, |content|)
  {
    var cuts := PiecesOf(content, |content|);
    assert content[..|content|] == content;
  }

  // ---- Plain words between commas

  predicate PlainWord(item: string) {
    forall i :: 0 <= i < |item| ==> item[i] != ',' && item[i] != '\"' && item[i] != '\\'
  }

  function Joined(items: seq<string>): string {
    if items == [] then ""
    else
      var n := |items| - 1;
      Joined(items[..n]) + (if n > 0 then "," else "") + items[n]
  }

  lemma {:induction false} EatWord(s: Scanner, word: string)
    requires PlainWord(word) && !s.inQuotes && !s.escaped
    ensures EatAll(s, word) == s.(current := s.current + word)
    decreases |word|
  {
    if word == "" {
      assert s.current + word == s.current;
    } else {
      var n := |word| - 1;
      EatWord(s, word[..n]);
      assert s.current + word[..n] + [word[n]] == s.current + word;
    }
  }

  lemma {:induction false} EatWords(items: seq<string>)
    requires items != [] && forall i :: 0 <= i < |items| ==> PlainWord(items[i])
    ensures EatAll(START, Joined(items)) == Scanner(items[..|items| - 1], items[|items| - 1], false, false)
    decreases |items|
  {
    hide EatAll, PlainWord;
    var n := |items| - 1;
    if n == 0 {
      assert Joined(items) == items[0] by { assert Joined([]) == "" && items[..0] == []; }
      EatWord(START, items[0]);
      assert "" + items[0] == items[0];
    } else {
      var init := items[..n];
      EatWords(init);
      var s := Scanner(init[..n - 1], init[n - 1], false, false);
      assert Joined(items) == (Joined(init) + ",") + items[n];
      EatSum(START, Joined(init) + ",", items[n]);
      EatSum(START, Joined(init), ",");
      EatOne(s, ',');
      assert init[..n - 1] + [init[n - 1]] == init;
      EatWord(Scanner(init, "", false, false), items[n]);
      assert "" + items[n] == items[n];
    }
  }

  /** Words without commas, quotes and backslashes, joined by commas, split into themselves; only the single empty word
      is lost. */
  lemma WordsSplit(items: seq<string>)
    requires items != [] && forall i :: 0 <= i < |items| ==> PlainWord(items[i])
    ensures Split(Joined(items)) == if items == [""] then Ok([]) else Ok(items)
  {
    hide *;
    JoinedIsEmptyIff(items);
    EatWords(items);
    if items == [""] {
      NothingSplits();
    } else {
      SplitAtEnd(Joined(items), items[..|items| - 1], items[|items| - 1]);
      assert items == items[..|items| - 1] + [items[|items| - 1]];
    }
  }

  lemma NothingSplits()
    ensures Split("") == Ok([])
  {
  }

  lemma SplitAtEnd(content: string, result: seq<string>, current: string)
    requires content != "" && EatAll(START, content) == Scanner(result, current, false, false)
    ensures Split(content) == Ok(result + [current])
  {
    hide EatAll;
  }

  lemma JoinedIsEmptyIff(items: seq<string>)
    requires items != []
    ensures Joined(items) == "" <==> items == [""]
  {
    var n := |items| - 1;
    if n == 0 {
      assert Joined(items) == items[0] by { assert Joined([]) == "" && items[..0] == []; }
      assert items == [items[0]];
    } else {
      assert |Joined(items)| >= 1;
    }
  }

  // ---- What reading gives, from the text alone

  /** All that is cut off at both ends is white space, and none is left there. */
  ghost predicate Trims(s: string, lo: nat, hi: nat) {
    && lo <= hi <= |s| && (forall i :: 0 <= i < lo || hi <= i < |s| ==> IsSpace(s[i]))
    && (lo < hi ==> !IsSpace(s[lo]) && !IsSpace(s[hi - 1]))
  }

  /** An element as it is read: its middle, or nothing when that is the word NULL. */
  ghost predicate Cleans(item: string, r: string) {
    exists lo: nat, hi: nat :: Trims(item, lo, hi) && r == if EqualFoldNull(item[lo..hi]) then "" else item[lo..hi]
  }

  lemma TrimTrims(s: string) returns (lo: nat, hi: nat)
    ensures Trims(s, lo, hi) && TrimSpace(s) == s[lo..hi]
  {
    hide IsSpace;
    lo, hi := TrimKeepsTheMiddle(IsSpace, s);
    assert Trimmed(IsSpace, s[lo..hi]);
  }

  lemma CleanCleans(item: string)
    ensures Cleans(item, Clean(item))
  {
    var lo, hi := TrimTrims(item);
  }

  /** The content of a literal as it is read. */
  ghost predicate ReadsContent(content: string, r: Result<seq<string>, Error>) {
    if content == "" then r == Ok([])
    else if OpenQuotes(content) % 2 == 1 || Trailing(content) % 2 == 1 then r == Err(MalformedLiteral)
    else
      r.Ok? && exists cuts, items ::
        && ArePieces(content, cuts, items, |content|) && |r.value| == |items|
        && forall i :: 0 <= i < |items| ==> Cleans(items[i], r.value[i])
  }

  /** What a text gives: nothing for a blank one, JSON after an opening bracket, otherwise a literal in braces. */
  ghost predicate ReadsText(raw: string, json: string -> Option<seq<string>>, r: Result<seq<string>, Error>) {
    exists lo: nat, hi: nat ::
      && Trims(raw, lo, hi)
      && var s := raw[lo..hi];
         if lo == hi then r == Ok([])
         else if s[0] == '[' then r == if json(s).Some? then Ok(json(s).value) else Err(MalformedJson)
         else if s[0] == '{' && |s| > 1 && s[|s| - 1] == '}' then ReadsContent(s[1..|s| - 1], r)
         else r == Err(UnsupportedFormat)
  }

  lemma SplitReads(content: string)
    ensures ReadsContent(content, match Split(content) case Err(e) => Err(e) case Ok(items) => Ok(CleanAll(items)))
  {
    if content != "" {
      MalformedIff(content);
      if Split(content).Ok? {
        SplitCuts(content);
        hide ArePieces, Cleans, EatAll, Trailing, OpenQuotes, Clean;
        var items := Split(content).value;
        forall i | 0 <= i < |items| ensures Cleans(items[i], CleanAll(items)[i]) {
          CleanCleans(items[i]);
        }
      }
    } else {
      assert CleanAll([]) == [];
    }
  }

  lemma ParseReads(raw: string, json: string -> Option<seq<string>>)
    ensures ReadsText(raw, json, Parse(raw, json))
  {
    var lo, hi := TrimTrims(raw);
    assert lo <= hi <= |raw|;
    hide Trims, ReadsContent, Split, CleanAll, TrimSpace;
    var s := raw[lo..hi];
    if |s| > 1 {
      SplitReads(s[1..|s| - 1]);
    }
  }

  method SplitContent(content: string) returns (r: Result<seq<string>, Error>)
    requires content != ""
    ensures r == Split(content)
    ensures r.Ok? ==> exists cuts :: ArePieces(content, cuts, r.value, |content|)
    ensures r.Err? <==> OpenQuotes(content) % 2 == 1 || Trailing(content) % 2 == 1
  {
    MalformedIff(content);
    if Split(content).Ok? {
      SplitCuts(content);
    }
    hide ArePieces, OpenQuotes, Trailing;
    var result: seq<string>, current, inQuotes, escaped := [], "", false, false;
    for i := 0 to |content|
      invariant EatAll(START, content[..i]) == Scanner(result, current, inQuotes, escaped)
    {
      var c := content[i];
      assert content[..i + 1][..i] == content[..i];
      if escaped {
        current := current + [c];
        escaped := false;
      } else if c == '\\' {
        escaped := true;
      } else if c == '\"' {
        inQuotes := !inQuotes;
      } else if c == ',' && !inQuotes {
        result := result + [current];
        current := "";
      } else {
        current := current + [c];
      }
    }
    assert content[..|content|] == content;
    r := if escaped || inQuotes then Err(MalformedLiteral) else Ok(result + [current]);
  }

  method CleanItems(items: seq<string>) returns (result: seq<string>)
    ensures result == CleanAll(items)
  {
    result := items;
    for i := 0 to |result|
      invariant |result| == |items|
      invariant forall j :: 0 <= j < i ==> result[j] == Clean(items[j])
      invariant forall j :: i <= j < |items| ==> result[j] == items[j]
    {
      var item := TrimSpace(result[i]);
      result := result[i := if EqualFoldNull(item) then "" else item];
    }
  }

  method ParseStringArray(raw: string, json: string -> Option<seq<string>>)
    returns (r: Result<seq<string>, Error>)
    ensures r == Parse(raw, json) && ReadsText(raw, json, r)
  {
    ParseReads(raw, json);
    hide TrimSpace, EatAll, CleanAll, ReadsText;
    var s := TrimSpace(raw);
    if s == "" {
      return Ok([]);
    }
    if s[0] == '[' {
      return FromJson(json(s));
    }
    if !(s[0] == '{' && s[|s| - 1] == '}') {
      return Err(UnsupportedFormat);
    }
    var content := s[1..|s| - 1];
    if content == "" {
      assert CleanAll([]) == [];
      return Ok([]);
    }
    var split := SplitContent(content);
    match split {
      case Err(e) => r := Err(e);
      case Ok(items) =>
        var cleaned := CleanItems(items);
        r := Ok(cleaned);
    }
  }

  // ---- Reading what was printed

  lemma {:induction false} EatSum(s: Scanner, a: string, b: string)
    ensures EatAll(s, a + b) == EatAll(EatAll(s, a), b)
    decreases |b|
  {
    if b == "" {
      assert a + b == a;
    } else {
      assert (a + b)[..|a + b| - 1] == a + b[..|b| - 1];
      EatSum(s, a, b[..|b| - 1]);
    }
  }

  lemma EatOne(s: Scanner, c: char)
    ensures EatAll(s, [c]) == Eat(s, c)
  {
    assert [c][..0] == "";
  }

  lemma EatEscapedChar(s: Scanner, c: char)
    requires s.inQuotes && !s.escaped
    ensures EatAll(s, EscapeChar(c)) == s.(current := s.current + [c])
  {
    if c == '\\' || c == '\"' {
      assert ['\\', c] == ['\\'] + [c];
      EatSum(s, ['\\'], [c]);
      EatOne(s, '\\');
      EatOne(Eat(s, '\\'), c);
    } else {
      EatOne(s, c);
    }
  }

  lemma EscapeEachEnds(init: string, c: char)
    ensures EscapeEach("") == ""
    ensures EscapeEach(init + [c]) == EscapeEach(init) + EscapeChar(c)
  {
    hide EscapeChar;
    assert (init + [c])[..|init|] == init;
  }

  lemma {:induction false} EatEscaped(s: Scanner, value: string)
    requires s.inQuotes && !s.escaped
    ensures EatAll(s, EscapeEach(value)) == s.(current := s.current + value)
    decreases |value|
  {
    hide *;
    if value == "" {
      EscapeEachEnds("", ' ');
      EatNothing(s);
      assert s.current + "" == s.current;
    } else {
      var init, c := value[..|value| - 1], value[|value| - 1];
      assert value == init + [c];
      EatEscaped(s, init);
      EscapeEachEnds(init, c);
      EatSum(s, EscapeEach(init), EscapeChar(c));
      EatEscapedChar(s.(current := s.current + init), c);
      assert s.current + init + [c] == s.current + (init + [c]);
    }
  }

  lemma EatNothing(s: Scanner)
    ensures EatAll(s, "") == s
  {
  }

  lemma EatQuoted(s: Scanner, item: string)
    requires !s.inQuotes && !s.escaped
    ensures EatAll(s, Quoted(item)) == s.(current := s.current + item)
  {
    var inside := s.(inQuotes := true);
    EatSum(s, "\"" + EscapeArrayElement(item), "\"");
    EatSum(s, "\"", EscapeArrayElement(item));
    EatOne(s, '\"');
    TwoPassesAreOne(item);
    EatEscaped(inside, item);
    EatOne(inside.(current := s.current + item), '\"');
  }

  lemma {:induction false} EatBody(items: seq<string>)
    requires items != []
    ensures EatAll(START, Body(items)) == Scanner(items[..|items| - 1], items[|items| - 1], false, false)
    decreases |items|
  {
    hide EatAll, Quoted;
    var n := |items| - 1;
    if n == 0 {
      assert Body(items) == Quoted(items[0]) by { assert Body([]) == "" && items[..0] == []; }
      EatQuoted(START, items[0]);
      assert "" + items[0] == items[0];
    } else {
      var init := items[..n];
      EatBody(init);
      var s := Scanner(init[..n - 1], init[n - 1], false, false);
      assert Body(items) == (Body(init) + ",") + Quoted(items[n]);
      EatSum(START, Body(init) + ",", Quoted(items[n]));
      EatSum(START, Body(init), ",");
      EatOne(s, ',');
      assert init[..n - 1] + [init[n - 1]] == init;
      EatQuoted(Scanner(init, "", false, false), items[n]);
      assert "" + items[n] == items[n];
    }
  }

  lemma BodyOfSome(items: seq<string>)
    ensures Body(items) == "" <==> items == []
  {
  }

  /** The text between the printed braces splits into exactly the items, whatever they hold. */
  lemma SplitOfBody(items: seq<string>)
    ensures Split(Body(items)) == Ok(items)
  {
    BodyOfSome(items);
    if items != [] {
      EatBody(items);
      assert items[..|items| - 1] + [items[|items| - 1]] == items;
    }
  }

  /** Reading a printed list never fails and gives each item back cleaned. */
  lemma RoundTrip(items: seq<string>, json: string -> Option<seq<string>>)
    ensures Parse(Print(items), json) == Ok(CleanAll(items))
  {
    hide Body, Split;
    var text := Print(items);
    assert text[0] == '{' && text[|text| - 1] == '}';
    assert Trimmed(IsSpace, text);
    assert text[1..|text| - 1] == Body(items);
    SplitOfBody(items);
  }

  /** The list itself comes back exactly when all its items are plain. */
  lemma RoundTripIsExactIff(items: seq<string>, json: string -> Option<seq<string>>)
    ensures Parse(Print(items), json) == Ok(items) <==> forall i :: 0 <= i < |items| ==> Plain(items[i])
  {
    RoundTrip(items, json);
    if CleanAll(items) == items {
      forall i | 0 <= i < |items| ensures Plain(items[i]) {
        assert CleanAll(items)[i] == items[i];
      }
    }
  }

  /** Whatever the literal reader returns survives being printed and read again. */
  lemma ReadIsStable(raw: string, json: string -> Option<seq<string>>)
    requires TrimSpace(raw) == "" || TrimSpace(raw)[0] != '['
    requires Parse(raw, json).Ok?
    ensures Parse(Print(Parse(raw, json).value), json) == Parse(raw, json)
  {
    var items := Parse(raw, json).value;
    forall i | 0 <= i < |items| ensures Plain(items[i]) {
    }
    RoundTripIsExactIff(items, json);
  }

  /** Printing loses nothing: different lists are printed differently. */
  lemma PrintIsInjective(a: seq<string>, b: seq<string>)
    requires Print(a) == Print(b)
    ensures a == b
  {
    assert Body(a) == Print(a)[1..|Print(a)| - 1];
    assert Body(b) == Print(b)[1..|Print(b)| - 1];
    SplitOfBody(a);
    SplitOfBody(b);
  }

  /** An item with white space around it, and the word null, do not come back. */
  lemma SomeItemsChange(json: string -> Option<seq<string>>)
    ensures Parse(Print([" a"]), json) != Ok([" a"])
    ensures Parse(Print(["null"]), json) != Ok(["null"])
  {
    hide Parse, Print;
    RoundTripIsExactIff([" a"], json);
    RoundTripIsExactIff(["null"], json);
    assert !Plain([" a"][0]) && !Plain(["null"][0]);
  }

  // ---- The column

  datatype Source = NullSource | TextSource(text: string) | ListSource(list: Option<seq<string>>) | OtherSource

  class Column {
    /** None is the nil list. */
    var items: Option<seq<string>>

    constructor (list: Option<seq<string>>)
      ensures items == list
    {
      items := list;
    }

    /** A failed scan leaves the column as it was. */
    method Scan(src: Source, json: string -> Option<seq<string>>) returns (r: Result<(), Error>)
      modifies this
      ensures match src
              case NullSource => r == Ok(()) && items == None
              case ListSource(list) => r == Ok(()) && items == list
              case OtherSource => r == Err(UnsupportedSource) && items == old(items)
              case TextSource(text) =>
                match Parse(text, json)
                case Ok(list) => r == Ok(()) && items == Some(list)
                case Err(e) => r == Err(e) && items == old(items)
      ensures src.TextSource? ==>
                ReadsText(src.text, json, if r.Err? then Err(r.error) else if items.Some? then Ok(items.value) else Ok([]))
    {
      match src {
        case NullSource => items := None;
        case ListSource(list) => items := list;
        case OtherSource => return Err(UnsupportedSource);
        case TextSource(text) =>
          var parsed := ParseStringArray(text, json);
          if parsed.Err? {
            return Err(parsed.error);
          }
          items := Some(parsed.value);
      }
      r := Ok(());
    }

    method Value() returns (r: Option<string>)
      ensures r == if items.None? then None else Some(Print(items.value))
    {
      if items.None? {
        return None;
      }
      var list := items.value;
      var b := "{";
      for i := 0 to |list|
        invariant b == "{" + Body(list[..i])
      {
        assert list[..i + 1][..i] == list[..i];
        if i > 0 {
          b := b + ",";
        }
        b := b + "\"" + EscapeArrayElement(list[i]) + "\"";
      }
      assert list[..|list|] == list;
      r := Some(b + "}");
    }
  }
}
