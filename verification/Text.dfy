/** Trimming, for any notion of white space. */
module Text {
  type Space = char -> bool

  predicate Trimmed(space: Space, s: string) { s == "" || (!space(s[0]) && !space(s[|s| - 1])) }

  function TrimLeft(space: Space, s: string): (r: string)
    ensures |r| <= |s| && r == s[|s| - |r|..] && (forall i :: 0 <= i < |s| - |r| ==> space(s[i]))
    ensures r == "" || !space(r[0])
  {
    if s == "" || !space(s[0]) then s else TrimLeft(space, s[1..])
  }

  function TrimRight(space: Space, s: string): (r: string)
    ensures |r| <= |s| && r == s[..|r|] && (forall i :: |r| <= i < |s| ==> space(s[i]))
    ensures r == "" || !space(r[|r| - 1])
  {
    if s == "" || !space(s[|s| - 1]) then s else TrimRight(space, s[..|s| - 1])
  }

  function Trim(space: Space, s: string): (r: string)
    ensures Trimmed(space, r) && (Trimmed(space, s) ==> r == s)
  {
    TrimRight(space, TrimLeft(space, s))
  }

  /** Trimming cuts off nothing but white space. */
  lemma TrimKeepsTheMiddle(space: Space, s: string) returns (lo: nat, hi: nat)
    ensures lo <= hi <= |s| && Trim(space, s) == s[lo..hi]
    ensures forall i :: 0 <= i < lo || hi <= i < |s| ==> space(s[i])
  {
    hide TrimLeft, TrimRight;
    var left := TrimLeft(space, s);
    var right := TrimRight(space, left);
    lo, hi := |s| - |left|, |s| - |left| + |right|;
    assert right == left[..|right|] == s[lo..hi];
    forall i | hi <= i < |s| ensures space(s[i]) {
      assert s[i] == left[i - lo];
    }
  }
}
