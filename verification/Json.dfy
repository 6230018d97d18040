/**
 JSON values as the job service reads them: dictionary access, truthiness and iteration with Python's rules.
 */
module Json {
  import opened Wrappers
  import opened Text

  datatype Json =
    | Null | Bool(b: bool) | Number(n: real) | String(s: string) | List(elements: seq<Json>) | Object(fields: seq<Field>)

  datatype Field = Field(key: string, value: Json)

  datatype JsonError = NotAnObject | NotIterable

  function Lookup(fields: seq<Field>, key: string): Json {
    if fields == [] then Null
    else if fields[|fields| - 1].key == key then fields[|fields| - 1].value
    else Lookup(fields[..|fields| - 1], key)
  }

  /** The value at a key, Null when the key is missing. */
  function Get(j: Json, key: string): Json { if j.Object? then Lookup(j.fields, key) else Null }

  function Chars(s: string): seq<Json> { seq(|s|, i requires 0 <= i < |s| => String([s[i]])) }

  /** The keys of an object, each once, where it first stands. */
  function Keys(fields: seq<Field>): seq<Json> {
    if fields == [] then []
    else
      var n := |fields| - 1;
      Keys(fields[..n]) +
      if exists i :: 0 <= i < n && fields[i].key == fields[n].key then [] else [String(fields[n].key)]
  }

  /** What a loop over "the value, or else an empty list" visits: a list's elements, an object's keys, a text's
      characters; nothing for a falsy value; `true` and numbers other than 0 cannot be looped over. */
  function Elements(j: Json): Result<seq<Json>, JsonError> {
    match j
    case Null => Ok([])
    case Bool(b) => if b then Err(NotIterable) else Ok([])
    case Number(n) => if n != 0.0 then Err(NotIterable) else Ok([])
    case String(s) => Ok(Chars(s))
    case List(elements) => Ok(elements)
    case Object(fields) => Ok(Keys(fields))
  }

  /** A number; the booleans count as 1 and 0. */
  function NumberOf(j: Json): Option<real> {
    match j
    case Number(n) => Some(n)
    case Bool(b) => Some(if b then 1.0 else 0.0)
    case _ => None
  }

  predicate IsSpace(c: char) {
    || '\t' <= c <= '\r' || '\U{001C}' <= c <= ' ' || c == '\U{0085}' || c == '\U{00A0}' || c == '\U{1680}'
    || '\U{2000}' <= c <= '\U{200A}' || c == '\U{2028}' || c == '\U{2029}' || c == '\U{202F}' || c == '\U{205F}'
    || c == '\U{3000}'
  }

  /** The stripped text, unless it is no text or a blank one. */
  function TextOf(j: Json): (r: Option<string>)
    ensures r.Some? ==> r.value != "" && Trimmed(IsSpace, r.value)
  {
    if j.String? && Trim(IsSpace, j.s) != "" then Some(Trim(IsSpace, j.s)) else None
  }

  const EMPTY := Object([])

  /** The last object of the list that has this text at this key; an empty object when there is none. */
  function LastMatch(list: seq<Json>, key: string, text: string): Json {
    if list == [] then EMPTY
    else
      var n := |list| - 1;
      if list[n].Object? && Get(list[n], key) == String(text) then list[n] else LastMatch(list[..n], key, text)
  }

  function Find(index: map<string, Json>, text: string): Json { if text in index then index[text] else EMPTY }

  method IndexBy(list: seq<Json>, key: string) returns (index: map<string, Json>)
    ensures forall text: string :: Find(index, text) == LastMatch(list, key, text)
  {
    index := map[];
    for i := 0 to |list|
      invariant forall text: string :: Find(index, text) == LastMatch(list[..i], key, text)
    {
      var item := list[i];
      assert list[..i + 1][..i] == list[..i];
      if item.Object? && Get(item, key).String? {
        index := index[Get(item, key).s := item];
      }
    }
    assert list[..|list|] == list;
  }

  /** A field is found by its key unless a later one has the same. */
  lemma {:induction false} LookupAt(fields: seq<Field>, i: nat)
    requires i < |fields| && forall k :: i < k < |fields| ==> fields[k].key != fields[i].key
    ensures Lookup(fields, fields[i].key) == fields[i].value
    decreases |fields|
  {
    if i < |fields| - 1 {
      LookupAt(fields[..|fields| - 1], i);
    }
  }

  lemma {:induction false} LookupMissing(fields: seq<Field>, key: string)
    requires forall k :: 0 <= k < |fields| ==> fields[k].key != key
    ensures Lookup(fields, key) == Null
    decreases |fields|
  {
    if fields != [] {
      LookupMissing(fields[..|fields| - 1], key);
    }
  }
}
