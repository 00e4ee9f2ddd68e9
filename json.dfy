/**
 * JSON values as the scripts see them after `json.loads`: objects are dictionaries
 * keyed by string, so a `map` (key order is not observable by any modelled operation).
 */
module Json {

  import opened Wrappers

  datatype Json =
    | Null
    | Bool(b: bool)
    | Num(n: real)
    | Str(s: string)
    | Arr(items: seq<Json>)
    | Obj(fields: map<string, Json>)

  /** One frame read from a websocket: the value `json.loads` returns, or text it rejects. */
  datatype Inbound = Parsed(value: Json) | Unparseable

  /** The exceptions the scripts' own expressions can raise on a parsed value. */
  datatype PyError = TypeError | KeyError(key: string) | AttributeError

  /** Python's `key in v` for a string `key`: dictionary keys, list elements, substrings. */
  function PyIn(key: string, v: Json): Result<bool, PyError> {
    match v
    case Obj(fields) => Ok(key in fields)
    case Arr(items) => Ok(Str(key) in items)
    case Str(s) => Ok(Contains(s, key))
    case _ => Err(TypeError)
  }

  /** Python's `isinstance(v, list)`. */
  predicate IsList(v: Json) {
    v.Arr?
  }

  /** Python's `len(v)`: defined for lists, strings and dictionaries, a TypeError otherwise. */
  function PyLen(v: Json): (r: Option<nat>)
    ensures r.Some? <==> (v.Arr? || v.Str? || v.Obj?)
    ensures v.Arr? ==> r == Some(|v.items|)
  {
    match v
    case Arr(items) => Some(|items|)
    case Str(s) => Some(|s|)
    case Obj(m) => Some(|m|)
    case _ => None
  }

  /** Whether a value can be a Python dictionary key (lists and dictionaries are unhashable). */
  predicate Hashable(v: Json) {
    !v.Arr? && !v.Obj?
  }

  /** ASCII lower-casing, Python's `str.lower()` on the ASCII range. */
  function LowerChar(c: char): (r: char)
    ensures 'A' <= c <= 'Z' ==> 'a' <= r <= 'z'
    ensures !('A' <= c <= 'Z') ==> r == c
  {
    if 'A' <= c <= 'Z' then (c as int + 32) as char else c
  }

  function Lower(s: string): (r: string)
    ensures |r| == |s|
    ensures forall k :: 0 <= k < |s| ==> r[k] == LowerChar(s[k])
  {
    seq(|s|, k requires 0 <= k < |s| => LowerChar(s[k]))
  }

  /** Python's `sub in s` on strings. */
  predicate Contains(s: string, sub: string)
    decreases |s|
  {
    |sub| <= |s| && (s[..|sub|] == sub || Contains(s[1..], sub))
  }

  /** `sub` occurs in `s` starting at position `i`. */
  predicate OccursAt(s: string, sub: string, i: int) {
    0 <= i && i + |sub| <= |s| && s[i..i + |sub|] == sub
  }

  /** `sub in s` holds exactly when `sub` occurs at some position of `s`. */
  lemma {:induction false} ContainsAt(s: string, sub: string)
    ensures Contains(s, sub) <==> exists i :: OccursAt(s, sub, i)
    decreases |s|
  {
    if |sub| <= |s| {
      if s[..|sub|] == sub {
        assert OccursAt(s, sub, 0);
      } else if |s| > 0 {
        ContainsAt(s[1..], sub);
        if exists i :: OccursAt(s, sub, i) {
          var i :| OccursAt(s, sub, i);
          assert i > 0;
          assert s[1..][i - 1..i - 1 + |sub|] == s[i..i + |sub|];
          assert OccursAt(s[1..], sub, i - 1);
        }
        if Contains(s[1..], sub) {
          var i :| OccursAt(s[1..], sub, i);
          assert s[i + 1..i + 1 + |sub|] == s[1..][i..i + |sub|];
          assert OccursAt(s, sub, i + 1);
        }
      }
    }
  }

  /** The stretch of `s` at position `i` lower-cases to `word`. */
  predicate LowersTo(s: string, word: string, i: int) {
    0 <= i && i + |word| <= |s| && Lower(s[i..i + |word|]) == word
  }

  /**
   * `word in s.lower()` holds exactly when some stretch of `s` lower-cases to `word`: for a
   * lower-case word, when `s` contains it in any mixture of cases.
   */
  lemma LowerContains(s: string, word: string)
    ensures Contains(Lower(s), word) <==> exists i :: LowersTo(s, word, i)
  {
    ContainsAt(Lower(s), word);
    forall i | 0 <= i && i + |word| <= |s|
      ensures OccursAt(Lower(s), word, i) <==> LowersTo(s, word, i)
    {
      assert Lower(s)[i..i + |word|] == Lower(s[i..i + |word|]);
    }
  }
}
