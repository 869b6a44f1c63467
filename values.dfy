/**
 * JSON values as the client sees them after `json.loads`, and the few pieces
 * of Python semantics the session layer relies on when it pokes at them:
 * truthiness, `x[k]`, `len(x)`, `d.get(k)`, iteration, hashability as a dict
 * key, `int(x)`, `x > 0`, `sub in s` and `str.upper`.
 *
 * A Python operation that raises is modelled by `None` (or `Raised`); the
 * callers turn that into an abandoned handler.
 */
module Values {

  datatype Option<+T> = None | Some(value: T)

  /** What a Python call does: return a value, or raise. */
  datatype Outcome<+T> = Returned(value: T) | Raised

  /** A decoded JSON value. Numbers are reals, so `5.0 == 5` as in Python. */
  datatype Json =
    | JNull
    | JBool(b: bool)
    | JNum(n: real)
    | JStr(s: string)
    | JArr(items: seq<Json>)
    | JObj(fields: map<string, Json>)

  /** Python truthiness: None, False, 0, "", [] and {} are false. */
  predicate Truthy(j: Json)
  {
    match j
    case JNull => false
    case JBool(b) => b
    case JNum(n) => n != 0.0
    case JStr(s) => s != ""
    case JArr(items) => items != []
    case JObj(fields) => fields != map[]
  }

  /** `d.get(k)` on a dict: the value, or None when the key is absent. */
  function GetOr(m: map<string, Json>, key: string): (r: Json)
    ensures key !in m ==> r == JNull
    ensures key in m ==> r == m[key]
  {
    if key in m then m[key] else JNull
  }

  /** `x[key]` with a string key: only a dict that holds the key answers. */
  function Get(j: Json, key: string): (r: Option<Json>)
    ensures r.Some? <==> j.JObj? && key in j.fields
  {
    if j.JObj? && key in j.fields then Some(j.fields[key]) else None
  }

  /**
   * `x[k]` with a non-negative integer index: a list yields its element, a
   * string its one-character substring; a dict raises KeyError (JSON keys are
   * strings), anything else raises TypeError, and so does an index past the end.
   */
  function At(j: Json, k: nat): (r: Option<Json>)
    ensures j.JArr? && k < |j.items| ==> r == Some(j.items[k])
    ensures r.Some? <==> (j.JArr? && k < |j.items|) || (j.JStr? && k < |j.s|)
  {
    match j
    case JArr(items) => if k < |items| then Some(items[k]) else None
    case JStr(s) => if k < |s| then Some(JStr([s[k]])) else None
    case _ => None
  }

  /** `len(x)`: defined on lists, strings and dicts only. */
  function Len(j: Json): (r: Option<nat>)
    ensures r.Some? <==> j.JArr? || j.JStr? || j.JObj?
  {
    match j
    case JArr(items) => Some(|items|)
    case JStr(s) => Some(|s|)
    case JObj(fields) => Some(|fields|)
    case _ => None
  }

  /**
   * What `for x in j` visits: the elements of a list, the characters of a
   * string. Iterating a dict (its keys, in insertion order) is not modelled
   * and counts as a failure, as does iterating a number, a bool or None.
   */
  function Elements(j: Json): (r: Option<seq<Json>>)
    ensures j.JArr? ==> r == Some(j.items)
    ensures r.Some? <==> j.JArr? || j.JStr?
  {
    match j
    case JArr(items) => Some(items)
    case JStr(s) => Some(seq(|s|, i requires 0 <= i < |s| => JStr([s[i]])))
    case _ => None
  }

  /** Lists and dicts cannot be dict keys (TypeError: unhashable type). */
  predicate Hashable(j: Json)
  {
    !j.JArr? && !j.JObj?
  }

  /** The integer dict key a JSON value stands for: an integral number. */
  function KeyOf(j: Json): (r: Option<int>)
    ensures r.Some? ==> j == JNum(r.value as real)
  {
    if j.JNum? && j.n == j.n.Floor as real then Some(j.n.Floor) else None
  }

  /** Truncation toward zero, as Python's `int()` does on a float. */
  function Truncate(x: real): (r: int)
    ensures 0.0 <= x ==> r as real <= x < r as real + 1.0
    ensures x < 0.0 ==> r as real - 1.0 < x <= r as real
  {
    if 0.0 <= x then x.Floor else -((-x).Floor)
  }

  predicate IsDigit(c: char) { '0' <= c <= '9' }

  /** The value of a non-empty run of decimal digits. */
  function DigitsValue(s: string): (r: nat)
    requires forall i :: 0 <= i < |s| ==> IsDigit(s[i])
  {
    if s == [] then 0
    else
      assert IsDigit(s[|s| - 1]);
      10 * DigitsValue(s[..|s| - 1]) + (s[|s| - 1] as int - '0' as int)
  }

  /**
   * `int(x)`: a number truncated toward zero, a bool as 0 or 1, a string of
   * decimal digits with an optional sign; anything else raises.
   */
  function PyInt(j: Json): (r: Option<int>)
    ensures j.JNum? ==> r == Some(Truncate(j.n))
    ensures j.JBool? ==> r == Some(if j.b then 1 else 0)
    ensures j.JNull? || j.JArr? || j.JObj? ==> r.None?
  {
    match j
    case JNum(n) => Some(Truncate(n))
    case JBool(b) => Some(if b then 1 else 0)
    case JStr(s) =>
      var signed := |s| > 0 && (s[0] == '-' || s[0] == '+');
      var sign := if signed && s[0] == '-' then -1 else 1;
      var digits := if signed then s[1..] else s;
      if digits != [] && forall i :: 0 <= i < |digits| ==> IsDigit(digits[i]) then Some(sign * DigitsValue(digits)) else None
    case _ => None
  }

  /** `x > 0`: numbers and bools compare; None, strings and containers raise. */
  function Positive(j: Json): (r: Option<bool>)
    ensures r.Some? <==> j.JNum? || j.JBool?
    ensures j.JNum? ==> r == Some(j.n > 0.0)
  {
    match j
    case JNum(n) => Some(n > 0.0)
    case JBool(b) => Some(b)
    case _ => None
  }

  /** `sub in s` on two strings. */
  predicate Contains(s: string, sub: string)
    decreases |s|
  {
    sub <= s || (s != [] && Contains(s[1..], sub))
  }

  /** `sub` occurs in `s` starting at index `i`. */
  predicate OccursAt(s: string, sub: string, i: int)
  {
    0 <= i <= |s| - |sub| && s[i..i + |sub|] == sub
  }

  /** The recursive substring test agrees with "occurs at some index". */
  lemma {:induction false} ContainsAt(s: string, sub: string)
    ensures Contains(s, sub) <==> exists i :: OccursAt(s, sub, i)
    decreases |s|
  {
    if sub <= s {
      assert OccursAt(s, sub, 0);
    } else if s != [] {
      ContainsAt(s[1..], sub);
      if Contains(s[1..], sub) {
        var i :| OccursAt(s[1..], sub, i);
        assert OccursAt(s, sub, i + 1);
      }
      if exists i :: OccursAt(s, sub, i) {
        var i :| OccursAt(s, sub, i);
        assert i != 0;
        assert s[1..][i - 1..i - 1 + |sub|] == s[i..i + |sub|];
        assert OccursAt(s[1..], sub, i - 1);
      }
    }
  }

  /** ASCII upper-casing, the part of `str.upper` that matters for currency codes. */
  function UpperChar(c: char): char
  {
    if 'a' <= c <= 'z' then (c as int - 'a' as int + 'A' as int) as char else c
  }

  function Upper(s: string): (r: string)
    ensures |r| == |s|
    ensures forall i :: 0 <= i < |s| ==> r[i] == UpperChar(s[i])
  {
    if s == [] then [] else [UpperChar(s[0])] + Upper(s[1..])
  }

  /**
   * `code.upper() == "BRL"` on a JSON value: None when `.upper()` raises
   * (the value is not a string).
   */
  function IsBrl(code: Json): (r: Option<bool>)
    ensures r.Some? <==> code.JStr?
  {
    if code.JStr? then Some(Upper(code.s) == "BRL") else None
  }

  /** The currency test accepts exactly the case variants of "brl". */
  lemma BrlSpelling(s: string)
    ensures IsBrl(JStr(s)) == Some(true) <==>
              |s| == 3 && (s[0] == 'b' || s[0] == 'B') && (s[1] == 'r' || s[1] == 'R') && (s[2] == 'l' || s[2] == 'L')
  {
    if Upper(s) == "BRL" {
      assert UpperChar(s[0]) == 'B' && UpperChar(s[1]) == 'R' && UpperChar(s[2]) == 'L';
    }
    if |s| == 3 && (s[0] == 'b' || s[0] == 'B') && (s[1] == 'r' || s[1] == 'R') && (s[2] == 'l' || s[2] == 'L') {
      assert Upper(s) == "BRL";
    }
  }
}
