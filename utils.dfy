/** Helpers shared by the scoring engine (namespace Utils of src/scraper.cpp):
    the parsed JSON value the engine reads its input from, the numeric library
    routines it calls, clamping, ASCII case folding and substring search. */
module Utils {

  datatype Option<+T> = None | Some(value: T)

  /** A JSON value as the parser hands it to the engine. */
  datatype JValue =
    | JNull
    | JBool(b: bool)
    | JNum(n: real)
    | JStr(s: string)
    | JArray(elems: seq<JValue>)
    | JObject(fields: map<string, JValue>)

  /** The library routines the engine calls but that are not part of it:
      std::sqrt and std::log10 from <cmath>, and std::stod, which reads a
      number from (a prefix of) a string or throws. */
  datatype Primitives = Primitives(
    sqrt: real -> real,
    log10: real -> real,
    stod: string -> Option<real>)
  {
    /** The facts about those routines that the model relies on. */
    ghost predicate Lawful() {
      && (forall x :: 0.0 <= x ==> 0.0 <= sqrt(x) && (sqrt(x) == 0.0 <==> x == 0.0))
      && (forall y :: 1.0 < y ==> 0.0 < log10(y))
    }
  }

  /** std::clamp(x, lo, hi). */
  function Clamp(x: real, lo: real, hi: real): (r: real)
    requires lo <= hi
    ensures lo <= r <= hi
    ensures lo <= x <= hi ==> r == x
    ensures x < lo ==> r == lo
    ensures hi < x ==> r == hi
  {
    if x < lo then lo else if hi < x then hi else x
  }

  /** std::min(a, b), which returns a unless b is strictly smaller. */
  function Min(a: real, b: real): (r: real)
    ensures r <= a && r <= b
    ensures r == a || r == b
  {
    if b < a then b else a
  }

  function Abs(x: real): (r: real)
    ensures 0.0 <= r
    ensures r == x || r == -x
  {
    if x < 0.0 then -x else x
  }

  /** ::tolower in the C locale: only 'A'..'Z' change. */
  function LowerChar(c: char): char {
    if 'A' <= c <= 'Z' then (c as int + 32) as char else c
  }

  /** Utils::ToLower. */
  function ToLower(s: string): (r: string)
    ensures |r| == |s|
    ensures forall i :: 0 <= i < |s| ==> r[i] == LowerChar(s[i])
  {
    if s == [] then [] else [LowerChar(s[0])] + ToLower(s[1..])
  }

  /** Lower-casing twice is lower-casing once, and leaves no upper-case letter. */
  lemma ToLowerIdempotent(s: string)
    ensures ToLower(ToLower(s)) == ToLower(s)
    ensures forall i :: 0 <= i < |s| ==> !('A' <= ToLower(s)[i] <= 'Z')
  {
    var once := ToLower(s);
    var twice := ToLower(once);
    assert forall i :: 0 <= i < |s| ==> twice[i] == once[i];
  }

  /** s.find(sub) != std::string::npos. */
  function Contains(s: string, sub: string): bool {
    |sub| <= |s| && (s[..|sub|] == sub || (0 < |s| && Contains(s[1..], sub)))
  }

  /** sub occurs in s starting at index i. */
  predicate OccursAt(s: string, sub: string, i: int) {
    0 <= i <= |s| - |sub| && s[i..i + |sub|] == sub
  }

  /** Contains agrees with the definition by position: sub occurs at some index of s. */
  lemma {:induction false} ContainsIff(s: string, sub: string)
    ensures Contains(s, sub) <==> exists i :: OccursAt(s, sub, i)
  {
    if |sub| <= |s| && s[..|sub|] == sub {
      assert OccursAt(s, sub, 0);
    } else if |sub| <= |s| && 0 < |s| {
      ContainsIff(s[1..], sub);
      if Contains(s[1..], sub) {
        var i :| OccursAt(s[1..], sub, i);
        assert s[i + 1..i + 1 + |sub|] == s[1..][i..i + |sub|];
        assert OccursAt(s, sub, i + 1);
      }
      if exists i :: OccursAt(s, sub, i) {
        var i :| OccursAt(s, sub, i);
        assert i != 0;
        assert s[1..][i - 1..i - 1 + |sub|] == s[i..i + |sub|];
        assert OccursAt(s[1..], sub, i - 1);
      }
    }
  }

  /** Utils::TryGetDouble: the number stored under key in a JSON object,
      whether written as a JSON number or as a string std::stod accepts.
      A missing key, null, or any other kind of value gives nothing. */
  function TryGetDouble(stod: string -> Option<real>, j: map<string, JValue>, key: string): (r: Option<real>)
    ensures r.Some? ==> key in j && (j[key].JNum? || j[key].JStr?)
    ensures key in j && j[key].JNum? ==> r == Some(j[key].n)
    ensures key in j && j[key].JStr? ==> r == stod(j[key].s)
  {
    if key !in j then None
    else match j[key]
      case JNum(n) => Some(n)
      case JStr(s) => stod(s)
      case _ => None
  }
}
