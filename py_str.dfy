/**
 * The two pieces of Python string semantics the handlers rely on:
 * truthiness under `or` and `str.upper`, the latter restricted to ASCII.
 */
module PyStr {
  import opened Wrappers

  /** Python truthiness of an optional string: `None` and `""` are both false. */
  predicate Truthy(v: Option<string>) {
    v.Some? && v.value != ""
  }

  /** `v or fallback`: the value itself when it is truthy, otherwise the fallback. */
  function Or(v: Option<string>, fallback: string): (r: string)
    ensures Truthy(v) ==> r == v.value
    ensures !Truthy(v) ==> r == fallback
    ensures fallback != "" ==> r != ""
  {
    if Truthy(v) then v.value else fallback
  }

  predicate IsAsciiLower(c: char) {
    'a' <= c <= 'z'
  }

  /** `c.upper()` on one ASCII character: a-z become A-Z, everything else stays. */
  function UpperChar(c: char): (r: char)
    ensures !IsAsciiLower(r)
    ensures !IsAsciiLower(c) ==> r == c
    ensures IsAsciiLower(c) ==> 'A' <= r <= 'Z' && r as int - 'A' as int == c as int - 'a' as int
  {
    if IsAsciiLower(c) then (c as int - 32) as char else c
  }

  /** A string that `upper` leaves alone: no lower-case ASCII letter in it. */
  predicate NoLower(s: string) {
    forall i :: 0 <= i < |s| ==> !IsAsciiLower(s[i])
  }

  /** `s.upper()`: same length, each character upper-cased in place. */
  function Upper(s: string): (r: string)
    ensures |r| == |s|
    ensures forall i :: 0 <= i < |s| ==> r[i] == UpperChar(s[i])
    ensures NoLower(r)
  {
    if s == [] then [] else [UpperChar(s[0])] + Upper(s[1..])
  }

  /** Upper-casing twice is upper-casing once. */
  lemma UpperIdempotent(s: string)
    ensures Upper(Upper(s)) == Upper(s)
  {
  }

  /** `upper` fixes exactly the strings with no lower-case ASCII letter. */
  lemma UpperFixedIff(s: string)
    ensures Upper(s) == s <==> NoLower(s)
  {
  }
}
