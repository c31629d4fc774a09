/** Small building blocks shared by the session store and the booking screen:
    an optional value, JavaScript's `Array.prototype.find`, and the lower-casing
    that `String.prototype.toLowerCase` performs on ASCII letters. */
module Common {

  datatype Option<+T> = None | Some(value: T) {
    function GetOr(default: T): T {
      match this
      case Some(v) => v
      case None => default
    }
  }

  /** The index of the first element of `s` that satisfies `p`, as `s.find(p)`
      locates it; `None` when no element does (where `find` yields `undefined`). */
  function FindFirst<T>(s: seq<T>, p: T -> bool): (r: Option<nat>)
    ensures r.Some? ==> r.value < |s| && p(s[r.value])
    ensures r.Some? ==> forall j :: 0 <= j < r.value ==> !p(s[j])
    ensures r.None? ==> forall j :: 0 <= j < |s| ==> !p(s[j])
  {
    if |s| == 0 then None
    else if p(s[0]) then Some(0)
    else
      match FindFirst(s[1..], p)
      case None => None
      case Some(i) => Some(i + 1)
  }

  /** Any index whose element satisfies `p` and is preceded only by elements
      that do not is the one `FindFirst` returns. */
  lemma FindFirstIsFirst<T>(s: seq<T>, p: T -> bool, i: nat)
    requires i < |s| && p(s[i])
    requires forall j :: 0 <= j < i ==> !p(s[j])
    ensures FindFirst(s, p) == Some(i)
  {
  }

  /** `c` with an upper-case ASCII letter mapped to its lower-case form. */
  function LowerChar(c: char): char {
    if 'A' <= c <= 'Z' then (c as int + 32) as char else c
  }

  predicate IsUpper(c: char) {
    'A' <= c <= 'Z'
  }

  /** `c` and `d` are the same character, or the same ASCII letter in the two cases. */
  predicate SameIgnoringAsciiCase(c: char, d: char) {
    c == d ||
    ('A' <= c <= 'Z' && d as int == c as int + 32) ||
    ('a' <= c <= 'z' && d as int == c as int - 32)
  }

  /** `s` and `t` spell the same text up to the case of ASCII letters. */
  predicate EqualsIgnoringAsciiCase(s: string, t: string) {
    |s| == |t| && forall i :: 0 <= i < |s| ==> SameIgnoringAsciiCase(s[i], t[i])
  }

  /** Lower-cases the ASCII letters of `s` and keeps every other character:
      the result has no upper-case ASCII letter and differs from `s` only in
      the case of letters. */
  function ToLower(s: string): (r: string)
    ensures |r| == |s|
    ensures forall i :: 0 <= i < |r| ==> !IsUpper(r[i])
    ensures EqualsIgnoringAsciiCase(s, r)
  {
    seq(|s|, i requires 0 <= i < |s| => LowerChar(s[i]))
  }

  /** Lower-casing twice is lower-casing once. */
  lemma ToLowerIdempotent(s: string)
    ensures ToLower(ToLower(s)) == ToLower(s)
  {
  }

  /** A text without upper-case ASCII letters equals the lower-cased form of
      `s` exactly when it equals `s` up to the case of ASCII letters. */
  lemma ToLowerMatchesIgnoringCase(s: string, t: string)
    requires forall i :: 0 <= i < |t| ==> !IsUpper(t[i])
    ensures ToLower(s) == t <==> EqualsIgnoringAsciiCase(s, t)
  {
  }
}
