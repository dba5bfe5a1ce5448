/** The pieces the form schemas are built from: Yup's string rules and the
    one-character regular expressions (`/[a-z]/`, `/[^A-Za-z0-9]/`, ...). */
module Validation {

  /** The character classes the schemas' regular expressions use. */
  datatype CharClass = LowerAlpha | UpperAlpha | Digit | NotAlphanumeric | EmailLocal

  predicate InClass(c: char, k: CharClass)
  {
    match k
    case LowerAlpha => 'a' <= c <= 'z'
    case UpperAlpha => 'A' <= c <= 'Z'
    case Digit => '0' <= c <= '9'
    case NotAlphanumeric => !('a' <= c <= 'z' || 'A' <= c <= 'Z' || '0' <= c <= '9')
    case EmailLocal => 'a' <= c <= 'z' || 'A' <= c <= 'Z' || '0' <= c <= '9' || c in "._%+-"
  }

  /** The unanchored regex `/[k]/` matches `s`: some character of `s` is in the class. */
  function ContainsClass(s: string, k: CharClass): (b: bool)
    ensures b <==> exists i :: 0 <= i < |s| && InClass(s[i], k)
    decreases |s|
  {
    if s == [] then false
    else if InClass(s[0], k) then true
    else ContainsClass(s[1..], k)
  }

  /** The anchored regex `/^[k]*$/` matches `s`: every character of `s` is in the class. */
  function AllInClass(s: string, k: CharClass): (b: bool)
    ensures b <==> forall i :: 0 <= i < |s| ==> InClass(s[i], k)
    decreases |s|
  {
    if s == [] then true
    else InClass(s[0], k) && AllInClass(s[1..], k)
  }

  /** `Yup.string().required()`: present and not the empty string. */
  predicate Required(s: string)
  {
    s != ""
  }

  /** `.min(lo).max(hi)` on a string's length. */
  predicate LengthBetween(s: string, lo: nat, hi: nat)
  {
    lo <= |s| <= hi
  }

  /** The number of occurrences of `c` in `s`. */
  function Count(s: string, c: char): (n: nat)
    ensures n <= |s|
    ensures n == 0 <==> c !in s
    decreases |s|
  {
    if s == [] then 0 else (if s[0] == c then 1 else 0) + Count(s[1..], c)
  }

  lemma {:induction false} CountConcat(s: string, t: string, c: char)
    ensures Count(s + t, c) == Count(s, c) + Count(t, c)
    decreases |s|
  {
    if s == [] {
      assert s + t == t;
    } else {
      assert (s + t)[1..] == s[1..] + t;
      CountConcat(s[1..], t, c);
    }
  }
}
