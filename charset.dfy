/** The charset estimator: the alphabet an attacker is assumed to search,
    derived from which character classes occur in the password. */
module Charset {

  /** The four character classes the estimator and the evaluator test for. */
  datatype CharClass = Lower | Upper | Digit | Punct

  /** Python's `string.punctuation`: the 32 ASCII punctuation symbols. */
  const Punctuation: string := "!\"#$%&'()*+,-./:;<=>?@[\\]^_`{|}~"

  /** Whether `c` belongs to class `k` (ASCII reading of `islower`,
      `isupper`, `isdigit` and of membership in `string.punctuation`). */
  predicate InClass(c: char, k: CharClass)
  {
    match k
    case Lower => 'a' <= c <= 'z'
    case Upper => 'A' <= c <= 'Z'
    case Digit => '0' <= c <= '9'
    case Punct => c in Punctuation
  }

  /** A character the estimator recognises at all. */
  predicate Classified(c: char)
  {
    InClass(c, Lower) || InClass(c, Upper) || InClass(c, Digit) || InClass(c, Punct)
  }

  /** The fixed sub-alphabet size the estimator adds for a class. */
  function ClassSize(k: CharClass): (n: nat)
    ensures n == 10 || n == 26 || n == 32
  {
    match k
    case Lower => 26
    case Upper => 26
    case Digit => 10
    case Punct => |Punctuation|
  }

  /** `any(<c in class k> for c in s)`, scanning from the front. */
  function Has(s: string, k: CharClass): (b: bool)
    ensures b <==> exists i :: 0 <= i < |s| && InClass(s[i], k)
  {
    if s == [] then false
    else InClass(s[0], k) || Has(s[1..], k)
  }

  /** `estimate_charset_size`: the sizes of the classes present, added up
      in the order lowercase, uppercase, digit, punctuation. */
  function CharsetSize(pwd: string): (size: nat)
    ensures 0 <= size <= 94
    ensures pwd == [] ==> size == 0
  {
    (if Has(pwd, Lower) then ClassSize(Lower) else 0)
    + (if Has(pwd, Upper) then ClassSize(Upper) else 0)
    + (if Has(pwd, Digit) then ClassSize(Digit) else 0)
    + (if Has(pwd, Punct) then ClassSize(Punct) else 0)
  }

  /** The charset is empty exactly when no character of the password is
      recognised. */
  lemma CharsetZeroIff(pwd: string)
    ensures CharsetSize(pwd) == 0 <==> forall i :: 0 <= i < |pwd| ==> !Classified(pwd[i])
  {
  }

  /** The charset is the full 94 symbols exactly when all four classes occur. */
  lemma CharsetFullIff(pwd: string)
    ensures CharsetSize(pwd) == 94 <==> Has(pwd, Lower) && Has(pwd, Upper) && Has(pwd, Digit) && Has(pwd, Punct)
  {
  }

  /** No character lies in two classes, so the classes partition the
      recognised characters. */
  lemma ClassesDisjoint(c: char, k1: CharClass, k2: CharClass)
    requires InClass(c, k1) && InClass(c, k2)
    ensures k1 == k2
  {
  }

  /** The charset size is the sum of the sizes of exactly the classes that
      occur: a sub-sum of 26 + 26 + 10 + 32. */
  lemma CharsetIsSubsetSum(pwd: string)
    ensures CharsetSize(pwd) in {0, 10, 26, 32, 36, 42, 52, 58, 62, 68, 84, 94}
  {
    SubSums(Has(pwd, Lower), Has(pwd, Upper), Has(pwd, Digit), Has(pwd, Punct));
  }

  lemma SubSums(lower: bool, upper: bool, digit: bool, punct: bool)
    ensures var sum := (if lower then 26 else 0) + (if upper then 26 else 0)
                       + (if digit then 10 else 0) + (if punct then 32 else 0);
      sum in {0, 10, 26, 32, 36, 42, 52, 58, 62, 68, 84, 94}
  {
  }

  /** Worked example: lowercase letters only give 26. */
  lemma CharsetExampleLower()
    ensures CharsetSize("abc") == 26
  {
    var a := "abc";
    assert InClass(a[0], Lower);
    assert forall i :: 0 <= i < |a| ==> !InClass(a[i], Upper);
    assert forall i :: 0 <= i < |a| ==> !InClass(a[i], Digit);
    assert forall i :: 0 <= i < |a| ==> !InClass(a[i], Punct);
    assert !Has(a, Upper) && !Has(a, Digit) && !Has(a, Punct);
  }

  /** Worked example: lowercase letters and digits give 26 + 10. */
  lemma CharsetExampleDigits()
    ensures CharsetSize("abc123") == 36
  {
    var b := "abc123";
    assert InClass(b[0], Lower) && InClass(b[3], Digit);
    assert forall i :: 0 <= i < |b| ==> !InClass(b[i], Upper) && !InClass(b[i], Punct);
  }

  /** Worked example: adding punctuation gives 26 + 10 + 32. */
  lemma CharsetExamplePunct()
    ensures CharsetSize("abc123!@") == 68
  {
    var c := "abc123!@";
    assert InClass(c[0], Lower) && InClass(c[3], Digit) && InClass(c[6], Punct);
    assert forall i :: 0 <= i < |c| ==> !InClass(c[i], Upper);
  }
}
