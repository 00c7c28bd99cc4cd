/** The two string functions the normalisation applies to text columns:
    Spark's `trim`, which strips leading and trailing space characters
    (U+0020 only), and `upper`, modelled on the ASCII letters. */
module Text {

  const SPACE: char := ' '

  /** No leading and no trailing space. */
  predicate IsTrimmed(s: string) {
    |s| == 0 || (s[0] != SPACE && s[|s| - 1] != SPACE)
  }

  /** Number of spaces at the start of `s`. */
  function LeadingSpaces(s: string): (n: nat)
    ensures n <= |s|
    ensures forall i :: 0 <= i < n ==> s[i] == SPACE
    ensures n < |s| ==> s[n] != SPACE
  {
    if s == [] || s[0] != SPACE then 0 else 1 + LeadingSpaces(s[1..])
  }

  /** `s` without its trailing spaces. */
  function DropTrailing(s: string): (r: string)
    ensures |r| <= |s| && r == s[..|r|]
    ensures forall i :: |r| <= i < |s| ==> s[i] == SPACE
    ensures |r| == 0 || r[|r| - 1] != SPACE
    decreases |s|
  {
    if s == [] || s[|s| - 1] != SPACE then s else DropTrailing(s[..|s| - 1])
  }

  /** Spark's `trim`: the result is the part of `s` that starts at its
      first non-space; every character of `s` outside it is a space, and
      the result itself neither starts nor ends with one. */
  function Trim(s: string): (r: string)
    ensures IsTrimmed(r)
    ensures LeadingSpaces(s) + |r| <= |s|
    ensures r == s[LeadingSpaces(s)..LeadingSpaces(s) + |r|]
    ensures forall i :: 0 <= i < |s| && !(LeadingSpaces(s) <= i < LeadingSpaces(s) + |r|) ==> s[i] == SPACE
  {
    DropTrailing(s[LeadingSpaces(s)..])
  }

  /** Spark's `upper` on one character, ASCII letters only. */
  function UpperChar(c: char): (u: char)
    ensures (c == SPACE) == (u == SPACE)
    ensures !('a' <= u <= 'z')
    ensures !('a' <= c <= 'z') ==> u == c
    ensures 'a' <= c <= 'z' ==> 'A' <= u <= 'Z' && u as int - 'A' as int == c as int - 'a' as int
  {
    if 'a' <= c <= 'z' then (c as int - 32) as char else c
  }

  /** No lower-case ASCII letter. */
  predicate IsUpper(s: string) {
    forall i :: 0 <= i < |s| ==> !('a' <= s[i] <= 'z')
  }

  /** Spark's `upper`: character by character, length unchanged. */
  function Upper(s: string): (r: string)
    ensures |r| == |s|
    ensures IsUpper(r)
    ensures forall i :: 0 <= i < |s| ==> r[i] == UpperChar(s[i])
  {
    seq(|s|, i requires 0 <= i < |s| => UpperChar(s[i]))
  }

  /** A string that is already trimmed is left as it is. */
  lemma TrimOfTrimmed(s: string)
    requires IsTrimmed(s)
    ensures Trim(s) == s
  {
    if s != [] {
      assert LeadingSpaces(s) == 0;
    }
  }

  /** Trimming twice is trimming once. */
  lemma TrimIdempotent(s: string)
    ensures Trim(Trim(s)) == Trim(s)
  {
    TrimOfTrimmed(Trim(s));
  }

  /** Upper-casing keeps a trimmed string trimmed and an upper-case string unchanged. */
  lemma UpperKeepsShape(s: string)
    ensures IsTrimmed(s) ==> IsTrimmed(Upper(s))
    ensures IsUpper(s) ==> Upper(s) == s
  {
  }

  lemma {:induction false} LeadingSpacesOfUpper(s: string)
    ensures LeadingSpaces(Upper(s)) == LeadingSpaces(s)
    decreases |s|
  {
    if s != [] && s[0] == SPACE {
      assert Upper(s)[1..] == Upper(s[1..]);
      LeadingSpacesOfUpper(s[1..]);
    }
  }

  /** Upper-casing commutes with taking a suffix or a prefix. */
  lemma UpperSlices(s: string, n: nat)
    requires n <= |s|
    ensures Upper(s)[n..] == Upper(s[n..])
    ensures Upper(s)[..n] == Upper(s[..n])
  {
  }

  lemma {:induction false} DropTrailingOfUpper(s: string)
    ensures DropTrailing(Upper(s)) == Upper(DropTrailing(s))
    decreases |s|
  {
    if s != [] && s[|s| - 1] == SPACE {
      UpperSlices(s, |s| - 1);
      DropTrailingOfUpper(s[..|s| - 1]);
    }
  }

  /** `upper(trim(x))` and `trim(upper(x))` agree: the order in which the
      state column applies the two does not matter. */
  lemma TrimUpperCommute(s: string)
    ensures Upper(Trim(s)) == Trim(Upper(s))
  {
    var lead := LeadingSpaces(s);
    LeadingSpacesOfUpper(s);
    UpperSlices(s, lead);
    DropTrailingOfUpper(s[lead..]);
  }
}
