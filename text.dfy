/**
 * The two pieces of JavaScript string behaviour the client relies on:
 * template interpolation of a number (`${n}`) and `String.prototype.replace`
 * with a string pattern, which replaces only the FIRST occurrence and expands
 * the `$` patterns of the replacement.
 */
module Text {
  import opened Wrappers

  predicate IsDigit(c: char) {
    '0' <= c <= '9'
  }

  predicate AllDigits(s: string) {
    forall i :: 0 <= i < |s| ==> IsDigit(s[i])
  }

  function Digit(d: nat): (c: char)
    requires d < 10
    ensures IsDigit(c) && c as int - '0' as int == d
  {
    ('0' as int + d) as char
  }

  /** `${n}` for a non-negative integer: its shortest decimal spelling. */
  function DecimalString(n: nat): (s: string)
    ensures |s| >= 1 && AllDigits(s)
    ensures s[0] == '0' ==> n == 0
    decreases n
  {
    if n < 10 then [Digit(n)] else DecimalString(n / 10) + [Digit(n % 10)]
  }

  /** The number a string of decimal digits denotes. */
  function DigitsValue(s: string): nat
    requires AllDigits(s)
  {
    if s == [] then 0 else DigitsValue(s[..|s| - 1]) * 10 + (s[|s| - 1] as int - '0' as int)
  }

  /** Reading back what `DecimalString` writes gives the number again. */
  lemma {:induction false} DecimalStringValue(n: nat)
    ensures DigitsValue(DecimalString(n)) == n
  {
    if n >= 10 {
      var s := DecimalString(n / 10);
      DecimalStringValue(n / 10);
      assert (s + [Digit(n % 10)])[..|s|] == s;
    }
  }

  /** `${i}` for any integer. */
  function IntString(i: int): (s: string)
  {
    if i < 0 then "-" + DecimalString(-i) else DecimalString(i)
  }

  /** `${i}` reads back as `i`: a minus sign exactly for a negative number, then the digits of its magnitude. */
  lemma IntStringValue(i: int)
    ensures var s := IntString(i);
            && |s| >= 1
            && (s[0] == '-' <==> i < 0)
            && (i >= 0 ==> AllDigits(s) && DigitsValue(s) == i)
            && (i < 0 ==> AllDigits(s[1..]) && DigitsValue(s[1..]) == -i)
  {
    if i < 0 {
      DecimalStringValue(-i);
      assert IntString(i)[1..] == DecimalString(-i);
    } else {
      DecimalStringValue(i);
    }
  }

  /** `p` occurs in `s` starting at index `j`. */
  predicate OccursAt(s: string, p: string, j: nat) {
    j + |p| <= |s| && s[j..j + |p|] == p
  }

  /** `s.indexOf(p)`: the first index at which `p` occurs, if any. */
  function FindFirst(s: string, p: string): (r: Option<nat>)
    ensures r.Some? ==> OccursAt(s, p, r.value)
    decreases |s|
  {
    if OccursAt(s, p, 0) then Some(0)
    else if s == [] then None
    else
      match FindFirst(s[1..], p)
      case None => None
      case Some(i) =>
        assert s[1..][i..i + |p|] == s[i + 1..i + 1 + |p|];
        Some(i + 1)
  }

  /** An occurrence in `s[1..]` is an occurrence in `s`, one place further on. */
  lemma ShiftOccurrence(s: string, p: string)
    requires s != []
    ensures forall j: nat :: 0 < j ==> (OccursAt(s, p, j) <==> OccursAt(s[1..], p, j - 1))
  {
    forall j: nat | 0 < j
      ensures OccursAt(s, p, j) <==> OccursAt(s[1..], p, j - 1)
    {
      if j + |p| <= |s| {
        assert s[1..][j - 1..j - 1 + |p|] == s[j..j + |p|];
      }
    }
  }

  /** `FindFirst` finds an occurrence, the earliest one, and reports none only when there is none. */
  lemma {:induction false} FindFirstIsFirst(s: string, p: string)
    ensures FindFirst(s, p).Some? ==> forall j: nat :: j < FindFirst(s, p).value ==> !OccursAt(s, p, j)
    ensures FindFirst(s, p).None? ==> forall j: nat :: !OccursAt(s, p, j)
    decreases |s|
  {
    if !OccursAt(s, p, 0) && s != [] {
      FindFirstIsFirst(s[1..], p);
      ShiftOccurrence(s, p);
    }
  }

  /** Whatever the first occurrence is, `FindFirst` returns exactly it. */
  lemma FindFirstAt(s: string, p: string, i: nat)
    requires OccursAt(s, p, i)
    requires forall j: nat :: j < i ==> !OccursAt(s, p, j)
    ensures FindFirst(s, p) == Some(i)
  {
    FindFirstIsFirst(s, p);
  }

  /** The characters that, after a `$`, form a pattern. */
  predicate IsPatternChar(c: char) {
    c == '$' || c == '&' || c == '`' || c == '\''
  }

  /** The text the pattern `$c` stands for. */
  function Expansion(c: char, matched: string, before: string, after: string): string {
    if c == '$' then "$" else if c == '&' then matched else if c == '`' then before else after
  }

  /**
   * The text that takes the place of a match in `replace` with a string
   * pattern (GetSubstitution in ECMA-262): in the replacement `t`, `$$` stands
   * for a dollar sign, `$&` for the matched text, `` $` `` for the text before
   * the match and `$'` for the text after it. A string pattern has no capture
   * groups, so every other character, a `$` that starts no such pair included,
   * stands for itself.
   */
  function Substitution(t: string, matched: string, before: string, after: string): string
    decreases |t|
  {
    if |t| >= 2 && t[0] == '$' && IsPatternChar(t[1]) then
      Expansion(t[1], matched, before, after) + Substitution(t[2..], matched, before, after)
    else if t == [] then []
    else [t[0]] + Substitution(t[1..], matched, before, after)
  }

  /** A replacement without a dollar sign is inserted as it is. */
  lemma {:induction false} SubstitutionWithoutDollar(t: string, matched: string, before: string, after: string)
    requires '$' !in t
    ensures Substitution(t, matched, before, after) == t
    decreases |t|
  {
    if t != [] {
      assert t == [t[0]] + t[1..];
      SubstitutionWithoutDollar(t[1..], matched, before, after);
    }
  }

  /** A `$` pattern at the head of the replacement expands to its text. */
  lemma SubstitutionPattern(t: string, matched: string, before: string, after: string)
    requires |t| >= 2 && t[0] == '$' && IsPatternChar(t[1])
    ensures Substitution(t, matched, before, after)
            == Expansion(t[1], matched, before, after) + Substitution(t[2..], matched, before, after)
  {
  }

  /**
   * `s.replace(p, t)` with a string pattern: the first occurrence of `p` is
   * replaced by the substitution `t` describes; without an occurrence `s`
   * comes back unchanged.
   */
  function ReplaceFirst(s: string, p: string, t: string): string {
    match FindFirst(s, p)
    case None => s
    case Some(i) => s[..i] + Substitution(t, p, s[..i], s[i + |p|..]) + s[i + |p|..]
  }

  /** Only the first occurrence of the pattern is replaced, and nothing else of `s` changes. */
  lemma ReplaceFirstReplaces(s: string, p: string, t: string)
    ensures (forall j: nat :: !OccursAt(s, p, j)) ==> ReplaceFirst(s, p, t) == s
    ensures forall i: nat :: OccursAt(s, p, i) && (forall j: nat :: j < i ==> !OccursAt(s, p, j)) ==>
              ReplaceFirst(s, p, t) == s[..i] + Substitution(t, p, s[..i], s[i + |p|..]) + s[i + |p|..]
  {
    FindFirstIsFirst(s, p);
    forall i: nat | OccursAt(s, p, i) && (forall j: nat :: j < i ==> !OccursAt(s, p, j))
      ensures ReplaceFirst(s, p, t) == s[..i] + Substitution(t, p, s[..i], s[i + |p|..]) + s[i + |p|..]
    {
      FindFirstAt(s, p, i);
    }
  }

  /** A replacement without a dollar sign takes the place of the first occurrence literally. */
  lemma ReplaceFirstLiteral(s: string, p: string, t: string, i: nat)
    requires '$' !in t
    requires OccursAt(s, p, i) && forall j: nat :: j < i ==> !OccursAt(s, p, j)
    ensures ReplaceFirst(s, p, t) == s[..i] + t + s[i + |p|..]
  {
    FindFirstAt(s, p, i);
    SubstitutionWithoutDollar(t, p, s[..i], s[i + |p|..]);
  }
}
