/** Text helpers the rewriter and the code writer rely on: whitespace
    trimming as .NET's String.TrimStart/TrimEnd do it, ordinal
    case-insensitive comparison, splitting at the first '=' and the decimal
    rendering of a line number. */
module Strings {

  /** char.IsWhiteSpace restricted to ASCII: space, tab, line feed,
      vertical tab, form feed and carriage return. */
  predicate IsWhiteSpace(c: char) {
    c == ' ' || ('\t' <= c <= '\r')
  }

  predicate AllWhiteSpace(s: string) {
    forall i | 0 <= i < |s| :: IsWhiteSpace(s[i])
  }

  /** Length of the longest whitespace prefix of s. */
  function LeadingWhiteSpace(s: string): (n: nat)
    ensures n <= |s|
  {
    if s == [] || !IsWhiteSpace(s[0]) then 0 else LeadingWhiteSpace(s[1..]) + 1
  }

  /** The prefix LeadingWhiteSpace measures is whitespace and is followed by
      the end of s or by a character that is not. */
  lemma {:induction false} LeadingWhiteSpaceFacts(s: string)
    ensures forall i | 0 <= i < LeadingWhiteSpace(s) :: IsWhiteSpace(s[i])
    ensures LeadingWhiteSpace(s) < |s| ==> !IsWhiteSpace(s[LeadingWhiteSpace(s)])
    decreases |s|
  {
    if s != [] && IsWhiteSpace(s[0]) {
      LeadingWhiteSpaceFacts(s[1..]);
      assert forall i | 1 <= i < LeadingWhiteSpace(s) :: s[i] == s[1..][i - 1];
    }
  }

  /** Length of the longest whitespace suffix of s. */
  function TrailingWhiteSpace(s: string): (n: nat)
    ensures n <= |s|
  {
    if s == [] || !IsWhiteSpace(s[|s| - 1]) then 0 else TrailingWhiteSpace(s[..|s| - 1]) + 1
  }

  /** The suffix TrailingWhiteSpace measures is whitespace and is preceded
      by the start of s or by a character that is not. */
  lemma {:induction false} TrailingWhiteSpaceFacts(s: string)
    ensures forall i | |s| - TrailingWhiteSpace(s) <= i < |s| :: IsWhiteSpace(s[i])
    ensures TrailingWhiteSpace(s) < |s| ==> !IsWhiteSpace(s[|s| - 1 - TrailingWhiteSpace(s)])
    decreases |s|
  {
    if s != [] && IsWhiteSpace(s[|s| - 1]) {
      var init := s[..|s| - 1];
      TrailingWhiteSpaceFacts(init);
      assert forall i | 0 <= i < |init| :: s[i] == init[i];
    }
  }

  function TrimStart(s: string): string {
    s[LeadingWhiteSpace(s)..]
  }

  function TrimEnd(s: string): string {
    s[..|s| - TrailingWhiteSpace(s)]
  }

  function Trim(s: string): string {
    TrimEnd(TrimStart(s))
  }

  /** The trimmed text is the part of s after its leading whitespace and
      before the trailing whitespace of what follows. */
  lemma TrimIsSlice(s: string)
    ensures LeadingWhiteSpace(s) + |Trim(s)| <= |s|
    ensures Trim(s) == s[LeadingWhiteSpace(s)..LeadingWhiteSpace(s) + |Trim(s)|]
  {
    var lead := LeadingWhiteSpace(s);
    var rest := s[lead..];
    assert Trim(s) == rest[..|rest| - TrailingWhiteSpace(rest)];
  }

  /** Every character of s outside the trimmed text is whitespace. */
  lemma TrimDropsOnlyWhiteSpace(s: string)
    ensures LeadingWhiteSpace(s) + |Trim(s)| <= |s|
    ensures forall i | 0 <= i < |s| && !(LeadingWhiteSpace(s) <= i < LeadingWhiteSpace(s) + |Trim(s)|) ::
      IsWhiteSpace(s[i])
  {
    var lead := LeadingWhiteSpace(s);
    var rest := s[lead..];
    var n := |rest| - TrailingWhiteSpace(rest);
    assert |Trim(s)| == n;
    LeadingWhiteSpaceFacts(s);
    TrailingWhiteSpaceFacts(rest);
    forall i | lead + n <= i < |s| ensures IsWhiteSpace(s[i]) {
      assert s[i] == rest[i - lead];
    }
  }

  /** The trimmed text is empty exactly when s is all whitespace, and
      otherwise starts and ends with a character that is not whitespace. */
  lemma TrimKeepsNonWhiteSpace(s: string)
    ensures LeadingWhiteSpace(s) + |Trim(s)| <= |s|
    ensures |Trim(s)| > 0 <==> !AllWhiteSpace(s)
    ensures |Trim(s)| > 0 ==>
      !IsWhiteSpace(s[LeadingWhiteSpace(s)]) && !IsWhiteSpace(s[LeadingWhiteSpace(s) + |Trim(s)| - 1])
  {
    var lead := LeadingWhiteSpace(s);
    var rest := s[lead..];
    var n := |rest| - TrailingWhiteSpace(rest);
    assert |Trim(s)| == n;
    LeadingWhiteSpaceFacts(s);
    if n > 0 {
      TrailingWhiteSpaceFacts(rest);
      assert !IsWhiteSpace(rest[n - 1]) && s[lead + n - 1] == rest[n - 1];
      assert !AllWhiteSpace(s) by {
        assert !IsWhiteSpace(s[lead]);
      }
    } else {
      TrimDropsOnlyWhiteSpace(s);
    }
  }

  /** The ASCII letters a-z folded to upper case; .NET's ordinal
      ignore-case comparison folds the same way on this range. */
  function ToUpper(c: char): char {
    if 'a' <= c <= 'z' then (c as int - 32) as char else c
  }

  function Fold(s: string): (r: string)
    ensures |r| == |s|
  {
    seq(|s|, i requires 0 <= i < |s| => ToUpper(s[i]))
  }

  /** String.Equals(a, b, StringComparison.OrdinalIgnoreCase). */
  predicate SameName(a: string, b: string) {
    Fold(a) == Fold(b)
  }

  /** Enumerable.Contains with StringComparer.OrdinalIgnoreCase. */
  predicate ContainsName(names: seq<string>, name: string) {
    exists i | 0 <= i < |names| :: SameName(names[i], name)
  }

  /** Enumerable.Distinct with StringComparer.OrdinalIgnoreCase: the first
      spelling of every name, in order of first appearance. */
  function DistinctNames(names: seq<string>): (r: seq<string>)
    ensures forall n :: ContainsName(r, n) <==> ContainsName(names, n)
    ensures forall i, j | 0 <= i < j < |r| :: !SameName(r[i], r[j])
    ensures forall i | 0 <= i < |r| :: r[i] in names
  {
    if names == [] then []
    else
      var init := names[..|names| - 1];
      var last := names[|names| - 1];
      var r := DistinctNames(init);
      assert init + [last] == names;
      ContainsNameAppend(init, last);
      if ContainsName(r, last) then r
      else
        ContainsNameAppend(r, last);
        r + [last]
  }

  /** A name is in a list with one more name exactly when it is in the list
      or is that name. */
  lemma ContainsNameAppend(names: seq<string>, x: string)
    ensures forall n :: ContainsName(names + [x], n) <==> ContainsName(names, n) || SameName(x, n)
  {
    forall n | ContainsName(names, n) ensures ContainsName(names + [x], n) {
      var i :| 0 <= i < |names| && SameName(names[i], n);
      assert (names + [x])[i] == names[i];
    }
    forall n | SameName(x, n) ensures ContainsName(names + [x], n) {
      assert (names + [x])[|names|] == x;
    }
  }

  /** The text before the first occurrence of sep, or all of s when sep does
      not occur: element [0] of String.Split(new[] { sep }, 2). */
  function BeforeFirst(s: string, sep: char): (r: string)
    ensures r <= s
    ensures sep !in r
    ensures |r| < |s| ==> s[|r|] == sep
  {
    if s == [] || s[0] == sep then []
    else [s[0]] + BeforeFirst(s[1..], sep)
  }

  /** Splitting at a separator the prefix does not contain stops right
      after the prefix. */
  lemma {:induction false} BeforeFirstOf(prefix: string, sep: char, rest: string)
    requires sep !in prefix
    ensures BeforeFirst(prefix + [sep] + rest, sep) == prefix
    ensures BeforeFirst(prefix, sep) == prefix
    decreases |prefix|
  {
    if prefix != [] {
      assert (prefix + [sep] + rest)[1..] == prefix[1..] + [sep] + rest;
      BeforeFirstOf(prefix[1..], sep, rest);
    }
  }

  predicate AllDigits(s: string) {
    forall i | 0 <= i < |s| :: '0' <= s[i] <= '9'
  }

  /** The decimal digits of n, most significant first, without leading zeros
      (Int32.ToString with the invariant culture, for a non-negative value). */
  function Decimal(n: nat): (r: string)
    ensures |r| > 0
    ensures AllDigits(r)
    decreases n
  {
    if n < 10 then [Digit(n)] else Decimal(n / 10) + [Digit(n % 10)]
  }

  function Digit(d: nat): (c: char)
    requires d < 10
    ensures '0' <= c <= '9' && c as int - '0' as int == d
  {
    ('0' as int + d) as char
  }

  /** Reads a string of decimal digits back as a number. */
  function ParseDecimal(s: string): nat
    requires AllDigits(s)
  {
    if s == [] then 0
    else 10 * ParseDecimal(s[..|s| - 1]) + (s[|s| - 1] as int - '0' as int)
  }

  /** The rendered line number reads back as the same number, and has no
      superfluous leading zero. */
  lemma {:induction false} DecimalRoundTrip(n: nat)
    ensures ParseDecimal(Decimal(n)) == n
    ensures |Decimal(n)| > 1 ==> Decimal(n)[0] != '0'
    decreases n
  {
    if n >= 10 {
      DecimalRoundTrip(n / 10);
      var r := Decimal(n);
      assert r[..|r| - 1] == Decimal(n / 10);
    }
  }
}
