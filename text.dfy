/** The Python string built-ins the modelled code relies on: `str` of a
    non-negative int, `int` of a string of decimal digits, `str.split` on one
    character and the substring test `sub in s`. */
module Text {
  import opened Common

  predicate IsDigit(c: char)
  {
    '0' <= c <= '9'
  }

  predicate AllDigits(s: string)
  {
    forall i :: 0 <= i < |s| ==> IsDigit(s[i])
  }

  function DigitChar(d: nat): (c: char)
    requires d < 10
    ensures IsDigit(c)
  {
    ('0' as int + d) as char
  }

  function DigitValue(c: char): (d: nat)
    requires IsDigit(c)
    ensures d < 10
  {
    c as int - '0' as int
  }

  /** `str(n)`: the decimal digits of n, most significant first, without
      leading zeros. */
  function DecimalString(n: nat): (s: string)
    ensures 1 <= |s|
    ensures AllDigits(s)
    ensures |s| > 1 ==> s[0] != '0'
    decreases n
  {
    if n < 10 then [DigitChar(n)]
    else DecimalString(n / 10) + [DigitChar(n % 10)]
  }

  /** `int(s)` on a string of ASCII decimal digits; anything else (including
      the empty string) raises ValueError, written here as None. */
  function ParseDecimal(s: string): (r: Option<nat>)
    ensures r.Some? <==> 1 <= |s| && AllDigits(s)
    decreases |s|
  {
    if |s| == 0 || !IsDigit(s[|s| - 1]) then None
    else if |s| == 1 then Some(DigitValue(s[0]))
    else
      var init := s[..|s| - 1];
      assert forall i :: 0 <= i < |init| ==> init[i] == s[i];
      match ParseDecimal(init)
      case None => None
      case Some(m) => Some(10 * m + DigitValue(s[|s| - 1]))
  }

  /** `int(str(n)) == n`. */
  lemma {:induction false} ParseDecimalString(n: nat)
    ensures ParseDecimal(DecimalString(n)) == Some(n)
    decreases n
  {
    if n >= 10 {
      var s := DecimalString(n);
      ParseDecimalString(n / 10);
      assert s[..|s| - 1] == DecimalString(n / 10);
    }
  }

  /** `sep.join(parts)`. */
  function JoinWith(parts: seq<string>, sep: char): string
    requires |parts| >= 1
    decreases |parts|
  {
    if |parts| == 1 then parts[0] else parts[0] + [sep] + JoinWith(parts[1..], sep)
  }

  /** `s.split(sep)`: the pieces between the occurrences of sep, so there is
      always one piece more than there are separators. */
  function SplitOn(s: string, sep: char): (parts: seq<string>)
    ensures |parts| >= 1
    ensures forall i :: 0 <= i < |parts| ==> sep !in parts[i]
    ensures JoinWith(parts, sep) == s
    decreases |s|
  {
    if |s| == 0 then [""]
    else
      var rest := SplitOn(s[1..], sep);
      if s[0] == sep then
        assert JoinWith([""] + rest, sep) == [sep] + JoinWith(rest, sep);
        [""] + rest
      else
        var parts := [[s[0]] + rest[0]] + rest[1..];
        assert JoinWith(parts, sep) == [s[0]] + JoinWith(rest, sep) by {
          if |rest| > 1 {
            assert parts[1..] == rest[1..];
          }
        }
        parts
  }

  /** A string without the separator splits into itself alone. */
  lemma {:induction false} SplitWithoutSeparator(s: string, sep: char)
    requires sep !in s
    ensures SplitOn(s, sep) == [s]
    decreases |s|
  {
    if |s| > 0 {
      SplitWithoutSeparator(s[1..], sep);
    }
  }

  /** `(a + sep + b).split(sep) == [a, b]` when neither side holds sep. */
  lemma {:induction false} SplitAroundSeparator(a: string, b: string, sep: char)
    requires sep !in a && sep !in b
    ensures SplitOn(a + [sep] + b, sep) == [a, b]
    decreases |a|
  {
    var s := a + [sep] + b;
    if |a| == 0 {
      assert s[1..] == b;
      SplitWithoutSeparator(b, sep);
    } else {
      assert s[1..] == a[1..] + [sep] + b;
      SplitAroundSeparator(a[1..], b, sep);
      assert [s[0]] + a[1..] == a;
    }
  }

  /** `sub` occurs in `s` starting at position i. */
  predicate OccursAt(s: string, sub: string, i: nat)
  {
    i + |sub| <= |s| && s[i..i + |sub|] == sub
  }

  /** The characters `sub[j..]` match `s` from position `i + j` on. */
  predicate MatchesFrom(s: string, sub: string, i: nat, j: nat)
    requires i + |sub| <= |s| && j <= |sub|
    decreases |sub| - j
  {
    j == |sub| || (s[i + j] == sub[j] && MatchesFrom(s, sub, i, j + 1))
  }

  /** Some occurrence of `sub` in `s` starts at position i or later. */
  predicate ContainsFrom(s: string, sub: string, i: nat)
    decreases |s| - i
  {
    i + |sub| <= |s| && (MatchesFrom(s, sub, i, 0) || ContainsFrom(s, sub, i + 1))
  }

  /** Python's `sub in s` on strings. */
  predicate Contains(s: string, sub: string)
  {
    ContainsFrom(s, sub, 0)
  }

  lemma {:induction false} MatchesFromIsSlice(s: string, sub: string, i: nat, j: nat)
    requires i + |sub| <= |s| && j <= |sub|
    ensures MatchesFrom(s, sub, i, j) <==> s[i + j..i + |sub|] == sub[j..]
    decreases |sub| - j
  {
    if j < |sub| {
      MatchesFromIsSlice(s, sub, i, j + 1);
      assert s[i + j..i + |sub|] == [s[i + j]] + s[i + j + 1..i + |sub|];
      assert sub[j..] == [sub[j]] + sub[j + 1..];
    }
  }

  lemma {:induction false} ContainsFromSpec(s: string, sub: string, i: nat)
    ensures ContainsFrom(s, sub, i) <==> exists k :: i <= k && OccursAt(s, sub, k)
    decreases |s| - i
  {
    if i + |sub| <= |s| {
      MatchesFromIsSlice(s, sub, i, 0);
      ContainsFromSpec(s, sub, i + 1);
      assert sub[0..] == sub;
      if ContainsFrom(s, sub, i) {
        if MatchesFrom(s, sub, i, 0) {
          assert OccursAt(s, sub, i);
        }
      }
      if exists k :: i <= k && OccursAt(s, sub, k) {
        var k :| i <= k && OccursAt(s, sub, k);
        if k > i {
          assert i + 1 <= k && OccursAt(s, sub, k);
        }
      }
    }
  }

  /** `sub in s` holds exactly when sub occurs at some position of s. */
  lemma ContainsSpec(s: string, sub: string)
    ensures Contains(s, sub) <==> exists k :: OccursAt(s, sub, k)
  {
    ContainsFromSpec(s, sub, 0);
  }
}
