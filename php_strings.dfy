/**
 * The PHP string built-ins the command wrappers rely on: `explode` and
 * `implode` with a one-character separator, `ltrim`/`trim`, the `empty`
 * test on strings, and the decimal rendering of `"ns" . ($i + 1)`.
 */
module PhpStrings {

  // ---------------------------------------------------------------------
  // explode / implode
  // ---------------------------------------------------------------------

  /** PHP `explode(sep, s)`: the pieces of `s` between occurrences of `sep`. */
  function Explode(sep: char, s: string): (pieces: seq<string>)
    ensures |pieces| >= 1
    ensures forall i :: 0 <= i < |pieces| ==> sep !in pieces[i]
  {
    if s == [] then [""]
    else
      var rest := Explode(sep, s[1..]);
      if s[0] == sep then [""] + rest
      else [[s[0]] + rest[0]] + rest[1..]
  }

  /** PHP `implode(sep, parts)`: the parts joined with `sep` between neighbours. */
  function Implode(sep: char, parts: seq<string>): (s: string)
  {
    if parts == [] then ""
    else if |parts| == 1 then parts[0]
    else parts[0] + [sep] + Implode(sep, parts[1..])
  }

  /**
   * A join starts with the first part, ends with the last, and has a separator
   * between every two neighbours, so it is at least that long.
   */
  lemma {:induction false} ImplodeEnds(sep: char, parts: seq<string>)
    requires parts != []
    ensures parts[0] <= Implode(sep, parts)
    ensures var s, last := Implode(sep, parts), parts[|parts| - 1];
      |last| <= |s| && s[|s| - |last|..] == last
    ensures |Implode(sep, parts)| >= |parts| - 1
  {
    if |parts| > 1 {
      ImplodeEnds(sep, parts[1..]);
      var rest := Implode(sep, parts[1..]);
      var s := parts[0] + [sep] + rest;
      assert parts[1..][|parts| - 2] == parts[|parts| - 1];
      assert s[|s| - |rest|..] == rest;
    }
  }

  /** A string without the separator explodes into itself alone. */
  lemma {:induction false} ExplodeWithoutSeparator(sep: char, a: string)
    requires sep !in a
    ensures Explode(sep, a) == [a]
  {
    if a != [] {
      assert a[0] != sep && sep !in a[1..];
      ExplodeWithoutSeparator(sep, a[1..]);
      assert [a[0]] + a[1..] == a;
    }
  }

  /** The first piece ends at the first separator, and exploding resumes after it. */
  lemma {:induction false} ExplodeAfterPiece(sep: char, a: string, t: string)
    requires sep !in a
    ensures Explode(sep, a + [sep] + t) == [a] + Explode(sep, t)
  {
    if a == [] {
      assert a + [sep] + t == [sep] + t;
      assert ([sep] + t)[1..] == t;
    } else {
      var s := a + [sep] + t;
      assert s[0] == a[0];
      assert s[1..] == a[1..] + [sep] + t;
      ExplodeAfterPiece(sep, a[1..], t);
      assert [a[0]] + a[1..] == a;
    }
  }

  /** Joining the pieces again gives back the exploded string. */
  lemma {:induction false} ImplodeExplode(sep: char, s: string)
    ensures Implode(sep, Explode(sep, s)) == s
  {
    if s != [] {
      var rest := Explode(sep, s[1..]);
      ImplodeExplode(sep, s[1..]);
      if s[0] == sep {
        assert Explode(sep, s) == [""] + rest;
        assert Implode(sep, [""] + rest) == "" + [sep] + Implode(sep, rest);
        assert "" + [sep] + s[1..] == s;
      } else if |rest| == 1 {
        assert Explode(sep, s) == [[s[0]] + rest[0]];
        assert [s[0]] + s[1..] == s;
      } else {
        var pieces := [[s[0]] + rest[0]] + rest[1..];
        assert Explode(sep, s) == pieces;
        assert pieces[1..] == rest[1..];
        assert Implode(sep, rest) == rest[0] + [sep] + Implode(sep, rest[1..]);
        assert Implode(sep, pieces) == [s[0]] + rest[0] + [sep] + Implode(sep, rest[1..]);
        assert [s[0]] + s[1..] == s;
      }
    }
  }

  /** Exploding a join of separator-free parts recovers the parts. */
  lemma {:induction false} ExplodeImplode(sep: char, parts: seq<string>)
    requires |parts| >= 1
    requires forall i :: 0 <= i < |parts| ==> sep !in parts[i]
    ensures Explode(sep, Implode(sep, parts)) == parts
  {
    if |parts| == 1 {
      ExplodeWithoutSeparator(sep, parts[0]);
    } else {
      ExplodeImplode(sep, parts[1..]);
      ExplodeAfterPiece(sep, parts[0], Implode(sep, parts[1..]));
      assert [parts[0]] + parts[1..] == parts;
    }
  }

  // ---------------------------------------------------------------------
  // ltrim / rtrim / trim
  // ---------------------------------------------------------------------

  /** The characters PHP's `trim` strips when no list is given. */
  const TrimDefault: set<char> := {' ', '\t', '\n', '\r', '\0', '\U{0B}'}

  /** PHP `ltrim(s, chars)`: `s` with its leading run of characters from `chars` removed. */
  function LTrim(s: string, chars: set<char>): (r: string)
    ensures |r| <= |s| && r == s[|s| - |r|..]
    ensures r == [] || r[0] !in chars
    ensures forall i :: 0 <= i < |s| - |r| ==> s[i] in chars
  {
    if s != [] && s[0] in chars then LTrim(s[1..], chars) else s
  }

  /** PHP `rtrim(s, chars)`: `s` with its trailing run of characters from `chars` removed. */
  function RTrim(s: string, chars: set<char>): (r: string)
    ensures |r| <= |s| && r == s[..|r|]
    ensures r == [] || r[|r| - 1] !in chars
    ensures forall i :: |r| <= i < |s| ==> s[i] in chars
  {
    if s != [] && s[|s| - 1] in chars then RTrim(s[..|s| - 1], chars) else s
  }

  /** PHP `trim(s)` with the default character list. */
  function Trim(s: string): (r: string)
    ensures |r| <= |s|
    ensures r == [] || (r[0] !in TrimDefault && r[|r| - 1] !in TrimDefault)
  {
    RTrim(LTrim(s, TrimDefault), TrimDefault)
  }

  /**
   * `ltrim` is determined by its result: splitting `s` into a prefix drawn
   * from `chars` and a rest that does not start with one of them gives the rest.
   */
  lemma {:induction false} LTrimSplit(prefix: string, rest: string, chars: set<char>)
    requires forall i :: 0 <= i < |prefix| ==> prefix[i] in chars
    requires rest == [] || rest[0] !in chars
    ensures LTrim(prefix + rest, chars) == rest
  {
    if prefix != [] {
      assert (prefix + rest)[1..] == prefix[1..] + rest;
      LTrimSplit(prefix[1..], rest, chars);
    }
  }

  /** `rtrim` is determined by its result, as `ltrim` is. */
  lemma {:induction false} RTrimSplit(rest: string, suffix: string, chars: set<char>)
    requires forall i :: 0 <= i < |suffix| ==> suffix[i] in chars
    requires rest == [] || rest[|rest| - 1] !in chars
    ensures RTrim(rest + suffix, chars) == rest
  {
    if suffix != [] {
      var s := rest + suffix;
      assert s[|s| - 1] == suffix[|suffix| - 1];
      assert s[..|s| - 1] == rest + suffix[..|suffix| - 1];
      RTrimSplit(rest, suffix[..|suffix| - 1], chars);
    } else {
      assert rest + suffix == rest;
    }
  }

  /**
   * `trim` removes exactly the surrounding runs: a string made of a prefix and
   * a suffix of default characters around a middle that neither starts nor ends
   * with one trims to that middle.
   */
  lemma TrimSplit(prefix: string, middle: string, suffix: string)
    requires forall i :: 0 <= i < |prefix| ==> prefix[i] in TrimDefault
    requires forall i :: 0 <= i < |suffix| ==> suffix[i] in TrimDefault
    requires middle == [] || (middle[0] !in TrimDefault && middle[|middle| - 1] !in TrimDefault)
    ensures Trim(prefix + middle + suffix) == middle
  {
    var s := prefix + middle + suffix;
    if middle == [] {
      assert s == (prefix + suffix) + [];
      LTrimSplit(prefix + suffix, [], TrimDefault);
    } else {
      assert s == prefix + (middle + suffix);
      LTrimSplit(prefix, middle + suffix, TrimDefault);
      RTrimSplit(middle, suffix, TrimDefault);
    }
  }

  /** Trimming twice is trimming once. */
  lemma LTrimIdempotent(s: string, chars: set<char>)
    ensures LTrim(LTrim(s, chars), chars) == LTrim(s, chars)
  {
    LTrimSplit([], LTrim(s, chars), chars);
  }

  /** PHP `empty()` on a string: true for "" and for "0". */
  predicate PhpEmpty(s: string)
  {
    s == "" || s == "0"
  }

  /**
   * Only "" and "0" are empty: a blank, "00", "0.0" and "false" are not, as in
   * PHP's conversion of strings to booleans.
   */
  lemma PhpEmptyExamples()
    ensures PhpEmpty("") && PhpEmpty("0")
    ensures !PhpEmpty(" ") && !PhpEmpty("00") && !PhpEmpty("0.0") && !PhpEmpty("false")
  {
  }

  // ---------------------------------------------------------------------
  // decimal rendering of naturals (PHP string concatenation of an int)
  // ---------------------------------------------------------------------

  predicate IsDigits(s: string)
  {
    forall i :: 0 <= i < |s| ==> '0' <= s[i] <= '9'
  }

  function Digit(d: nat): (c: char)
    requires d < 10
    ensures '0' <= c <= '9' && c as int - '0' as int == d
  {
    ('0' as int + d) as char
  }

  /** The decimal text of `n`, as PHP renders an integer when concatenated to a string. */
  function DecimalString(n: nat): (s: string)
    ensures |s| >= 1 && IsDigits(s)
  {
    if n < 10 then [Digit(n)] else DecimalString(n / 10) + [Digit(n % 10)]
  }

  /** The number a string of digits denotes. */
  function DecimalValue(s: string): (n: nat)
    requires IsDigits(s)
  {
    if s == [] then 0
    else DecimalValue(s[..|s| - 1]) * 10 + (s[|s| - 1] as int - '0' as int)
  }

  /** Reading back a rendered number gives the number. */
  lemma {:induction false} DecimalRoundTrip(n: nat)
    ensures DecimalValue(DecimalString(n)) == n
  {
    var s := DecimalString(n);
    if n >= 10 {
      DecimalRoundTrip(n / 10);
      assert s[..|s| - 1] == DecimalString(n / 10);
      assert s[|s| - 1] == Digit(n % 10);
    } else {
      assert s[..|s| - 1] == [];
    }
  }

  /** Distinct numbers render as distinct strings. */
  lemma DecimalInjective(m: nat, n: nat)
    requires m != n
    ensures DecimalString(m) != DecimalString(n)
  {
    DecimalRoundTrip(m);
    DecimalRoundTrip(n);
  }
}
