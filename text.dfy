/**
 * The string operations the maturity parser relies on: Python's
 * `str.split(sep)` with an explicit separator, its inverse `sep.join`,
 * and the part of `float(s)` that accepts unsigned decimal numerals.
 */
module Text {
  import opened Outcomes

  /** Number of occurrences of `c` in `s`. */
  function Count(s: string, c: char): nat
  {
    if s == [] then 0 else (if s[0] == c then 1 else 0) + Count(s[1..], c)
  }

  /**
   * `s.split(sep)`: the pieces between occurrences of `sep`, empty pieces
   * included, so there is always one more piece than separators.
   */
  function Split(s: string, sep: char): (parts: seq<string>)
    ensures |parts| == Count(s, sep) + 1
    ensures forall k :: 0 <= k < |parts| ==> sep !in parts[k]
  {
    if s == [] then [""]
    else
      var rest := Split(s[1..], sep);
      if s[0] == sep then [""] + rest
      else [[s[0]] + rest[0]] + rest[1..]
  }

  /** `sep.join(parts)`. */
  function Join(parts: seq<string>, sep: char): string
    requires |parts| >= 1
  {
    if |parts| == 1 then parts[0] else parts[0] + [sep] + Join(parts[1..], sep)
  }

  lemma {:induction false} JoinConsChar(c: char, parts: seq<string>, sep: char)
    requires |parts| >= 1
    ensures Join([[c] + parts[0]] + parts[1..], sep) == [c] + Join(parts, sep)
  {
    var q := [[c] + parts[0]] + parts[1..];
    assert q[1..] == parts[1..];
  }

  /** Joining the pieces of a split gives back the original string. */
  lemma {:induction false} JoinSplit(s: string, sep: char)
    ensures Join(Split(s, sep), sep) == s
  {
    if s != [] {
      var rest := Split(s[1..], sep);
      JoinSplit(s[1..], sep);
      if s[0] == sep {
        assert ([""] + rest)[1..] == rest;
        assert Join([""] + rest, sep) == [sep] + Join(rest, sep);
      } else {
        JoinConsChar(s[0], rest, sep);
      }
      assert s == [s[0]] + s[1..];
    }
  }

  /** A string with no separator splits into itself alone. */
  lemma {:induction false} SplitNoSep(s: string, sep: char)
    requires sep !in s
    ensures Split(s, sep) == [s]
  {
    if s != [] {
      assert sep !in s[1..];
      SplitNoSep(s[1..], sep);
      assert [s[0]] + s[1..] == s;
    }
  }

  /** A separator-free piece followed by the separator splits off first. */
  lemma {:induction false} SplitPrefix(p: string, sep: char, t: string)
    requires sep !in p
    ensures Split(p + [sep] + t, sep) == [p] + Split(t, sep)
  {
    var s := p + [sep] + t;
    if p == [] {
      assert s == [sep] + t;
      assert s[1..] == t;
    } else {
      assert s[1..] == p[1..] + [sep] + t;
      assert sep !in p[1..];
      SplitPrefix(p[1..], sep, t);
      assert [p[0]] + p[1..] == p;
    }
  }

  /** Splitting a join of separator-free pieces gives back those pieces. */
  lemma {:induction false} SplitJoin(parts: seq<string>, sep: char)
    requires |parts| >= 1
    requires forall k :: 0 <= k < |parts| ==> sep !in parts[k]
    ensures Split(Join(parts, sep), sep) == parts
  {
    if |parts| == 1 {
      SplitNoSep(parts[0], sep);
    } else {
      SplitJoin(parts[1..], sep);
      SplitPrefix(parts[0], sep, Join(parts[1..], sep));
      assert [parts[0]] + parts[1..] == parts;
    }
  }

  predicate IsDigit(c: char)
  {
    '0' <= c <= '9'
  }

  predicate AllDigits(s: string)
  {
    forall k :: 0 <= k < |s| ==> IsDigit(s[k])
  }

  function DigitValue(c: char): nat
    requires IsDigit(c)
  {
    c as int - '0' as int
  }

  /** The value of a string of decimal digits, most significant first. */
  function DigitsValue(s: string): nat
    requires AllDigits(s)
  {
    if s == [] then 0 else DigitsValue(s[..|s| - 1]) * 10 + DigitValue(s[|s| - 1])
  }

  function Pow10(n: nat): (r: nat)
    ensures r >= 1
  {
    if n == 0 then 1 else 10 * Pow10(n - 1)
  }

  /** The value of the numeral `whole.frac`. */
  function DecimalValue(whole: string, frac: string): (v: real)
    requires AllDigits(whole) && AllDigits(frac)
    ensures v >= 0.0
  {
    DigitsValue(whole) as real + DigitsValue(frac) as real / Pow10(|frac|) as real
  }

  /**
   * `float(s)` restricted to its unsigned decimal form: one or more digits,
   * or digits on either side of a single `.` with at least one digit in all
   * (`"7"`, `"0.25"`, `"5."`, `".5"`). Every other string is refused.
   */
  function ParseFloat(s: string): (r: Option<real>)
    ensures r.Some? ==> r.value >= 0.0
  {
    var parts := Split(s, '.');
    if |parts| == 1 then
      if s != [] && AllDigits(s) then Some(DigitsValue(s) as real) else None
    else if |parts| == 2 then
      var whole, frac := parts[0], parts[1];
      if AllDigits(whole) && AllDigits(frac) && |whole| + |frac| > 0
      then Some(DecimalValue(whole, frac))
      else None
    else None
  }

  /** A string of digits is accepted, with its digit value. */
  lemma ParseFloatDigits(s: string)
    requires s != [] && AllDigits(s)
    ensures ParseFloat(s) == Some(DigitsValue(s) as real)
  {
    SplitNoSep(s, '.');
  }

  /** `whole.frac` is accepted, with its decimal value. */
  lemma ParseFloatDecimal(whole: string, frac: string)
    requires AllDigits(whole) && AllDigits(frac) && |whole| + |frac| > 0
    ensures ParseFloat(whole + "." + frac) == Some(DecimalValue(whole, frac))
  {
    SplitNoSep(frac, '.');
    SplitPrefix(whole, '.', frac);
  }

  /**
   * What `ParseFloat` accepts is non-empty, made of digits and dots only,
   * and has a non-negative value; in particular it never holds a `-`.
   */
  lemma ParseFloatAccepts(s: string)
    requires ParseFloat(s).Some?
    ensures s != []
    ensures forall k :: 0 <= k < |s| ==> IsDigit(s[k]) || s[k] == '.'
    ensures ParseFloat(s).value >= 0.0
  {
    var parts := Split(s, '.');
    JoinSplit(s, '.');
    if |parts| == 2 {
      assert parts[1..] == [parts[1]];
      assert s == parts[0] + "." + parts[1];
      forall k | 0 <= k < |s| ensures IsDigit(s[k]) || s[k] == '.' {
        if k < |parts[0]| {
          assert s[k] == parts[0][k];
        } else if k > |parts[0]| {
          assert s[k] == parts[1][k - |parts[0]| - 1];
        }
      }
    }
  }

  /**
   * Conversely, an accepted string is one of the two forms above, with
   * that form's value: so `"1.2.3"`, `"1-2"`, `""` and `"."` are refused.
   */
  lemma ParseFloatOnlyForms(s: string)
    requires ParseFloat(s).Some?
    ensures || (s != [] && AllDigits(s) && ParseFloat(s).value == DigitsValue(s) as real)
            || exists w, f :: s == w + "." + f && AllDigits(w) && AllDigits(f) && |w| + |f| > 0
                 && ParseFloat(s).value == DecimalValue(w, f)
  {
    var parts := Split(s, '.');
    JoinSplit(s, '.');
    if |parts| == 2 {
      assert parts[1..] == [parts[1]];
      assert s == parts[0] + "." + parts[1];
    }
  }
}
