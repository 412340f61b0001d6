/**
 * The maturity midpoint used to order funds: the range text
 * (`"7-8"`, `"0-0.25"`, `"5"`) is split on every `-`; two pieces give the
 * average of the two numbers, any other count gives the first piece's number.
 */
module Maturity {
  import opened Outcomes
  import opened Text

  /**
   * The midpoint of a maturity range, or the piece `float()` refused.
   * With two pieces the first is converted before the second.
   */
  function Midpoint(range: string): (r: Result<real, string>)
    ensures r.Err? ==> '-' !in r.error
  {
    var parts := Split(range, '-');
    if |parts| == 2 then
      match ParseFloat(parts[0])
      case None => Err(parts[0])
      case Some(lo) =>
        match ParseFloat(parts[1])
        case None => Err(parts[1])
        case Some(hi) => Ok((lo + hi) / 2.0)
    else
      match ParseFloat(parts[0])
      case None => Err(parts[0])
      case Some(v) => Ok(v)
  }

  lemma NumeralHasNoDash(s: string)
    requires ParseFloat(s).Some?
    ensures '-' !in s
  {
    ParseFloatAccepts(s);
  }

  /**
   * A range `lo-hi` of two numerals has the average of the two as its
   * midpoint, which lies between them.
   */
  lemma MidpointOfRange(lo: string, hi: string)
    requires ParseFloat(lo).Some? && ParseFloat(hi).Some?
    ensures var a, b := ParseFloat(lo).value, ParseFloat(hi).value;
      && Midpoint(lo + "-" + hi) == Ok((a + b) / 2.0)
      && (a <= b ==> a <= (a + b) / 2.0 <= b)
  {
    NumeralHasNoDash(lo);
    NumeralHasNoDash(hi);
    SplitPrefix(lo, '-', hi);
    SplitNoSep(hi, '-');
  }

  /** A single numeral is its own midpoint. */
  lemma MidpointOfSingle(s: string)
    requires ParseFloat(s).Some?
    ensures Midpoint(s) == Ok(ParseFloat(s).value)
  {
    NumeralHasNoDash(s);
    SplitNoSep(s, '-');
  }

  /**
   * With three or more pieces only the first is converted; the later
   * pieces are ignored, even when they are not numerals.
   */
  lemma MidpointOfLonger(parts: seq<string>)
    requires |parts| >= 3
    requires forall k :: 0 <= k < |parts| ==> '-' !in parts[k]
    ensures Midpoint(Join(parts, '-')) ==
      match ParseFloat(parts[0])
      case None => Err(parts[0])
      case Some(v) => Ok(v)
  {
    SplitJoin(parts, '-');
  }

  /**
   * A range `lo-hi` with a piece `float()` refuses fails on the first
   * refused piece: `lo` is converted before `hi`.
   */
  lemma MidpointRangeFails(lo: string, hi: string)
    requires '-' !in lo && '-' !in hi
    requires ParseFloat(lo).None? || ParseFloat(hi).None?
    ensures Midpoint(lo + "-" + hi) == Err(if ParseFloat(lo).None? then lo else hi)
  {
    SplitPrefix(lo, '-', hi);
    SplitNoSep(hi, '-');
  }

  /** Text without `-` that `float()` refuses fails as a whole. */
  lemma MidpointSingleFails(s: string)
    requires '-' !in s && ParseFloat(s).None?
    ensures Midpoint(s) == Err(s)
  {
    SplitNoSep(s, '-');
  }
}
