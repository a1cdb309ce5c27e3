/**
 * Follower counts: the two `parseFollowers` functions that read a count from CSV text,
 * and the suffix choice shared by the three follower formatters.
 */
module Followers {
  import opened Wrappers
  import opened Seqs
  import opened Strings
  import opened Numbers

  /** What a `parseFollowers` receives: a JavaScript number, a string, or `undefined`. */
  datatype FollowerValue = Num(n: int) | Str(s: string) | Undefined

  /** `Math.round(v * factor)`; NaN stays NaN. */
  function ScaleDecimal(v: Option<Decimal>, factor: nat): (r: Option<int>)
    ensures v.None? <==> r.None?
  {
    match v
    case None => None
    case Some(d) => Some(Round(DecimalValue(d) * factor as real))
  }

  /** `Math.round(parseFloat(str) * factor)`. */
  function Scaled(str: string, factor: nat): Option<int> {
    ScaleDecimal(ParseFloat(str), factor)
  }

  /** `parseInt(str.replace(/[^\d]/g, "")) || 0`: the number the digits of `str` spell, 0 without digits. */
  function DigitsValue(str: string): (r: nat)
    ensures DigitsOnly(str) == [] ==> r == 0
    ensures DigitsOnly(str) != [] ==> r == DecValue(DigitsOnly(str))
  {
    var d := DigitsOnly(str);
    if d == [] then ParseIntOrZero(d) else ParseIntOfDigits(d); ParseIntOrZero(d)
  }

  /** The string branch of the loader's `parseFollowers`, after `trim`: an upper-case `M` or `K` suffix scales. */
  function SchemaParseTrimmed(str: string): Option<int> {
    if EndsWith(str, "M") then Scaled(str, 1000000)
    else if EndsWith(str, "K") then Scaled(str, 1000)
    else Some(DigitsValue(str))
  }

  function SchemaParseText(s: string): Option<int> {
    SchemaParseTrimmed(Trim(s))
  }

  /**
   * The loader's `parseFollowers`. `undefined` is turned into the text "undefined",
   * which holds no digit. `None` is NaN, which a suffix without a number produces.
   */
  function SchemaParseFollowers(v: FollowerValue): (r: Option<int>)
    ensures v.Num? ==> r == Some(v.n)
  {
    match v
    case Num(n) => Some(n)
    case Str(s) => SchemaParseText(s)
    case Undefined => SchemaParseText("undefined")
  }

  predicate NotComma(c: char) {
    c != ','
  }

  /** `/x$/i.test(str)` for a lower-case letter `x`. */
  predicate EndsWithLetter(str: string, lower: char) {
    |str| > 0 && LowerChar(str[|str| - 1]) == lower
  }

  /** The string branch of the explore page's `parseFollowers`, after commas and surrounding whitespace are gone: `m`/`k` scale in either case. */
  function ExploreParseCleaned(str: string): Option<int> {
    if EndsWithLetter(str, 'm') then Scaled(str, 1000000)
    else if EndsWithLetter(str, 'k') then Scaled(str, 1000)
    else Some(DigitsValue(str))
  }

  function ExploreParseText(s: string): Option<int> {
    ExploreParseCleaned(Trim(Keep(s, NotComma)))
  }

  /** The explore page's `parseFollowers`: a falsy value (`undefined`, "") is 0. */
  function ExploreParseFollowers(v: FollowerValue): (r: Option<int>)
    ensures v.Num? ==> r == Some(v.n)
    ensures v.Undefined? || v == Str("") ==> r == Some(0)
  {
    match v
    case Num(n) => Some(n)
    case Str(s) => if s == "" then Some(0) else ExploreParseText(s)
    case Undefined => Some(0)
  }

  /** Which branch a follower formatter takes; the one-decimal text of the scaled branches is not modelled. */
  datatype FollowerLabel = Millions | Thousands | Plain(text: string)

  /**
   * `formatFollowers` (the card and the influencer card) and `formatFollowerCount`
   * (the sidebar): an `M` form from 1,000,000, a `K` form from 1000, the plain decimal below.
   */
  function FormatFollowers(count: int): (r: FollowerLabel)
    ensures r == Millions <==> count >= 1000000
    ensures r == Thousands <==> 1000 <= count < 1000000
    ensures r.Plain? <==> count < 1000
    ensures r.Plain? ==> ParseInt(r.text) == Some(count)
  {
    if count >= 1000000 then Millions
    else if count >= 1000 then Thousands
    else
      ParseIntOfIntToString(count);
      Plain(IntToString(count))
  }
}
