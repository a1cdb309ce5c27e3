/** What the two follower parsers and the formatter promise, and where the two parsers disagree. */
module FollowerFacts {
  import opened Wrappers
  import opened Seqs
  import opened Strings
  import opened Numbers
  import opened Followers

  // How each parser takes its text apart.

  lemma SchemaOfText(s: string)
    ensures SchemaParseFollowers(Str(s)) == SchemaParseTrimmed(Trim(s))
  {
  }

  lemma SchemaTrimmedM(x: string)
    requires EndsWith(x, "M")
    ensures SchemaParseTrimmed(x) == Scaled(x, 1000000)
  {
  }

  lemma SchemaTrimmedK(x: string)
    requires !EndsWith(x, "M") && EndsWith(x, "K")
    ensures SchemaParseTrimmed(x) == Scaled(x, 1000)
  {
  }

  lemma SchemaTrimmedPlain(x: string)
    requires !EndsWith(x, "M") && !EndsWith(x, "K")
    ensures SchemaParseTrimmed(x) == Some(DigitsValue(x))
  {
  }

  lemma ExploreOfText(s: string)
    requires s != []
    ensures ExploreParseFollowers(Str(s)) == ExploreParseCleaned(Trim(Keep(s, NotComma)))
  {
  }

  lemma ExploreCleanedM(x: string)
    requires EndsWithLetter(x, 'm')
    ensures ExploreParseCleaned(x) == Scaled(x, 1000000)
  {
  }

  lemma ExploreCleanedK(x: string)
    requires !EndsWithLetter(x, 'm') && EndsWithLetter(x, 'k')
    ensures ExploreParseCleaned(x) == Scaled(x, 1000)
  {
  }

  lemma ExploreCleanedPlain(x: string)
    requires !EndsWithLetter(x, 'm') && !EndsWithLetter(x, 'k')
    ensures ExploreParseCleaned(x) == Some(DigitsValue(x))
  {
  }

  lemma ScaledOf(x: string, d: Decimal, factor: nat)
    requires ParseFloat(x) == Some(d)
    ensures Scaled(x, factor) == ScaleDecimal(Some(d), factor)
  {
  }

  lemma ScaledNaN(x: string, factor: nat)
    requires ParseFloat(x) == None
    ensures Scaled(x, factor) == None
  {
  }

  lemma RoundOfInt(k: int)
    ensures Round(k as real) == k
  {
  }

  /** A whole number scaled by `factor` stays exact. */
  lemma ScaleWhole(k: nat, factor: nat)
    ensures ScaleDecimal(Some(Decimal(k, 0)), factor) == Some(k * factor)
  {
    DecimalOfInt(k);
    var product := k * factor;
    RealOfProduct(k, factor);
    RoundOfInt(product);
  }

  lemma RealOfProduct(k: nat, factor: nat)
    ensures k as real * factor as real == (k * factor) as real
  {
  }

  lemma ScaledWholeMillions(x: string, k: nat)
    requires ParseFloat(x) == Some(Decimal(k, 0))
    ensures Scaled(x, 1000000) == Some(k * 1000000)
  {
    ScaledOf(x, Decimal(k, 0), 1000000);
    ScaleWhole(k, 1000000);
  }

  lemma ScaledWholeThousands(x: string, k: nat)
    requires ParseFloat(x) == Some(Decimal(k, 0))
    ensures Scaled(x, 1000) == Some(k * 1000)
  {
    ScaledOf(x, Decimal(k, 0), 1000);
    ScaleWhole(k, 1000);
  }

  // Digits ignore what trimming and comma removal take away.

  lemma DigitsValueOfTrim(s: string)
    ensures DigitsValue(Trim(s)) == DigitsValue(s)
  {
    DigitsOnlyOfTrim(s);
  }

  lemma DigitsValueIgnoresCommas(s: string)
    ensures DigitsValue(Keep(s, NotComma)) == DigitsValue(s)
  {
    KeepAfterWeaker(s, NotComma, IsDigit);
  }

  lemma DigitsValueOfDigits(ds: string)
    requires ds != [] && AllDigits(ds)
    ensures DigitsValue(ds) == DecValue(ds)
  {
    KeepAll(ds, IsDigit);
  }

  // What the parsers do with text that has no suffix.

  /** Without an upper-case `M`/`K` suffix the loader reads the digits of the text, wherever they stand, and 0 without any. */
  lemma SchemaReadsDigits(s: string)
    requires !EndsWith(Trim(s), "M") && !EndsWith(Trim(s), "K")
    ensures SchemaParseFollowers(Str(s)) == Some(DigitsValue(s))
  {
    SchemaOfText(s);
    SchemaTrimmedPlain(Trim(s));
    DigitsValueOfTrim(s);
  }

  /** Without an `m`/`k` suffix in either case the explore page reads the digits of the text, and 0 without any. */
  lemma ExploreReadsDigits(s: string)
    requires s != []
    requires !EndsWithLetter(Trim(Keep(s, NotComma)), 'm') && !EndsWithLetter(Trim(Keep(s, NotComma)), 'k')
    ensures ExploreParseFollowers(Str(s)) == Some(DigitsValue(s))
  {
    ExploreOfText(s);
    ExploreCleanedPlain(Trim(Keep(s, NotComma)));
    DigitsValueOfTrim(Keep(s, NotComma));
    DigitsValueIgnoresCommas(s);
  }

  lemma DigitsNotSuffixed(ds: string)
    requires ds != [] && AllDigits(ds)
    ensures !EndsWith(ds, "M") && !EndsWith(ds, "K")
    ensures !EndsWithLetter(ds, 'm') && !EndsWithLetter(ds, 'k')
  {
    assert IsDigit(ds[|ds| - 1]);
    assert ds[|ds| - 1..] == [ds[|ds| - 1]];
  }

  lemma DigitsHaveNoComma(ds: string)
    requires AllDigits(ds)
    ensures Keep(ds, NotComma) == ds
  {
    KeepAll(ds, NotComma);
  }

  /** A string of decimal digits is read as its value by the loader. */
  lemma SchemaReadsDigitString(ds: string)
    requires ds != [] && AllDigits(ds)
    ensures SchemaParseFollowers(Str(ds)) == Some(DecValue(ds))
  {
    TrimOfDigits(ds);
    DigitsNotSuffixed(ds);
    DigitsValueOfDigits(ds);
    SchemaOfText(ds);
    SchemaTrimmedPlain(ds);
  }

  /** A string of decimal digits is read as its value by the explore page. */
  lemma ExploreReadsDigitString(ds: string)
    requires ds != [] && AllDigits(ds)
    ensures ExploreParseFollowers(Str(ds)) == Some(DecValue(ds))
  {
    DigitsHaveNoComma(ds);
    TrimOfDigits(ds);
    DigitsNotSuffixed(ds);
    DigitsValueOfDigits(ds);
    ExploreOfText(ds);
    ExploreCleanedPlain(ds);
  }

  /** The decimal text of a count is read back as that count, by both parsers. */
  lemma ReadsDecimal(n: nat)
    ensures SchemaParseFollowers(Str(NatToString(n))) == Some(n)
    ensures ExploreParseFollowers(Str(NatToString(n))) == Some(n)
  {
    SchemaReadsDigitString(NatToString(n));
    ExploreReadsDigitString(NatToString(n));
  }

  // Digits followed by one suffix letter.

  predicate SuffixLetter(c: char) {
    c == 'M' || c == 'K' || c == 'm' || c == 'k'
  }

  lemma SuffixTrim(s: string, ds: string, letter: char)
    requires AllDigits(ds) && SuffixLetter(letter) && s == ds + [letter]
    ensures Trim(s) == s
  {
    assert s[|s| - 1] == letter;
    if ds != [] {
      assert s[0] == ds[0];
    }
    TrimOfNonWhite(s);
  }

  lemma SuffixNoComma(s: string, ds: string, letter: char)
    requires AllDigits(ds) && SuffixLetter(letter) && s == ds + [letter]
    ensures s != [] && Keep(s, NotComma) == s
  {
    KeepAll(s, NotComma);
  }

  lemma SuffixIsM(s: string, ds: string)
    requires s == ds + ['M']
    ensures EndsWith(s, "M")
  {
    assert s[|s| - 1..] == ['M'];
  }

  lemma SuffixIsK(s: string, ds: string)
    requires s == ds + ['K']
    ensures !EndsWith(s, "M") && EndsWith(s, "K")
  {
    assert s[|s| - 1..] == ['K'];
  }

  lemma SuffixIsLowercase(s: string, ds: string, letter: char)
    requires (letter == 'm' || letter == 'k') && s == ds + [letter]
    ensures !EndsWith(s, "M") && !EndsWith(s, "K")
  {
    assert s[|s| - 1..] == [letter];
  }

  lemma SuffixIsMillions(s: string, ds: string, letter: char)
    requires (letter == 'M' || letter == 'm') && s == ds + [letter]
    ensures EndsWithLetter(s, 'm')
  {
    assert s[|s| - 1] == letter;
  }

  lemma SuffixIsThousands(s: string, ds: string, letter: char)
    requires (letter == 'K' || letter == 'k') && s == ds + [letter]
    ensures !EndsWithLetter(s, 'm') && EndsWithLetter(s, 'k')
  {
    assert s[|s| - 1] == letter;
  }

  lemma SuffixFloat(s: string, ds: string, letter: char)
    requires ds != [] && AllDigits(ds) && SuffixLetter(letter) && s == ds + [letter]
    ensures ParseFloat(s) == Some(Decimal(DecValue(ds), 0))
  {
    ParseFloatOfDigits(s, ds, [letter]);
  }

  lemma SuffixDigitsOnly(s: string, ds: string, letter: char)
    requires AllDigits(ds) && SuffixLetter(letter) && s == ds + [letter]
    ensures DigitsOnly(s) == ds
  {
    KeepConcat(ds, [letter], IsDigit);
    KeepAll(ds, IsDigit);
    KeepNone([letter], IsDigit);
    ConcatEmpty(ds, Keep([letter], IsDigit));
  }

  lemma DigitsValueOfDigitsOnly(s: string, ds: string)
    requires ds != [] && AllDigits(ds) && DigitsOnly(s) == ds
    ensures DigitsValue(s) == DecValue(ds)
  {
  }

  lemma SchemaDigitsThenM(s: string, ds: string)
    requires ds != [] && AllDigits(ds) && s == ds + ['M']
    ensures SchemaParseFollowers(Str(s)) == Some(DecValue(ds) * 1000000)
  {
    SuffixTrim(s, ds, 'M');
    SuffixIsM(s, ds);
    SuffixFloat(s, ds, 'M');
    SchemaOfText(s);
    SchemaTrimmedM(s);
    ScaledWholeMillions(s, DecValue(ds));
  }

  lemma SchemaDigitsThenK(s: string, ds: string)
    requires ds != [] && AllDigits(ds) && s == ds + ['K']
    ensures SchemaParseFollowers(Str(s)) == Some(DecValue(ds) * 1000)
  {
    SuffixTrim(s, ds, 'K');
    SuffixIsK(s, ds);
    SuffixFloat(s, ds, 'K');
    SchemaOfText(s);
    SchemaTrimmedK(s);
    ScaledWholeThousands(s, DecValue(ds));
  }

  /** A count written with an upper-case `M` or `K` is scaled by the loader. */
  lemma SchemaReadsSuffix(n: nat, letter: char)
    requires letter == 'M' || letter == 'K'
    ensures SchemaParseFollowers(Str(NatToString(n) + [letter])) == Some(n * if letter == 'M' then 1000000 else 1000)
  {
    if letter == 'M' {
      SchemaDigitsThenM(NatToString(n) + [letter], NatToString(n));
    } else {
      SchemaDigitsThenK(NatToString(n) + [letter], NatToString(n));
    }
  }

  lemma SchemaDigitsThenLowercase(s: string, ds: string, letter: char)
    requires ds != [] && AllDigits(ds) && (letter == 'm' || letter == 'k') && s == ds + [letter]
    ensures SchemaParseFollowers(Str(s)) == Some(DecValue(ds))
  {
    assert SchemaParseFollowers(Str(s)) == SchemaParseTrimmed(s) by {
      SuffixTrim(s, ds, letter);
      SchemaOfText(s);
    }
    assert SchemaParseTrimmed(s) == Some(DigitsValue(s)) by {
      SuffixIsLowercase(s, ds, letter);
      SchemaTrimmedPlain(s);
    }
    assert DigitsValue(s) == DecValue(ds) by {
      SuffixDigitsOnly(s, ds, letter);
      DigitsValueOfDigitsOnly(s, ds);
    }
  }

  /** The loader's suffix test is case-sensitive: "2m" is read as its digits. */
  lemma SchemaIgnoresLowercaseSuffix(n: nat, letter: char)
    requires letter == 'm' || letter == 'k'
    ensures SchemaParseFollowers(Str(NatToString(n) + [letter])) == Some(n)
  {
    SchemaDigitsThenLowercase(NatToString(n) + [letter], NatToString(n), letter);
  }

  lemma ExploreDigitsThenMillions(s: string, ds: string, letter: char)
    requires ds != [] && AllDigits(ds) && (letter == 'M' || letter == 'm') && s == ds + [letter]
    ensures ExploreParseFollowers(Str(s)) == Some(DecValue(ds) * 1000000)
  {
    SuffixNoComma(s, ds, letter);
    SuffixTrim(s, ds, letter);
    SuffixIsMillions(s, ds, letter);
    SuffixFloat(s, ds, letter);
    ExploreOfText(s);
    ExploreCleanedM(s);
    ScaledWholeMillions(s, DecValue(ds));
  }

  lemma ExploreDigitsThenThousands(s: string, ds: string, letter: char)
    requires ds != [] && AllDigits(ds) && (letter == 'K' || letter == 'k') && s == ds + [letter]
    ensures ExploreParseFollowers(Str(s)) == Some(DecValue(ds) * 1000)
  {
    SuffixNoComma(s, ds, letter);
    SuffixTrim(s, ds, letter);
    SuffixIsThousands(s, ds, letter);
    SuffixFloat(s, ds, letter);
    ExploreOfText(s);
    ExploreCleanedK(s);
    ScaledWholeThousands(s, DecValue(ds));
  }

  /** The explore page scales a count written with `m`/`k` in either case. */
  lemma ExploreReadsSuffix(n: nat, letter: char)
    requires letter == 'M' || letter == 'K' || letter == 'm' || letter == 'k'
    ensures ExploreParseFollowers(Str(NatToString(n) + [letter])) == Some(n * if letter == 'M' || letter == 'm' then 1000000 else 1000)
  {
    if letter == 'M' || letter == 'm' {
      ExploreDigitsThenMillions(NatToString(n) + [letter], NatToString(n), letter);
    } else {
      ExploreDigitsThenThousands(NatToString(n) + [letter], NatToString(n), letter);
    }
  }

  /** The two parsers disagree on a lower-case suffix: "2m" is 2 for the loader and 2,000,000 on the explore page. */
  lemma ParsersDisagreeOnLowercase(n: nat)
    requires n > 0
    ensures SchemaParseFollowers(Str(NatToString(n) + "m")) == Some(n)
    ensures ExploreParseFollowers(Str(NatToString(n) + "m")) == Some(n * 1000000)
  {
    SchemaIgnoresLowercaseSuffix(n, 'm');
    ExploreReadsSuffix(n, 'm');
  }

  lemma ExploreOfEmptied(s: string)
    requires s != [] && Keep(s, NotComma) == []
    ensures ExploreParseFollowers(Str(s)) == Some(0)
  {
    ExploreOfText(s);
    KeepNone(Trim([]), IsDigit);
  }

  /** The explore page's parser does not see commas. */
  lemma ExploreIgnoresCommas(s: string)
    ensures ExploreParseFollowers(Str(s)) == ExploreParseFollowers(Str(Keep(s, NotComma)))
  {
    KeepIdempotent(s, NotComma);
    if s != [] && Keep(s, NotComma) == [] {
      ExploreOfEmptied(s);
    } else if s != [] {
      ExploreOfText(s);
      ExploreOfText(Keep(s, NotComma));
    }
  }

  // A suffix with no number in front of it.

  lemma BareFloat(s: string, letter: char)
    requires SuffixLetter(letter) && s == [letter]
    ensures ParseFloat(s) == None
  {
    ParseFloatNeedsDigit(s);
  }

  lemma SchemaNaNOfM(x: string)
    requires Trim(x) == x && EndsWith(x, "M") && ParseFloat(x) == None
    ensures SchemaParseFollowers(Str(x)) == None
  {
    SchemaOfText(x);
    SchemaTrimmedM(x);
    ScaledNaN(x, 1000000);
  }

  lemma SchemaNaNOfK(x: string)
    requires Trim(x) == x && !EndsWith(x, "M") && EndsWith(x, "K") && ParseFloat(x) == None
    ensures SchemaParseFollowers(Str(x)) == None
  {
    SchemaOfText(x);
    SchemaTrimmedK(x);
    ScaledNaN(x, 1000);
  }

  lemma ExploreNaNOfMillions(x: string)
    requires x != [] && Keep(x, NotComma) == x && Trim(x) == x
    requires EndsWithLetter(x, 'm') && ParseFloat(x) == None
    ensures ExploreParseFollowers(Str(x)) == None
  {
    ExploreOfText(x);
    ExploreCleanedM(x);
    ScaledNaN(x, 1000000);
  }

  lemma ExploreNaNOfThousands(x: string)
    requires x != [] && Keep(x, NotComma) == x && Trim(x) == x
    requires !EndsWithLetter(x, 'm') && EndsWithLetter(x, 'k') && ParseFloat(x) == None
    ensures ExploreParseFollowers(Str(x)) == None
  {
    ExploreOfText(x);
    ExploreCleanedK(x);
    ScaledNaN(x, 1000);
  }

  lemma SchemaBareM(s: string)
    requires |s| == 1 && s[0] == 'M'
    ensures SchemaParseFollowers(Str(s)) == None
  {
    SuffixTrim(s, [], 'M');
    SuffixIsM(s, []);
    BareFloat(s, 'M');
    SchemaNaNOfM(s);
  }

  lemma SchemaBareK(s: string)
    requires |s| == 1 && s[0] == 'K'
    ensures SchemaParseFollowers(Str(s)) == None
  {
    SuffixTrim(s, [], 'K');
    SuffixIsK(s, []);
    BareFloat(s, 'K');
    SchemaNaNOfK(s);
  }

  lemma ExploreBareMillions(s: string, letter: char)
    requires (letter == 'M' || letter == 'm') && |s| == 1 && s[0] == letter
    ensures ExploreParseFollowers(Str(s)) == None
  {
    SuffixNoComma(s, [], letter);
    SuffixTrim(s, [], letter);
    SuffixIsMillions(s, [], letter);
    BareFloat(s, letter);
    ExploreNaNOfMillions(s);
  }

  lemma ExploreBareThousands(s: string, letter: char)
    requires (letter == 'K' || letter == 'k') && |s| == 1 && s[0] == letter
    ensures ExploreParseFollowers(Str(s)) == None
  {
    SuffixNoComma(s, [], letter);
    SuffixTrim(s, [], letter);
    SuffixIsThousands(s, [], letter);
    BareFloat(s, letter);
    ExploreNaNOfThousands(s);
  }

  /** A suffix with no number in front of it reads as NaN in both parsers. */
  lemma BareSuffixIsNaN(letter: char)
    requires letter == 'M' || letter == 'K' || letter == 'm' || letter == 'k'
    ensures (letter == 'M' || letter == 'K') ==> SchemaParseFollowers(Str([letter])) == None
    ensures ExploreParseFollowers(Str([letter])) == None
  {
    if letter == 'M' {
      SchemaBareM([letter]);
    } else if letter == 'K' {
      SchemaBareK([letter]);
    }
    if letter == 'M' || letter == 'm' {
      ExploreBareMillions([letter], letter);
    } else {
      ExploreBareThousands([letter], letter);
    }
  }

  // `undefined` in the loader.

  lemma UndefinedTrim(s: string)
    requires s == "undefined"
    ensures Trim(s) == s
  {
    TrimOfNonWhite(s);
  }

  lemma UndefinedNotSuffixed(s: string)
    requires s == "undefined"
    ensures !EndsWith(s, "M") && !EndsWith(s, "K")
  {
  }

  lemma UndefinedDigits(s: string)
    requires s == "undefined"
    ensures DigitsValue(s) == 0
  {
    KeepNone(s, IsDigit);
  }

  /** `undefined` becomes the text "undefined", which holds no digit, so the loader reads 0. */
  lemma SchemaUndefinedIsZero()
    ensures SchemaParseFollowers(Undefined) == Some(0)
  {
    UndefinedTrim("undefined");
    UndefinedNotSuffixed("undefined");
    UndefinedDigits("undefined");
    SchemaOfText("undefined");
    SchemaTrimmedPlain("undefined");
  }

  // "1.5M".

  lemma OneAndAHalfParts(s: string)
    requires s == "1.5M"
    ensures ParseFloat(s) == Some(Decimal(DecValue("1" + "5"), -|"5"|))
  {
    ParseFloatOfFraction(s, "1", "5", "M");
  }

  lemma DecValueOne(s: string)
    requires s == "1"
    ensures DecValue(s) == 1
  {
    assert s[..0] == [];
  }

  lemma DecValueFifteen(s: string)
    requires s == "1" + "5"
    ensures DecValue(s) == 15
  {
    assert s[..1] == "1";
    DecValueOne(s[..1]);
  }

  lemma OneAndAHalf(s: string)
    requires s == "1.5M"
    ensures ParseFloat(s) == Some(Decimal(15, -1))
  {
    OneAndAHalfParts(s);
    DecValueFifteen("1" + "5");
  }

  lemma ScaleOneAndAHalf()
    ensures ScaleDecimal(Some(Decimal(15, -1)), 1000000) == Some(1500000)
  {
    assert DecimalValue(Decimal(15, -1)) * 1000000 as real == 1500000 as real;
    RoundOfInt(1500000);
  }

  lemma OneAndAHalfTrim(s: string)
    requires s == "1.5M"
    ensures Trim(s) == s
  {
    TrimOfNonWhite(s);
  }

  lemma OneAndAHalfSuffix(s: string)
    requires s == "1.5M"
    ensures EndsWith(s, "M")
  {
    assert s[|s| - 1..] == "M";
  }

  lemma OneAndAHalfScaled(s: string)
    requires s == "1.5M"
    ensures Scaled(s, 1000000) == Some(1500000)
  {
    OneAndAHalf(s);
    ScaledOf(s, Decimal(15, -1), 1000000);
    ScaleOneAndAHalf();
  }

  /** "1.5M" is read by the loader as 1,500,000. */
  lemma SchemaReadsFractionalMillions(s: string)
    requires s == "1.5M"
    ensures SchemaParseFollowers(Str(s)) == Some(1500000)
  {
    OneAndAHalfTrim(s);
    OneAndAHalfSuffix(s);
    OneAndAHalfScaled(s);
    SchemaOfText(s);
    SchemaTrimmedM(s);
  }

  lemma OneAndAHalfNoComma(s: string)
    requires s == "1.5M"
    ensures s != [] && Keep(s, NotComma) == s
  {
    KeepAll(s, NotComma);
  }

  lemma OneAndAHalfMillions(s: string)
    requires s == "1.5M"
    ensures EndsWithLetter(s, 'm')
  {
  }

  /** "1.5M" is read by the explore page as 1,500,000 too. */
  lemma ExploreReadsFractionalMillions(s: string)
    requires s == "1.5M"
    ensures ExploreParseFollowers(Str(s)) == Some(1500000)
  {
    OneAndAHalfNoComma(s);
    OneAndAHalfTrim(s);
    OneAndAHalfMillions(s);
    OneAndAHalfScaled(s);
    ExploreOfText(s);
    ExploreCleanedM(s);
  }

  /** "15M" is read by the explore page as 15,000,000. */
  lemma ExploreReadsFifteenMillions(s: string)
    requires s == "15M"
    ensures ExploreParseFollowers(Str(s)) == Some(15000000)
  {
    var ds := "1" + "5";
    DecValueFifteen(ds);
    assert s == ds + ['M'];
    ExploreDigitsThenMillions(s, ds, 'M');
  }

  /** A plain label of a non-negative count is read back as that count by both parsers. */
  lemma PlainLabelRoundTrip(count: nat)
    requires count < 1000
    ensures FormatFollowers(count) == Plain(NatToString(count))
    ensures SchemaParseFollowers(Str(FormatFollowers(count).text)) == Some(count)
    ensures ExploreParseFollowers(Str(FormatFollowers(count).text)) == Some(count)
  {
    ReadsDecimal(count);
  }
}
