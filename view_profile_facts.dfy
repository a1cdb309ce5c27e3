/** What the profile page promises: the offset round trip, the lookup, the monthly file and the trends. */
module ViewProfileFacts {
  import opened Wrappers
  import opened Seqs
  import opened Strings
  import opened Numbers
  import opened SchemaLoader
  import opened CardInfluencer
  import opened ViewProfile

  /** The id parameter is read by `parseInt`, the missing or empty parameter as the text "0". */
  lemma NumericIdOfText(idParam: Option<string>)
    ensures NumericId(idParam) == ParseInt(if idParam.None? || idParam.value == "" then "0" else idParam.value)
  {
    if idParam.None? || idParam.value == "" {
      ParseIntOfIntToString(0);
      assert IntToString(0) == "0";
    }
  }

  /** The page's switch and the card's switch take the same offset for every platform name. */
  lemma SwitchesAgree(platform: string)
    ensures OffsetRemoved(PlatformLower(Some(platform))) == PlatformOffset(LowerTrimmed(platform))
  {
  }

  /** Removing the offset undoes `getOffsetId`, for every base id and every platform name. */
  lemma OffsetRoundTrip(platform: string, id: int)
    ensures BaseIdOf(Some(GetOffsetId(platform, id)), PlatformLower(Some(platform))) == Some(id)
  {
    SwitchesAgree(platform);
  }

  /** A NaN id finds no profile. */
  lemma NaNIdFindsNothing(merged: seq<CsvProfile>, platformLower: Option<string>)
    ensures FindProfile(merged, platformLower, BaseIdOf(None, platformLower)) == None
  {
    var i := FirstIndex(merged, Sought(platformLower, None));
    if i < |merged| {
      assert Sought(platformLower, None)(merged[i]);
    }
  }

  /** `find` answers the first profile that passes the test, and nothing when none does. */
  lemma FindProfileFacts(merged: seq<CsvProfile>, platformLower: Option<string>, baseId: Option<int>)
    ensures FindProfile(merged, platformLower, baseId).None? <==>
      forall i :: 0 <= i < |merged| ==> !IsSought(merged[i], platformLower, baseId)
    ensures FindProfile(merged, platformLower, baseId).Some? ==>
      exists i :: 0 <= i < |merged| && FindProfile(merged, platformLower, baseId) == Some(merged[i])
        && IsSought(merged[i], platformLower, baseId)
        && forall j :: 0 <= j < i ==> !IsSought(merged[j], platformLower, baseId)
  {
    var p := Sought(platformLower, baseId);
    var i := FirstIndex(merged, p);
    assert forall j :: 0 <= j < i ==> !IsSought(merged[j], platformLower, baseId) by {
      forall j | 0 <= j < i
        ensures !IsSought(merged[j], platformLower, baseId)
      {
        assert !p(merged[j]);
      }
    }
    if i < |merged| {
      assert p(merged[i]);
    }
  }

  /** When the first profile passing the test is at `i`, `find` answers it. */
  lemma FindProfileAt(merged: seq<CsvProfile>, platformLower: Option<string>, baseId: Option<int>, i: nat)
    requires i < |merged| && IsSought(merged[i], platformLower, baseId)
    requires forall j :: 0 <= j < i ==> !IsSought(merged[j], platformLower, baseId)
    ensures FindProfile(merged, platformLower, baseId) == Some(merged[i])
  {
    var p := Sought(platformLower, baseId);
    assert p(merged[i]);
  }

  /**
   * The page shows a record exactly when some profile has the URL's platform, trimmed and
   * lower-cased, and the base id; the record is the first such profile with the URL's id.
   */
  lemma LookupFacts(idParam: Option<string>, platformParam: Option<string>, merged: seq<CsvProfile>)
    ensures var platformLower := PlatformLower(platformParam);
      var baseId := BaseIdOf(NumericId(idParam), platformLower);
      Lookup(idParam, platformParam, merged).None? <==>
        forall i :: 0 <= i < |merged| ==> !IsSought(merged[i], platformLower, baseId)
    ensures var platformLower := PlatformLower(platformParam);
      var baseId := BaseIdOf(NumericId(idParam), platformLower);
      Lookup(idParam, platformParam, merged).Some? ==>
        NumericId(idParam).Some? && platformParam.Some?
        && (exists i ::
              0 <= i < |merged|
              && LowerTrimmed(merged[i].platform) == LowerTrimmed(platformParam.value)
              && merged[i].id == baseId.value
              && Lookup(idParam, platformParam, merged) == Some(merged[i].(id := NumericId(idParam).value))
              && forall j :: 0 <= j < i ==> !IsSought(merged[j], platformLower, baseId))
  {
    var numericId := NumericId(idParam);
    var platformLower := PlatformLower(platformParam);
    FindProfileFacts(merged, platformLower, BaseIdOf(numericId, platformLower));
    if numericId.None? {
      NaNIdFindsNothing(merged, platformLower);
    }
  }

  /**
   * Following a card's link opens that card's profile: when the first loaded profile with
   * the card's platform and base id is at `i`, the page shows it under the card's offset id,
   * with the card's image.
   */
  lemma CardLinkOpensProfile(props: CardProps, merged: seq<CsvProfile>, i: nat)
    requires i < |merged|
    requires LowerTrimmed(merged[i].platform) == LowerTrimmed(props.platform) && merged[i].id == props.id
    requires forall j :: 0 <= j < i ==>
      !(LowerTrimmed(merged[j].platform) == LowerTrimmed(props.platform) && merged[j].id == props.id)
    ensures var card := RenderCard(props);
      var shown := Lookup(Some(card.link.id), Some(card.link.platform), merged);
      shown == Some(merged[i].(id := GetOffsetId(props.platform, props.id)))
      && ImageUrl(shown.value.id) == card.imageUrl
  {
    var card := RenderCard(props);
    var offsetId := GetOffsetId(props.platform, props.id);
    CardUsesOffsetId(props);
    assert card.link.id != "";
    assert NumericId(Some(card.link.id)) == Some(offsetId);
    OffsetRoundTrip(props.platform, props.id);
    var platformLower := PlatformLower(Some(card.link.platform));
    assert BaseIdOf(Some(offsetId), platformLower) == Some(props.id);
    FindProfileAt(merged, platformLower, Some(props.id), i);
  }

  /** A count column is the number its digits spell, wherever they stand; no digit is NaN. */
  lemma CountColumnDigits(c: string)
    ensures CountColumn(c) == if DigitsOnly(c) == "" then None else Some(DecValue(DigitsOnly(c)) as int)
  {
    DigitsOnlyOfTrim(c);
    var ds := DigitsOnly(c);
    if ds == "" {
      ParseIntNeedsDigit(ds);
    } else {
      ParseIntOfDigits(ds);
    }
  }

  /** A line is kept iff it has six columns; its fields are the trimmed texts and the digit values. */
  lemma ParseLineFacts(line: string)
    ensures ParseLine(line).Some? <==> |SplitOn(line, ",")| >= 6
    ensures ParseLine(line).Some? ==>
      var columns := SplitOn(line, ",");
      var entry := ParseLine(line).value;
      entry.influencerName == Trim(columns[0]) && entry.month == Trim(columns[1])
      && entry.followers == (if DigitsOnly(columns[2]) == "" then None else Some(DecValue(DigitsOnly(columns[2])) as int))
      && entry.avgLikesPost == (if DigitsOnly(columns[3]) == "" then None else Some(DecValue(DigitsOnly(columns[3])) as int))
      && entry.avgCommentsPost == (if DigitsOnly(columns[4]) == "" then None else Some(DecValue(DigitsOnly(columns[4])) as int))
  {
    var columns := SplitOn(line, ",");
    if |columns| >= 6 {
      CountColumnDigits(columns[2]);
      CountColumnDigits(columns[3]);
      CountColumnDigits(columns[4]);
    }
  }

  predicate IsWide(line: string) {
    |SplitOn(line, ",")| >= 6
  }

  predicate IsEntry(parsed: Option<PerfEntry>) {
    parsed.Some?
  }

  lemma ParseLineKeeps(line: string)
    ensures ParseLine(line).Some? <==> IsWide(line)
  {
  }

  /** `.filter(Boolean)` keeps one entry per parsed line and no other. */
  lemma {:induction false} KeptEntriesFacts(parsed: seq<Option<PerfEntry>>)
    ensures |KeptEntries(parsed)| == Count(parsed, IsEntry)
    ensures forall e :: e in KeptEntries(parsed) <==> Some(e) in parsed
    decreases |parsed|
  {
    if parsed != [] {
      var init := parsed[..|parsed| - 1];
      KeptEntriesFacts(init);
      assert parsed == init + [parsed[|parsed| - 1]];
    }
  }

  /** The lines that parse are the lines with six columns. */
  lemma {:induction false} ParsedLinesCount(lines: seq<string>)
    ensures Count(Map(lines, ParseLine), IsEntry) == Count(lines, IsWide)
    decreases |lines|
  {
    if lines != [] {
      var init := lines[..|lines| - 1];
      ParsedLinesCount(init);
      assert Map(lines, ParseLine)[..|lines| - 1] == Map(init, ParseLine);
      ParseLineKeeps(lines[|lines| - 1]);
    }
  }

  /** An entry appears among the parses of `lines` exactly when some line parses to it. */
  lemma ParsesOfLines(lines: seq<string>, parse: string -> Option<PerfEntry>)
    ensures forall e :: Some(e) in Map(lines, parse) <==> exists k :: 0 <= k < |lines| && parse(lines[k]) == Some(e)
  {
    var parsed := Map(lines, parse);
    forall e
      ensures Some(e) in parsed <==> exists k :: 0 <= k < |lines| && parse(lines[k]) == Some(e)
    {
      if Some(e) in parsed {
        var k :| 0 <= k < |parsed| && parsed[k] == Some(e);
        assert parse(lines[k]) == Some(e);
      }
    }
  }

  /** The kept entries are one per line with six columns, and each is the parse of such a line. */
  lemma KeptLines(lines: seq<string>)
    ensures |KeptEntries(Map(lines, ParseLine))| == Count(lines, IsWide)
    ensures forall e :: e in KeptEntries(Map(lines, ParseLine)) <==>
      exists k :: 0 <= k < |lines| && ParseLine(lines[k]) == Some(e)
  {
    KeptEntriesFacts(Map(lines, ParseLine));
    ParsedLinesCount(lines);
    ParsesOfLines(lines, ParseLine);
  }

  /** The header line never becomes an entry: the file reads as the lines after the first line break. */
  lemma HeaderSkipped(header: string, body: string)
    requires forall i :: 0 <= i < |header| ==> header[i] != '\n'
    ensures ReadCsvFile(Some(header + "\n" + body)) == KeptEntries(Map(SplitOn(body, "\n"), ParseLine))
    ensures |ReadCsvFile(Some(header + "\n" + body))| == Count(SplitOn(body, "\n"), IsWide)
  {
    SplitOnFirstChar(header, '\n', body);
    assert ([header] + SplitOn(body, "\n"))[1..] == SplitOn(body, "\n");
    KeptLines(SplitOn(body, "\n"));
  }

  /** A failed fetch reads as no entries. */
  lemma FailedFetchReadsNothing(files: map<string, string>, fileName: string)
    requires fileName !in files
    ensures ReadCsvFile(Fetch(files, fileName)) == []
  {
  }

  /** The performance rows are exactly the file's entries with the profile's name, in file order. */
  lemma PerformanceRowsNamed(entries: seq<PerfEntry>, name: string)
    ensures forall e :: e in Keep(entries, NamedAs(name)) <==> e in entries && e.influencerName == name
    ensures IsSubsequence(Keep(entries, NamedAs(name)), entries)
  {
    KeepMembers(entries, NamedAs(name));
    KeepIsSubsequence(entries, NamedAs(name));
  }

  /** Trends need two months. */
  lemma TrendsNeedTwo(data: seq<PerfEntry>)
    ensures AnalyzeTrends(data).None? <==> |data| < 2
  {
  }

  /** Only the last two months count: earlier months never change the trends. */
  lemma TrendsIgnoreEarlierMonths(earlier: seq<PerfEntry>, data: seq<PerfEntry>)
    requires |data| >= 2
    ensures AnalyzeTrends(earlier + data) == AnalyzeTrends(data)
  {
    var all := earlier + data;
    assert all[|all| - 1] == data[|data| - 1];
    assert all[|all| - 2] == data[|data| - 2];
  }

  /** Each trend reports a rise exactly when both months are numbers and the later one is strictly larger. */
  lemma TrendWords(data: seq<PerfEntry>)
    requires |data| >= 2
    ensures var t := AnalyzeTrends(data).value;
      var latest := data[|data| - 1];
      var previous := data[|data| - 2];
      (t.followerTrend == "increasing" <==> latest.followers.Some? && previous.followers.Some? && latest.followers.value > previous.followers.value)
      && (t.followerTrend != "increasing" ==> t.followerTrend == "decreasing")
      && (t.engagementTrend == "improving" <==> RateAbove(latest.engagementRate, previous.engagementRate))
      && (t.engagementTrend != "improving" ==> t.engagementTrend == "declining")
      && (t.likesPerPostTrend == "growing" <==> Above(latest.avgLikesPost, previous.avgLikesPost))
      && (t.likesPerPostTrend != "growing" ==> t.likesPerPostTrend == "falling")
      && (t.commentsPerPostTrend == "rising" <==> Above(latest.avgCommentsPost, previous.avgCommentsPost))
      && (t.commentsPerPostTrend != "rising" ==> t.commentsPerPostTrend == "dropping")
  {
  }

  /** The comparison is strict: two equal months report the falling word for every trend. */
  lemma TiesReportDecline(data: seq<PerfEntry>)
    requires |data| >= 2
    requires data[|data| - 1].followers == data[|data| - 2].followers
    requires data[|data| - 1].engagementRate == data[|data| - 2].engagementRate
    requires data[|data| - 1].avgLikesPost == data[|data| - 2].avgLikesPost
    requires data[|data| - 1].avgCommentsPost == data[|data| - 2].avgCommentsPost
    ensures AnalyzeTrends(data) == Some(Trends("decreasing", "declining", "falling", "dropping"))
  {
  }

  /** No metrics without data; otherwise the post count is the number of entries, and "No data" means one month. */
  lemma MetricsFacts(data: seq<PerfEntry>)
    ensures CalculateMetrics(data).None? <==> data == []
    ensures CalculateMetrics(data).Some? ==>
      CalculateMetrics(data).value.totalPosts == |data|
      && (CalculateMetrics(data).value.growthShown <==> |data| >= 2)
  {
  }

  /** A NaN anywhere makes the sum NaN. */
  lemma {:induction false} SumCountsNaN(xs: seq<Option<int>>, k: nat)
    requires k < |xs| && xs[k].None?
    ensures SumCounts(xs).None?
    decreases |xs|
  {
    if k < |xs| - 1 {
      SumCountsNaN(xs[..|xs| - 1], k);
    }
  }

  /** A sum of numbers between `lo` and `hi` lies between `|xs| * lo` and `|xs| * hi`. */
  lemma {:induction false} SumCountsBounds(xs: seq<Option<int>>, lo: int, hi: int)
    requires forall i :: 0 <= i < |xs| ==> xs[i].Some? && lo <= xs[i].value <= hi
    ensures SumCounts(xs).Some?
    ensures |xs| * lo <= SumCounts(xs).value <= |xs| * hi
    decreases |xs|
  {
    if xs != [] {
      SumCountsBounds(xs[..|xs| - 1], lo, hi);
      assert |xs| * lo == (|xs| - 1) * lo + lo;
      assert |xs| * hi == (|xs| - 1) * hi + hi;
    }
  }

  /** The mean lies between the bounds of its parts, and so does its rounding. */
  lemma RoundedMeanBetween(sum: int, n: int, lo: int, hi: int)
    requires n > 0 && n * lo <= sum <= n * hi
    ensures lo <= Round(sum as real / n as real) <= hi
  {
    var x := sum as real / n as real;
    assert (n * lo) as real <= sum as real;
    assert n as real * lo as real <= n as real * x;
    assert lo as real <= x;
    assert n as real * x <= n as real * hi as real;
    assert x <= hi as real;
  }

  /** The average likes are NaN when any month's likes are; otherwise they lie between the smallest and largest month. */
  lemma AverageLikes(data: seq<PerfEntry>, lo: int, hi: int)
    requires data != []
    ensures (exists k :: 0 <= k < |data| && data[k].avgLikesPost.None?) ==> CalculateMetrics(data).value.avgLikes.None?
    ensures (forall k :: 0 <= k < |data| ==> data[k].avgLikesPost.Some? && lo <= data[k].avgLikesPost.value <= hi) ==>
      CalculateMetrics(data).value.avgLikes.Some? && lo <= CalculateMetrics(data).value.avgLikes.value <= hi
  {
    var likes := Map(data, LikesOf);
    if exists k :: 0 <= k < |data| && data[k].avgLikesPost.None? {
      var k :| 0 <= k < |data| && data[k].avgLikesPost.None?;
      SumCountsNaN(likes, k);
    }
    if forall k :: 0 <= k < |data| ==> data[k].avgLikesPost.Some? && lo <= data[k].avgLikesPost.value <= hi {
      SumCountsBounds(likes, lo, hi);
      RoundedMeanBetween(SumCounts(likes).value, |data|, lo, hi);
    }
  }
}
