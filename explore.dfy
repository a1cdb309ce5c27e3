/**
 * The explore page: the rows of the four CSV files mapped to page records (`parseFile`),
 * their merge, the filter state with its partial updates, and the filter chain.
 */
module Explore {
  import opened Wrappers
  import opened Seqs
  import opened Strings
  import opened Numbers
  import opened Rows
  import opened Followers
  import opened CardInfluencer

  /** The one metric a page record carries: the follower count as cleaned text. */
  datatype Metric = Metric(caption: string, value: string)

  /**
   * A record of the page's data. `platformFollowers` is the `influencerProfile.platforms`
   * list the filter falls back on; records built from CSV rows never carry one.
   */
  datatype ExploreProfile = ExploreProfile(
    id: int,
    name: string,
    handle: string,
    profileImage: string,
    location: string,
    tags: seq<string>,
    metrics: seq<Metric>,
    platform: string,
    platformFollowers: Option<seq<FollowerValue>>)

  /** One entry of `csvFiles`: where the rows come from, the name shown for the platform, the image seed offset. */
  datatype FileInfo = FileInfo(path: string, platform: string, offset: int)

  /** The entry for the file of `platform`, "/data/<platform>_data_all-countries.csv". */
  function ExploreFile(platform: string, shown: string, offset: int): FileInfo {
    FileInfo("/data/" + platform + "_" + "data_all-countries.csv", shown, offset)
  }

  const ExploreFiles: seq<FileInfo> := [
    ExploreFile("instagram", "Instagram", 0),
    ExploreFile("threads", "Threads", 1000),
    ExploreFile("tiktok", "TikTok", 2000),
    ExploreFile("youtube", "YouTube", 3000)
  ]

  const UnknownName := "Unknown Name"

  // parseFile

  /** `text || fallback` for a string. */
  function OrElse(text: string, fallback: string): (r: string)
    ensures text != "" ==> r == text
    ensures text == "" ==> r == fallback
  {
    if text != "" then text else fallback
  }

  /**
   * The name and handle of a row. A NAME cell is split on " @" into the name and the
   * handle; without one the trimmed INFLUENCER NAME is the name, which can be empty.
   */
  function NameAndHandle(row: Row): (string, string) {
    if Truthy(Get(row, "NAME")) then
      var parts := SplitOn(row["NAME"], " @");
      (OrElse(Trim(parts[0]), UnknownName), if |parts| > 1 then Trim(parts[1]) else "")
    else if Truthy(Get(row, "INFLUENCER NAME")) then
      (Trim(row["INFLUENCER NAME"]), "")
    else
      (UnknownName, "")
  }

  /**
   * `split` on the pattern `,\s*`: each comma takes the whitespace after it along, so every piece after
   * the first loses its leading whitespace and the first piece keeps its own.
   */
  function SplitCommaSpace(text: string): (r: seq<string>)
    ensures |r| == |SplitOn(text, ",")|
  {
    var pieces := SplitOn(text, ",");
    [pieces[0]] + Map(pieces[1..], TrimStart)
  }

  /** The TOPIC OF INFLUENCE cell split on commas; no tags when the row has no such column. */
  function TopicTags(row: Row): seq<string> {
    if "TOPIC OF INFLUENCE" in row then SplitCommaSpace(row["TOPIC OF INFLUENCE"]) else []
  }

  /** A character `/[^\dMK]/gi` does not remove: a digit or one of M, K, m, k. */
  predicate IsCountChar(c: char) {
    IsDigit(c) || c == 'M' || c == 'K' || c == 'm' || c == 'k'
  }

  /** `value.replace(/[^\dMK]/gi, '')` as written: only digits and M/K survive, the decimal point included in what goes. */
  function CleanMetricAsWritten(value: string): (r: string)
    ensures forall i :: 0 <= i < |r| ==> IsCountChar(r[i])
    ensures IsSubsequence(r, value)
  {
    KeepIsSubsequence(value, IsCountChar);
    Keep(value, IsCountChar)
  }

  /** A character the corrected cleaning keeps: a count character or the decimal point. */
  predicate IsDecimalCountChar(c: char) {
    IsCountChar(c) || c == '.'
  }

  /** The cleaning the follower parser needs: it keeps the decimal point of "1.5M". The page does not use it. */
  function CleanMetric(value: string): (r: string)
    ensures forall i :: 0 <= i < |r| ==> IsDecimalCountChar(r[i])
    ensures IsSubsequence(r, value)
  {
    KeepIsSubsequence(value, IsDecimalCountChar);
    Keep(value, IsDecimalCountChar)
  }

  /** The follower metric of a row: the FOLLOWERS cell cleaned as the page writes it, "0" when the cell is falsy. */
  function FollowersMetric(row: Row): Metric {
    Metric("Followers", if Truthy(Get(row, "FOLLOWERS")) then CleanMetricAsWritten(row["FOLLOWERS"]) else "0")
  }

  /** The record `parseFile` builds from the row at `index` of `file`. */
  function ParseRow(file: FileInfo, index: nat, row: Row): ExploreProfile {
    var (name, handle) := NameAndHandle(row);
    var baseId := index + 1;
    ExploreProfile(
      baseId,
      name,
      handle,
      ImageUrl(file.offset + baseId),
      FirstTruthy(row, ["COUNTRY"]).GetOr(""),
      TopicTags(row),
      [FollowersMetric(row)],
      file.platform,
      None)
  }

  /** `parseFile`: every row of the file, in order. */
  function ParseFile(file: FileInfo, rows: seq<Row>): (r: seq<ExploreProfile>)
    ensures |r| == |rows|
    ensures forall i :: 0 <= i < |rows| ==> r[i] == ParseRow(file, i, rows[i])
  {
    seq(|rows|, i requires 0 <= i < |rows| => ParseRow(file, i, rows[i]))
  }

  /** `allDataArrays.flat()` over the four parsed files, in the order of `csvFiles`. */
  function PageData(files: seq<seq<Row>>): seq<ExploreProfile>
    requires |files| == |ExploreFiles|
  {
    Flatten(seq(|ExploreFiles|, i requires 0 <= i < |ExploreFiles| => ParseFile(ExploreFiles[i], files[i])))
  }

  // The filter state.

  datatype Filters = Filters(
    niche: string,
    tags: string,
    minFollowers: int,
    maxFollowers: int,
    location: string,
    platform: string)

  const InitialFilters := Filters("", "", 1000000, 1000000000, "", "")

  /** A `Partial<typeof filters>`: `None` for a field the update does not supply. */
  datatype FilterUpdate = FilterUpdate(
    niche: Option<string>,
    tags: Option<string>,
    minFollowers: Option<int>,
    maxFollowers: Option<int>,
    location: Option<string>,
    platform: Option<string>)

  const NoUpdate := FilterUpdate(None, None, None, None, None, None)

  /** `{ ...prev, ...newFilters }`. */
  function MergeFilters(prev: Filters, update: FilterUpdate): Filters {
    Filters(
      update.niche.GetOr(prev.niche),
      update.tags.GetOr(prev.tags),
      update.minFollowers.GetOr(prev.minFollowers),
      update.maxFollowers.GetOr(prev.maxFollowers),
      update.location.GetOr(prev.location),
      update.platform.GetOr(prev.platform))
  }

  /** The update that applies `first` and then `second`. */
  function ThenUpdate(first: FilterUpdate, second: FilterUpdate): FilterUpdate {
    FilterUpdate(
      if second.niche.Some? then second.niche else first.niche,
      if second.tags.Some? then second.tags else first.tags,
      if second.minFollowers.Some? then second.minFollowers else first.minFollowers,
      if second.maxFollowers.Some? then second.maxFollowers else first.maxFollowers,
      if second.location.Some? then second.location else first.location,
      if second.platform.Some? then second.platform else first.platform)
  }

  // The filter chain.

  /** Some tag contains `needle`, ignoring case; a record with no tags never matches. */
  predicate TagMatches(inf: ExploreProfile, needle: string) {
    |inf.tags| > 0 && exists i :: 0 <= i < |inf.tags| && Contains(ToLower(inf.tags[i]), ToLower(needle))
  }

  predicate LocationMatches(inf: ExploreProfile, needle: string) {
    Contains(ToLower(inf.location), ToLower(needle))
  }

  predicate PlatformMatches(inf: ExploreProfile, platform: string) {
    LowerTrimmed(inf.platform) == LowerTrimmed(platform)
  }

  /** `platforms.reduce((sum, p) => sum + parseFollowers(p.followers), 0)`; NaN anywhere makes the sum NaN. */
  function TotalFollowers(values: seq<FollowerValue>): Option<int>
    decreases |values|
  {
    if values == [] then Some(0)
    else
      var init := TotalFollowers(values[..|values| - 1]);
      var last := ExploreParseFollowers(values[|values| - 1]);
      if init.Some? && last.Some? then Some(init.value + last.value) else None
  }

  /** The follower count the filter reads: the metric when it is truthy, else the platform total, else 0. */
  function FollowersOf(inf: ExploreProfile): Option<int> {
    if |inf.metrics| > 0 && inf.metrics[0].value != "" then ExploreParseFollowers(Str(inf.metrics[0].value))
    else if inf.platformFollowers.Some? then TotalFollowers(inf.platformFollowers.value)
    else Some(0)
  }

  /** `n || fallback` for a number. */
  function OrNumber(n: int, fallback: int): int {
    if n != 0 then n else fallback
  }

  /** The follower filter runs only away from its sentinel: a positive minimum or a maximum other than 1,000,000. */
  predicate FollowerFilterOn(f: Filters) {
    f.minFollowers > 0 || f.maxFollowers != 1000000
  }

  /** `followers >= (min || 0) && followers <= (max || 1000000)`; NaN satisfies neither. */
  predicate InFollowerRange(inf: ExploreProfile, f: Filters) {
    var n := FollowersOf(inf);
    n.Some? && OrNumber(f.minFollowers, 0) <= n.value <= OrNumber(f.maxFollowers, 1000000)
  }

  // Each stage of `applyFilters`: what a record must satisfy to get past it.

  predicate NicheOk(inf: ExploreProfile, f: Filters) {
    f.niche != "" ==> TagMatches(inf, f.niche)
  }

  predicate TagsOk(inf: ExploreProfile, f: Filters) {
    f.tags != "" ==> TagMatches(inf, f.tags)
  }

  predicate LocationOk(inf: ExploreProfile, f: Filters) {
    f.location != "" ==> LocationMatches(inf, f.location)
  }

  predicate FollowersOk(inf: ExploreProfile, f: Filters) {
    FollowerFilterOn(f) ==> InFollowerRange(inf, f)
  }

  predicate PlatformOk(inf: ExploreProfile, f: Filters) {
    f.platform != "" ==> PlatformMatches(inf, f.platform)
  }

  /** A record the filters let through: it gets past every stage. */
  predicate Passes(inf: ExploreProfile, f: Filters) {
    NicheOk(inf, f) && TagsOk(inf, f) && LocationOk(inf, f) && FollowersOk(inf, f) && PlatformOk(inf, f)
  }

  /** What `applyFilters` leaves in `filteredData`. */
  function FilterResult(data: seq<ExploreProfile>, f: Filters): seq<ExploreProfile> {
    Keep(data, inf => Passes(inf, f))
  }

  // The test each `data.filter` call of `applyFilters` applies.

  function MatchNiche(f: Filters): ExploreProfile -> bool {
    inf => TagMatches(inf, f.niche)
  }

  function MatchTags(f: Filters): ExploreProfile -> bool {
    inf => TagMatches(inf, f.tags)
  }

  function MatchLocation(f: Filters): ExploreProfile -> bool {
    inf => LocationMatches(inf, f.location)
  }

  function MatchFollowers(f: Filters): ExploreProfile -> bool {
    inf => InFollowerRange(inf, f)
  }

  function MatchPlatform(f: Filters): ExploreProfile -> bool {
    inf => PlatformMatches(inf, f.platform)
  }

  /** The successive filter steps of `applyFilters`, each one only when its filter is set. */
  function FilterChain(data: seq<ExploreProfile>, f: Filters): seq<ExploreProfile> {
    var d1 := KeepIf(data, f.niche != "", MatchNiche(f));
    var d2 := KeepIf(d1, f.tags != "", MatchTags(f));
    var d3 := KeepIf(d2, f.location != "", MatchLocation(f));
    var d4 := KeepIf(d3, FollowerFilterOn(f), MatchFollowers(f));
    KeepIf(d4, f.platform != "", MatchPlatform(f))
  }

  /** The chain of filter steps keeps exactly the records that pass every stage. */
  lemma FilterChainIsFilterResult(data: seq<ExploreProfile>, f: Filters)
    ensures FilterChain(data, f) == FilterResult(data, f)
  {
    KeepIfChain(data, f.niche != "", MatchNiche(f), f.tags != "", MatchTags(f), f.location != "", MatchLocation(f),
      FollowerFilterOn(f), MatchFollowers(f), f.platform != "", MatchPlatform(f), inf => Passes(inf, f));
  }

  /** The card the page renders for a record; a falsy metric is read as the number 0. */
  function CardPropsOf(inf: ExploreProfile): CardProps {
    var value := if |inf.metrics| > 0 && inf.metrics[0].value != "" then Str(inf.metrics[0].value) else Num(0);
    CardProps(inf.name, Join(inf.tags, ", "), inf.platform, ExploreParseFollowers(value), inf.profileImage, inf.id)
  }

  /** The page: its filter state, the merged data, and what the filters let through. */
  class ExplorePage {
    var filters: Filters
    var transformedData: seq<ExploreProfile>
    var filteredData: seq<ExploreProfile>

    constructor()
      ensures filters == InitialFilters && transformedData == [] && filteredData == []
    {
      filters := InitialFilters;
      transformedData := [];
      filteredData := [];
    }

    /** `handleFilterChange`: the supplied fields overwrite the current ones. */
    method HandleFilterChange(update: FilterUpdate)
      modifies this
      ensures filters == MergeFilters(old(filters), update)
      ensures transformedData == old(transformedData) && filteredData == old(filteredData)
    {
      filters := MergeFilters(filters, update);
    }

    /** The loading effect once every file is parsed: the merged records become the page's data. */
    method LoadData(files: seq<seq<Row>>)
      requires |files| == |ExploreFiles|
      modifies this
      ensures transformedData == PageData(files)
      ensures filters == old(filters) && filteredData == old(filteredData)
    {
      var allDataArrays := seq(|ExploreFiles|, i requires 0 <= i < |ExploreFiles| => ParseFile(ExploreFiles[i], files[i]));
      transformedData := Flatten(allDataArrays);
    }

    /** `applyFilters`, which the page runs whenever the filters or the data change. */
    method ApplyFilters()
      modifies this
      ensures filteredData == FilterResult(transformedData, filters)
      ensures filters == old(filters) && transformedData == old(transformedData)
    {
      var data := transformedData;
      if filters.niche != "" {
        data := Keep(data, MatchNiche(filters));
      }
      if filters.tags != "" {
        data := Keep(data, MatchTags(filters));
      }
      if filters.location != "" {
        data := Keep(data, MatchLocation(filters));
      }
      if FollowerFilterOn(filters) {
        data := Keep(data, MatchFollowers(filters));
      }
      if filters.platform != "" {
        data := Keep(data, MatchPlatform(filters));
      }
      assert data == FilterChain(transformedData, filters);
      FilterChainIsFilterResult(transformedData, filters);
      filteredData := data;
    }
  }
}
