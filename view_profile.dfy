/**
 * The profile page (`pages/view-profile.tsx`): the card's link carries an offset id and a
 * platform; the page removes the offset again, looks the profile up among the loaded CSV
 * profiles, and reads the platform's monthly performance file to report trends.
 * Fetching is not modelled: the loader receives the parsed files, and the monthly files
 * arrive as a map from file name to text, a missing name standing for a failed fetch.
 */
module ViewProfile {
  import opened Wrappers
  import opened Seqs
  import opened Strings
  import opened Numbers
  import opened Rows
  import opened SchemaLoader

  /**
   * `parseInt(id || "0")`: a missing or empty id parameter falls back to the text "0",
   * which reads as 0 (`ViewProfileFacts.NumericIdOfText`).
   */
  function NumericId(idParam: Option<string>): Option<int> {
    if idParam.None? || idParam.value == "" then Some(0) else ParseInt(idParam.value)
  }

  /** `platform?.toLowerCase().trim()`, `None` for a missing parameter. */
  function PlatformLower(platformParam: Option<string>): Option<string> {
    match platformParam
    case None => None
    case Some(p) => Some(LowerTrimmed(p))
  }

  /** The offset the page's switch takes off: 0, 1000, 2000, 3000 for the four platforms, 0 by default. */
  function OffsetRemoved(platformLower: Option<string>): (r: int)
    ensures r == 0 || r == 1000 || r == 2000 || r == 3000
  {
    if platformLower == Some("instagram") then 0
    else if platformLower == Some("threads") then 1000
    else if platformLower == Some("tiktok") then 2000
    else if platformLower == Some("youtube") then 3000
    else 0
  }

  /** `baseId`; a NaN id stays NaN. */
  function BaseIdOf(numericId: Option<int>, platformLower: Option<string>): Option<int> {
    match numericId
    case None => None
    case Some(n) => Some(n - OffsetRemoved(platformLower))
  }

  /** The `find` test: the same trimmed, lower-cased platform and the base id (NaN equals no id). */
  predicate IsSought(profile: CsvProfile, platformLower: Option<string>, baseId: Option<int>) {
    Some(LowerTrimmed(profile.platform)) == platformLower && Some(profile.id) == baseId
  }

  function Sought(platformLower: Option<string>, baseId: Option<int>): CsvProfile -> bool {
    (profile: CsvProfile) => IsSought(profile, platformLower, baseId)
  }

  /** `merged.find(...)`: the first profile that passes the test. */
  function FindProfile(merged: seq<CsvProfile>, platformLower: Option<string>, baseId: Option<int>): Option<CsvProfile> {
    var i := FirstIndex(merged, Sought(platformLower, baseId));
    if i < |merged| then Some(merged[i]) else None
  }

  /** The record the page shows for its URL: the found profile with the URL's id in place of its own. */
  function Lookup(idParam: Option<string>, platformParam: Option<string>, merged: seq<CsvProfile>): Option<CsvProfile> {
    var numericId := NumericId(idParam);
    var platformLower := PlatformLower(platformParam);
    var found := FindProfile(merged, platformLower, BaseIdOf(numericId, platformLower));
    if found.Some? && numericId.Some? then Some(found.value.(id := numericId.value)) else None
  }

  /** One line of a monthly performance file; NaN numbers are `None`. */
  datatype PerfEntry = PerfEntry(
    influencerName: string,
    month: string,
    followers: Option<int>,
    avgLikesPost: Option<int>,
    avgCommentsPost: Option<int>,
    engagementRate: Option<Decimal>)

  /** `parseInt(c.trim().replace(/[^0-9]/g, ''), 10)`. */
  function CountColumn(c: string): Option<int> {
    ParseInt(DigitsOnly(Trim(c)))
  }

  /** A data line: `None` when it has fewer than six comma-separated columns. */
  function ParseLine(line: string): Option<PerfEntry> {
    var columns := SplitOn(line, ",");
    if |columns| < 6 then None
    else Some(PerfEntry(
      Trim(columns[0]),
      Trim(columns[1]),
      CountColumn(columns[2]),
      CountColumn(columns[3]),
      CountColumn(columns[4]),
      ParseFloat(Trim(columns[5]))))
  }

  /** `.filter(Boolean)` on the parsed lines: the entries, in line order. */
  function KeptEntries(parsed: seq<Option<PerfEntry>>): seq<PerfEntry>
    decreases |parsed|
  {
    if parsed == [] then []
    else KeptEntries(parsed[..|parsed| - 1]) + OptionToSeq(parsed[|parsed| - 1])
  }

  /** `readCsvFile`: every line after the header that parses; nothing when the fetch failed. */
  function ReadCsvFile(text: Option<string>): seq<PerfEntry> {
    match text
    case None => []
    case Some(t) => KeptEntries(Map(SplitOn(t, "\n")[1..], ParseLine))
  }

  /** The text fetched for `fileName`, `None` when the fetch fails. */
  function Fetch(files: map<string, string>, fileName: string): Option<string> {
    if fileName in files then Some(files[fileName]) else None
  }

  function MonthlyFileName(platform: string): string {
    platform + "_Influencer_Monthly_Data_2023_2025.csv"
  }

  function NamedAs(name: string): PerfEntry -> bool {
    (entry: PerfEntry) => entry.influencerName == name
  }

  /** The trend words, one per pair. */
  datatype Trends = Trends(followerTrend: string, engagementTrend: string, likesPerPostTrend: string, commentsPerPostTrend: string)

  /** `a > b` on numbers that may be NaN: false whenever either is NaN. */
  predicate Above(a: Option<int>, b: Option<int>) {
    a.Some? && b.Some? && a.value > b.value
  }

  predicate RateAbove(a: Option<Decimal>, b: Option<Decimal>) {
    a.Some? && b.Some? && DecimalValue(a.value) > DecimalValue(b.value)
  }

  /** `analyzeTrends`: nothing below two entries, else the last entry compared with the one before. */
  function AnalyzeTrends(data: seq<PerfEntry>): Option<Trends> {
    if |data| < 2 then None
    else
      var latest := data[|data| - 1];
      var previous := data[|data| - 2];
      Some(Trends(
        if Above(latest.followers, previous.followers) then "increasing" else "decreasing",
        if RateAbove(latest.engagementRate, previous.engagementRate) then "improving" else "declining",
        if Above(latest.avgLikesPost, previous.avgLikesPost) then "growing" else "falling",
        if Above(latest.avgCommentsPost, previous.avgCommentsPost) then "rising" else "dropping"))
  }

  /**
   * The integer parts of `calculateMetrics`: the number of entries, the latest follower
   * count, whether a growth figure is shown, and the rounded mean of the likes per post.
   */
  datatype Metrics = Metrics(totalPosts: nat, latestFollowers: Option<int>, growthShown: bool, avgLikes: Option<int>)

  /** A sum over numbers that may be NaN: one NaN makes the sum NaN. */
  function SumCounts(xs: seq<Option<int>>): Option<int>
    decreases |xs|
  {
    if xs == [] then Some(0)
    else
      var init := SumCounts(xs[..|xs| - 1]);
      if init.Some? && xs[|xs| - 1].Some? then Some(init.value + xs[|xs| - 1].value) else None
  }

  function LikesOf(entry: PerfEntry): Option<int> {
    entry.avgLikesPost
  }

  /**
   * `calculateMetrics`. The growth text is `toFixed(1)` of a number, which never reads "0",
   * so "No data" appears exactly when there is no previous month.
   */
  function CalculateMetrics(data: seq<PerfEntry>): Option<Metrics> {
    if |data| == 0 then None
    else
      var likes := SumCounts(Map(data, LikesOf));
      Some(Metrics(
        |data|,
        data[|data| - 1].followers,
        |data| > 1,
        if likes.Some? then Some(Round(likes.value as real / |data| as real)) else None))
  }

  /** The page's switch on the platform, assigning `baseId`. */
  method RemoveOffset(numericId: Option<int>, platformLower: Option<string>) returns (baseId: Option<int>)
    ensures baseId == BaseIdOf(numericId, platformLower)
  {
    if numericId.None? {
      baseId := None;
    } else if platformLower == Some("instagram") {
      baseId := numericId;
    } else if platformLower == Some("threads") {
      baseId := Some(numericId.value - 1000);
    } else if platformLower == Some("tiktok") {
      baseId := Some(numericId.value - 2000);
    } else if platformLower == Some("youtube") {
      baseId := Some(numericId.value - 3000);
    } else {
      baseId := numericId;
    }
  }

  /** The lookup inside `loadProfilesForPlatform`: the offset removed, the profile found, the URL's id put back. */
  method FindInfluencer(idParam: Option<string>, platformParam: Option<string>, merged: seq<CsvProfile>)
    returns (shown: Option<CsvProfile>)
    ensures shown == Lookup(idParam, platformParam, merged)
  {
    var numericId := NumericId(idParam);
    var platformLower := PlatformLower(platformParam);
    var baseId := RemoveOffset(numericId, platformLower);
    var found := FindProfile(merged, platformLower, baseId);
    if found.Some? && numericId.Some? {
      shown := Some(found.value.(id := numericId.value));
    } else {
      shown := None;
    }
  }

  /** The page's state. */
  class ViewProfilePage {
    var influencer: Option<CsvProfile>
    var profiles: seq<CsvProfile>
    var loading: bool
    var performanceData: seq<PerfEntry>
    var trends: Option<Trends>

    constructor ()
      ensures influencer == None && profiles == [] && loading
      ensures performanceData == [] && trends == None
    {
      influencer := None;
      profiles := [];
      loading := true;
      performanceData := [];
      trends := None;
    }

    /**
     * `loadProfilesForPlatform`: the profile named by the URL is shown when it exists, the
     * loaded profiles are kept, and loading ends either way.
     */
    method LoadProfilesForPlatform(idParam: Option<string>, platformParam: Option<string>, outcomes: seq<Option<seq<Row>>>)
      requires |outcomes| == |CsvFiles|
      modifies this
      ensures profiles == LoadResult(outcomes)
      ensures influencer == (if Lookup(idParam, platformParam, profiles).Some? then Lookup(idParam, platformParam, profiles) else old(influencer))
      ensures !loading
      ensures performanceData == old(performanceData) && trends == old(trends)
    {
      var merged := GetInfluencerProfilesFromCSVs(outcomes);
      var shown := FindInfluencer(idParam, platformParam, merged);
      ShowLoaded(merged, shown);
    }

    /** The end of the load: the profiles are kept, the found one is shown, and loading stops. */
    method ShowLoaded(merged: seq<CsvProfile>, shown: Option<CsvProfile>)
      modifies this
      ensures profiles == merged && influencer == (if shown.Some? then shown else old(influencer))
      ensures !loading
      ensures performanceData == old(performanceData) && trends == old(trends)
    {
      if shown.Some? {
        influencer := shown;
      }
      profiles := merged;
      loading := false;
    }

    /**
     * `loadInfluencerPerformanceData`: with a profile shown and a platform in the URL, the
     * entries of that platform's monthly file for the profile's name, and their trends.
     */
    method LoadPerformanceData(platformParam: Option<string>, files: map<string, string>)
      modifies this
      ensures influencer == old(influencer) && profiles == old(profiles) && loading == old(loading)
      ensures old(influencer).None? || platformParam.None? || platformParam.value == "" ==>
        performanceData == old(performanceData) && trends == old(trends)
      ensures old(influencer).Some? && platformParam.Some? && platformParam.value != "" ==>
        performanceData == Keep(ReadCsvFile(Fetch(files, MonthlyFileName(ToLower(platformParam.value)))), NamedAs(influencer.value.name))
        && trends == AnalyzeTrends(performanceData)
    {
      if influencer.None? {
        return;
      }
      if platformParam.None? {
        return;
      }
      var platform := ToLower(platformParam.value);
      if platform == "" {
        return;
      }
      var data := ReadCsvFile(Fetch(files, MonthlyFileName(platform)));
      var filteredData := Keep(data, NamedAs(influencer.value.name));
      performanceData := filteredData;
      trends := AnalyzeTrends(filteredData);
    }
  }
}
