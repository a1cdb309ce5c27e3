/**
 * `getInfluencerProfilesFromCSVs` in `shared/schema.ts`: the four platform files are
 * fetched and parsed, then every row with a name becomes one profile, in file order
 * and then row order. Fetching and CSV tokenising are not modelled: each file arrives
 * as its parsed rows, or as `None` when its load failed.
 */
module SchemaLoader {
  import opened Wrappers
  import opened Seqs
  import opened Strings
  import opened Numbers
  import opened Followers
  import opened Rows

  /** `InfluencerProfileCSV`. `followers` is `None` where the count is NaN; an absent optional field is `None`. */
  datatype CsvProfile = CsvProfile(
    id: int,
    name: string,
    handle: Option<string>,
    platform: string,
    followers: Option<int>,
    location: Option<string>,
    tags: seq<string>,
    profileImage: Option<string>,
    bio: Option<string>)

  /** `/data/<platform>_data_all-countries.csv`. */
  function DataPath(platform: string): string {
    "/data/" + platform + "_" + "data_all-countries.csv"
  }

  /** The four files, `/data/instagram_data_all-countries.csv` to `/data/youtube_data_all-countries.csv`. */
  const CsvFiles: seq<string> := [DataPath("instagram"), DataPath("threads"), DataPath("tiktok"), DataPath("youtube")]

  const NameColumns: seq<string> := ["NAME", "INFLUENCER NAME", "Creator Name", "creator_name"]

  /** `String(row["NAME"] || row["INFLUENCER NAME"] || ... || "").trim()`. */
  function ResolvedName(row: Row): string {
    Trim(FirstTruthy(row, NameColumns).GetOr(""))
  }

  predicate HasName(row: Row) {
    ResolvedName(row) != ""
  }

  /** `filePath.split("_")[0].replace("/data/", "")`. */
  function PlatformOfPath(path: string): string {
    ReplaceFirst(SplitOn(path, "_")[0], "/data/", "")
  }

  /** The value handed to `parseFollowers`: the last column is taken as it is, even when falsy. */
  function FollowersField(row: Row): FollowerValue {
    match FirstTruthy(row, ["FOLLOWERS", "Followers", "followers"])
    case Some(s) => Str(s)
    case None =>
      match Get(row, "Followers Count")
      case Some(s) => Str(s)
      case None => Undefined
  }

  predicate NonEmpty(s: string) {
    s != ""
  }

  function TagsText(row: Row): string {
    FirstTruthy(row, ["TAGS", "NICHES", "niches", "TOPIC OF INFLUENCE"]).GetOr("")
  }

  /** `text.split(",").map((t) => t.trim()).filter(Boolean)`. */
  function SplitTags(text: string): seq<string> {
    Keep(Map(SplitOn(text, ","), Trim), NonEmpty)
  }

  /** `Number(row.id) || index + 1`: a missing, zero or NaN id falls back to the row's position. */
  function RowId(row: Row, index: nat): int {
    match Get(row, "id")
    case None => index + 1
    case Some(s) =>
      match NumberOf(s)
      case Some(n) => if n != 0 then n else index + 1
      case None => index + 1
  }

  /** The profile the loop pushes for row `index` of the file at `path`; `None` when the row is skipped. */
  function RowProfile(path: string, index: nat, row: Row): Option<CsvProfile> {
    var name := ResolvedName(row);
    if name == "" then None
    else Some(CsvProfile(
      RowId(row, index),
      name,
      FirstTruthy(row, ["HANDLE", "USERNAME", "creator_username", "Creator Username"]),
      PlatformOfPath(path),
      SchemaParseFollowers(FollowersField(row)),
      FirstTruthy(row, ["COUNTRY", "Location", "country"]),
      SplitTags(TagsText(row)),
      FirstTruthy(row, ["PROFILE PIC", "Profile Pic", "profile_pic"]),
      FirstTruthy(row, ["BIO", "bio"])))
  }

  function OptionToSeq<T>(o: Option<T>): seq<T> {
    match o
    case None => []
    case Some(x) => [x]
  }

  /** The profiles of one file, in row order. */
  function FileProfiles(path: string, rows: seq<Row>): seq<CsvProfile>
    decreases |rows|
  {
    if rows == [] then []
    else FileProfiles(path, rows[..|rows| - 1]) + OptionToSeq(RowProfile(path, |rows| - 1, rows[|rows| - 1]))
  }

  /** The profiles of the first `|files|` files, in file order. */
  function AllProfiles(files: seq<seq<Row>>): seq<CsvProfile>
    requires |files| <= |CsvFiles|
    decreases |files|
  {
    if files == [] then []
    else AllProfiles(files[..|files| - 1]) + FileProfiles(CsvFiles[|files| - 1], files[|files| - 1])
  }

  predicate AnyFailed(outcomes: seq<Option<seq<Row>>>) {
    exists i :: 0 <= i < |outcomes| && outcomes[i].None?
  }

  /** What the loader resolves to: nothing when any file failed, else the profiles of all files. */
  function LoadResult(outcomes: seq<Option<seq<Row>>>): (r: seq<CsvProfile>)
    requires |outcomes| == |CsvFiles|
    ensures AnyFailed(outcomes) ==> r == []
  {
    if AnyFailed(outcomes) then []
    else AllProfiles(seq(|outcomes|, i requires 0 <= i < |outcomes| => outcomes[i].value))
  }

  lemma FileProfilesStep(path: string, rows: seq<Row>, index: nat)
    requires index < |rows|
    ensures FileProfiles(path, rows[..index + 1]) == FileProfiles(path, rows[..index]) + OptionToSeq(RowProfile(path, index, rows[index]))
  {
    assert rows[..index + 1][..index] == rows[..index];
  }

  lemma AllProfilesStep(files: seq<seq<Row>>, k: nat)
    requires k < |files| <= |CsvFiles|
    ensures AllProfiles(files[..k + 1]) == AllProfiles(files[..k]) + FileProfiles(CsvFiles[k], files[k])
  {
    assert files[..k + 1][..k] == files[..k];
  }

  lemma RowProfileWhenNamed(path: string, index: nat, row: Row)
    ensures RowProfile(path, index, row).Some? <==> ResolvedName(row) != ""
  {
  }

  /** The loader: nothing when any file failed, otherwise the loops over the parsed files. */
  method GetInfluencerProfilesFromCSVs(outcomes: seq<Option<seq<Row>>>) returns (influencerProfiles: seq<CsvProfile>)
    requires |outcomes| == |CsvFiles|
    ensures influencerProfiles == LoadResult(outcomes)
  {
    if exists i :: 0 <= i < |outcomes| && outcomes[i].None? {
      return [];
    }
    var allDataArrays := seq(|outcomes|, i requires 0 <= i < |outcomes| => outcomes[i].value);
    influencerProfiles := CollectProfiles(allDataArrays);
  }

  /** The outer `forEach`: the rows of every file in turn, in file order. */
  method CollectProfiles(allDataArrays: seq<seq<Row>>) returns (influencerProfiles: seq<CsvProfile>)
    requires |allDataArrays| <= |CsvFiles|
    ensures influencerProfiles == AllProfiles(allDataArrays)
  {
    influencerProfiles := [];
    var fileIdx := 0;
    while fileIdx < |allDataArrays|
      invariant 0 <= fileIdx <= |allDataArrays|
      invariant influencerProfiles == AllProfiles(allDataArrays[..fileIdx])
    {
      influencerProfiles := PushFileProfiles(influencerProfiles, CsvFiles[fileIdx], allDataArrays[fileIdx]);
      AllProfilesStep(allDataArrays, fileIdx);
      fileIdx := fileIdx + 1;
    }
    assert allDataArrays[..fileIdx] == allDataArrays;
  }

  /** The inner `forEach`: push the profile of every row of one file whose name is not empty. */
  method PushFileProfiles(before: seq<CsvProfile>, path: string, dataArray: seq<Row>) returns (influencerProfiles: seq<CsvProfile>)
    ensures influencerProfiles == before + FileProfiles(path, dataArray)
  {
    influencerProfiles := before;
    var index := 0;
    while index < |dataArray|
      invariant 0 <= index <= |dataArray|
      invariant influencerProfiles == before + FileProfiles(path, dataArray[..index])
    {
      var row := dataArray[index];
      var name := ResolvedName(row);
      var profile := RowProfile(path, index, row);
      RowProfileWhenNamed(path, index, row);
      FileProfilesStep(path, dataArray, index);
      ConcatAssoc(before, FileProfiles(path, dataArray[..index]), OptionToSeq(profile));
      if name != "" {
        influencerProfiles := influencerProfiles + [profile.value];
      }
      index := index + 1;
    }
    assert dataArray[..index] == dataArray;
  }
}

/** What the loader promises about the profiles it returns. */
module SchemaLoaderFacts {
  import opened Wrappers
  import opened Seqs
  import opened Strings
  import opened Numbers
  import opened Followers
  import opened FollowerFacts
  import opened Rows
  import opened SchemaLoader

  // Every profile.

  predicate IsTrimmed(t: string) {
    Trim(t) == t
  }

  /** Every tag is non-empty and carries no surrounding whitespace. */
  predicate TagsClean(tags: seq<string>) {
    forall k :: 0 <= k < |tags| ==> NonEmpty(tags[k]) && IsTrimmed(tags[k])
  }

  /** A pushed profile has a trimmed, non-empty name, the file's platform, and clean tags. */
  predicate WellFormed(p: CsvProfile, path: string) {
    p.name != "" && IsTrimmed(p.name) && p.platform == PlatformOfPath(path) && TagsClean(p.tags)
  }

  lemma TrimmedPieces(parts: seq<string>)
    ensures forall k :: 0 <= k < |Map(parts, Trim)| ==> IsTrimmed(Map(parts, Trim)[k])
  {
    forall k | 0 <= k < |parts|
      ensures IsTrimmed(Map(parts, Trim)[k])
    {
      TrimIdempotent(parts[k]);
    }
  }

  lemma SplitTagsClean(text: string)
    ensures TagsClean(SplitTags(text))
  {
    var pieces := Map(SplitOn(text, ","), Trim);
    TrimmedPieces(SplitOn(text, ","));
    KeepPreserves(pieces, NonEmpty, IsTrimmed);
  }

  predicate AllWellFormed(ps: seq<CsvProfile>, path: string) {
    forall k :: 0 <= k < |ps| ==> WellFormed(ps[k], path)
  }

  lemma WellFormedConcat(a: seq<CsvProfile>, b: seq<CsvProfile>, path: string)
    requires AllWellFormed(a, path) && AllWellFormed(b, path)
    ensures AllWellFormed(a + b, path)
  {
    assert forall k :: |a| <= k < |a + b| ==> (a + b)[k] == b[k - |a|];
  }

  lemma NameIsTrimmed(row: Row)
    ensures IsTrimmed(ResolvedName(row))
  {
    TrimIdempotent(FirstTruthy(row, NameColumns).GetOr(""));
  }

  lemma RowNameTrimmed(path: string, index: nat, row: Row)
    ensures RowProfile(path, index, row).Some? ==> IsTrimmed(RowProfile(path, index, row).value.name)
  {
    NameIsTrimmed(row);
  }

  lemma RowTagsClean(path: string, index: nat, row: Row)
    ensures RowProfile(path, index, row).Some? ==> TagsClean(RowProfile(path, index, row).value.tags)
  {
    SplitTagsClean(TagsText(row));
  }

  lemma RowProfileWellFormed(path: string, index: nat, row: Row)
    ensures RowProfile(path, index, row).Some? ==> WellFormed(RowProfile(path, index, row).value, path)
  {
    RowNameTrimmed(path, index, row);
    RowTagsClean(path, index, row);
  }

  lemma OptionWellFormed(o: Option<CsvProfile>, path: string)
    requires o.Some? ==> WellFormed(o.value, path)
    ensures AllWellFormed(OptionToSeq(o), path)
  {
  }

  lemma RowWellFormed(path: string, index: nat, row: Row)
    ensures AllWellFormed(OptionToSeq(RowProfile(path, index, row)), path)
  {
    RowProfileWellFormed(path, index, row);
    OptionWellFormed(RowProfile(path, index, row), path);
  }

  /** Every profile of a file is well-formed for that file's path. */
  lemma {:induction false} FileProfilesWellFormed(path: string, rows: seq<Row>)
    ensures AllWellFormed(FileProfiles(path, rows), path)
    decreases |rows|
  {
    if rows != [] {
      FileProfilesWellFormed(path, rows[..|rows| - 1]);
      RowWellFormed(path, |rows| - 1, rows[|rows| - 1]);
      WellFormedConcat(FileProfiles(path, rows[..|rows| - 1]), OptionToSeq(RowProfile(path, |rows| - 1, rows[|rows| - 1])), path);
    }
  }

  // Which rows become profiles, and in what order.

  function NameOf(p: CsvProfile): string {
    p.name
  }

  function NamedRowsOf(row: Row): seq<Row> {
    if HasName(row) then [row] else []
  }

  lemma OptionNames(o: Option<CsvProfile>, row: Row)
    requires o.Some? <==> HasName(row)
    requires o.Some? ==> o.value.name == ResolvedName(row)
    ensures Map(OptionToSeq(o), NameOf) == Map(NamedRowsOf(row), ResolvedName)
  {
  }

  lemma RowProfileName(path: string, index: nat, row: Row)
    ensures RowProfile(path, index, row).Some? ==> RowProfile(path, index, row).value.name == ResolvedName(row)
  {
  }

  lemma RowName(path: string, index: nat, row: Row)
    ensures Map(OptionToSeq(RowProfile(path, index, row)), NameOf) == Map(NamedRowsOf(row), ResolvedName)
  {
    RowProfileName(path, index, row);
    RowProfileWhenNamed(path, index, row);
    OptionNames(RowProfile(path, index, row), row);
  }

  /** The profiles of a file carry the names of its named rows, in row order. */
  lemma {:induction false} FileProfilesNames(path: string, rows: seq<Row>)
    ensures Map(FileProfiles(path, rows), NameOf) == Map(Keep(rows, HasName), ResolvedName)
    decreases |rows|
  {
    if rows != [] {
      var init := rows[..|rows| - 1];
      var last := rows[|rows| - 1];
      FileProfilesNames(path, init);
      RowName(path, |rows| - 1, last);
      MapConcat(FileProfiles(path, init), OptionToSeq(RowProfile(path, |rows| - 1, last)), NameOf);
      assert Keep(rows, HasName) == Keep(init, HasName) + NamedRowsOf(last);
      MapConcat(Keep(init, HasName), NamedRowsOf(last), ResolvedName);
    }
  }

  /** A file contributes one profile per row whose resolved name is not empty. */
  lemma FileProfilesCount(path: string, rows: seq<Row>)
    ensures |FileProfiles(path, rows)| == Count(rows, HasName)
  {
    FileProfilesNames(path, rows);
    assert |Map(FileProfiles(path, rows), NameOf)| == |Map(Keep(rows, HasName), ResolvedName)|;
  }

  // The platform of a file.

  lemma FirstUnderscore(s: string, i: nat)
    requires i < |s| && s[i] == '_'
    requires forall j :: 0 <= j < i ==> s[j] != '_'
    ensures IndexOf(s, "_") == Some(i)
  {
    assert s[i..i + 1] == "_";
    forall j | 0 <= j < i
      ensures !OccursAt(s, "_", j)
    {
      assert s[j..j + 1] == [s[j]];
    }
    IndexOfFirst(s, "_", i);
  }

  lemma SplitOnFirst(s: string, i: nat)
    requires i < |s| && s[i] == '_'
    requires forall j :: 0 <= j < i ==> s[j] != '_'
    ensures SplitOn(s, "_")[0] == s[..i]
  {
    FirstUnderscore(s, i);
    SplitOnHead(s, "_", i);
  }

  lemma DropDataPrefix(s: string, p: string)
    requires s == "/data/" + p
    ensures ReplaceFirst(s, "/data/", "") == p
  {
    assert OccursAt(s, "/data/", 0);
    IndexOfFirst(s, "/data/", 0);
  }

  /** A file under `/data/` named `<p>_<rest>` belongs to platform `p` when `p` has no underscore. */
  lemma PlatformOfDataPath(path: string, p: string, rest: string)
    requires path == "/data/" + p + "_" + rest
    requires forall k :: 0 <= k < |p| ==> p[k] != '_'
    ensures PlatformOfPath(path) == p
  {
    var i := 6 + |p|;
    assert path[i] == '_';
    assert path[..i] == "/data/" + p;
    SplitOnFirst(path, i);
    DropDataPrefix(path[..i], p);
  }

  const Platforms: seq<string> := ["instagram", "threads", "tiktok", "youtube"]

  lemma PlatformOfFile(i: nat, p: string)
    requires i < |CsvFiles| && p == Platforms[i]
    ensures PlatformOfPath(CsvFiles[i]) == p
  {
    assert forall k :: 0 <= k < |p| ==> p[k] != '_';
    PlatformOfDataPath(DataPath(p), p, "data_all-countries.csv");
  }

  /** The four files give the four lower-case platform names. */
  lemma CsvPlatforms()
    ensures |Platforms| == |CsvFiles|
    ensures forall i :: 0 <= i < |CsvFiles| ==> PlatformOfPath(CsvFiles[i]) == Platforms[i]
  {
    forall i | 0 <= i < |CsvFiles|
      ensures PlatformOfPath(CsvFiles[i]) == Platforms[i]
    {
      PlatformOfFile(i, Platforms[i]);
    }
  }

  // The name columns.

  /** A `NAME` cell of only whitespace is truthy, so it hides every later name column and the row is dropped. */
  lemma WhitespaceNameShadows(row: Row, w: string)
    requires Get(row, "NAME") == Some(w) && w != ""
    requires forall i :: 0 <= i < |w| ==> IsWhitespace(w[i])
    ensures !HasName(row)
  {
    assert FirstTruthy(row, NameColumns) == Some(w);
    TrimFacts(w);
  }

  lemma SkippedRow(path: string, index: nat, row: Row)
    requires !HasName(row)
    ensures RowProfile(path, index, row) == None
  {
  }

  // The id.

  /** A row without an `id` column, or with an empty one, is numbered by its position, counting from 1. */
  lemma RowIdFallback(row: Row, index: nat)
    requires "id" !in row || Trim(row["id"]) == []
    ensures RowId(row, index) == index + 1
  {
  }

  /** An integer `id` is used as it is unless it is 0, which falls back to the position. */
  lemma RowIdOfInteger(row: Row, index: nat, n: int)
    requires Get(row, "id") == Some(IntToString(n))
    ensures RowId(row, index) == if n != 0 then n else index + 1
  {
    NumberOfIntToString(n);
  }

  // The follower count.

  /** A row with none of the four follower columns has 0 followers: `parseFollowers(undefined)` reads no digit. */
  lemma MissingFollowersIsZero(row: Row)
    requires forall k :: 0 <= k < 3 ==> ["FOLLOWERS", "Followers", "followers"][k] !in row
    requires "Followers Count" !in row
    ensures SchemaParseFollowers(FollowersField(row)) == Some(0)
  {
    FirstTruthyFacts(row, ["FOLLOWERS", "Followers", "followers"]);
    assert FollowersField(row) == Undefined;
    SchemaUndefinedIsZero();
  }

  /** When the three first follower columns are falsy, the last one is read even if it is empty. */
  lemma EmptyFollowersCountIsZero(row: Row)
    requires forall k :: 0 <= k < 3 ==> !Truthy(Get(row, ["FOLLOWERS", "Followers", "followers"][k]))
    requires Get(row, "Followers Count") == Some("")
    ensures SchemaParseFollowers(FollowersField(row)) == Some(0)
  {
    FirstTruthyFacts(row, ["FOLLOWERS", "Followers", "followers"]);
    assert FollowersField(row) == Str("");
    SchemaReadsDigits("");
  }

  // Ids count the skipped rows too.

  function IdOf(p: CsvProfile): int {
    p.id
  }

  function Succ(i: int): int {
    i + 1
  }

  /** The positions of the rows with a name, in order. */
  function NamedIndices(rows: seq<Row>): seq<int>
    decreases |rows|
  {
    if rows == [] then []
    else NamedIndices(rows[..|rows| - 1]) + (if HasName(rows[|rows| - 1]) then [|rows| - 1] else [])
  }

  lemma OptionIds(o: Option<CsvProfile>, named: bool, index: int)
    requires o.Some? <==> named
    requires o.Some? ==> o.value.id == index + 1
    ensures Map(OptionToSeq(o), IdOf) == Map(if named then [index] else [], Succ)
  {
  }

  lemma RowProfileId(path: string, index: nat, row: Row)
    ensures RowProfile(path, index, row).Some? ==> RowProfile(path, index, row).value.id == RowId(row, index)
  {
  }

  lemma RowIdWithoutColumn(path: string, index: nat, row: Row)
    requires "id" !in row
    ensures Map(OptionToSeq(RowProfile(path, index, row)), IdOf) == Map(if HasName(row) then [index as int] else [], Succ)
  {
    RowIdFallback(row, index);
    RowProfileId(path, index, row);
    RowProfileWhenNamed(path, index, row);
    OptionIds(RowProfile(path, index, row), HasName(row), index);
  }

  /**
   * Without an `id` column, profile ids are the positions of the named rows plus 1: a
   * skipped row still takes up its number.
   */
  lemma {:induction false} FileIdsWithoutIdColumn(path: string, rows: seq<Row>)
    requires forall i :: 0 <= i < |rows| ==> "id" !in rows[i]
    ensures Map(FileProfiles(path, rows), IdOf) == Map(NamedIndices(rows), Succ)
    decreases |rows|
  {
    if rows != [] {
      var init := rows[..|rows| - 1];
      var last := rows[|rows| - 1];
      var n := |rows| - 1;
      FileIdsWithoutIdColumn(path, init);
      RowIdWithoutColumn(path, n, last);
      MapConcat(FileProfiles(path, init), OptionToSeq(RowProfile(path, n, last)), IdOf);
      MapConcat(NamedIndices(init), if HasName(last) then [n as int] else [], Succ);
    }
  }

  // All files together.

  /** The rows that become profiles, in file order and then row order. */
  function NamedRows(files: seq<seq<Row>>): seq<Row>
    decreases |files|
  {
    if files == [] then []
    else NamedRows(files[..|files| - 1]) + Keep(files[|files| - 1], HasName)
  }

  /** The loader's output holds one profile per named row, with that row's name, in file and row order. */
  lemma {:induction false} AllProfilesNames(files: seq<seq<Row>>)
    requires |files| <= |CsvFiles|
    ensures Map(AllProfiles(files), NameOf) == Map(NamedRows(files), ResolvedName)
    ensures |AllProfiles(files)| == |NamedRows(files)|
    decreases |files|
  {
    if files != [] {
      var init := files[..|files| - 1];
      var last := files[|files| - 1];
      var path := CsvFiles[|files| - 1];
      AllProfilesNames(init);
      FileProfilesNames(path, last);
      MapConcat(AllProfiles(init), FileProfiles(path, last), NameOf);
      MapConcat(NamedRows(init), Keep(last, HasName), ResolvedName);
    }
  }

  /** What every profile the loader returns satisfies, whichever file it came from. */
  predicate ProfileOk(p: CsvProfile) {
    p.name != "" && IsTrimmed(p.name) && p.platform in Platforms && TagsClean(p.tags)
  }

  lemma FileProfilesOk(i: nat, rows: seq<Row>)
    requires i < |CsvFiles|
    ensures forall k :: 0 <= k < |FileProfiles(CsvFiles[i], rows)| ==> ProfileOk(FileProfiles(CsvFiles[i], rows)[k])
  {
    FileProfilesWellFormed(CsvFiles[i], rows);
    CsvPlatforms();
  }

  lemma OkConcat(a: seq<CsvProfile>, b: seq<CsvProfile>)
    requires forall k :: 0 <= k < |a| ==> ProfileOk(a[k])
    requires forall k :: 0 <= k < |b| ==> ProfileOk(b[k])
    ensures forall k :: 0 <= k < |a + b| ==> ProfileOk((a + b)[k])
  {
    assert forall k :: |a| <= k < |a + b| ==> (a + b)[k] == b[k - |a|];
  }

  /** Every loaded profile has a trimmed, non-empty name, one of the four platforms, and clean tags. */
  lemma {:induction false} AllProfilesOk(files: seq<seq<Row>>)
    requires |files| <= |CsvFiles|
    ensures forall k :: 0 <= k < |AllProfiles(files)| ==> ProfileOk(AllProfiles(files)[k])
    decreases |files|
  {
    if files != [] {
      var init := files[..|files| - 1];
      AllProfilesOk(init);
      FileProfilesOk(|files| - 1, files[|files| - 1]);
      OkConcat(AllProfiles(init), FileProfiles(CsvFiles[|files| - 1], files[|files| - 1]));
    }
  }

  /** If every file loads, the loader returns the profiles of all four files; if one fails, nothing. */
  lemma LoadOutcome(outcomes: seq<Option<seq<Row>>>)
    requires |outcomes| == |CsvFiles|
    ensures AnyFailed(outcomes) ==> LoadResult(outcomes) == []
    ensures !AnyFailed(outcomes) ==> |LoadResult(outcomes)| == |NamedRows(seq(4, i requires 0 <= i < 4 => outcomes[i].value))|
    ensures forall k :: 0 <= k < |LoadResult(outcomes)| ==> ProfileOk(LoadResult(outcomes)[k])
  {
    if !AnyFailed(outcomes) {
      var files := seq(4, i requires 0 <= i < 4 => outcomes[i].value);
      assert files == seq(|outcomes|, i requires 0 <= i < |outcomes| => outcomes[i].value);
      AllProfilesNames(files);
      AllProfilesOk(files);
    }
  }
}
