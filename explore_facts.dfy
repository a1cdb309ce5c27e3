/** What the explore page's row mapping, merge, filter state and filter chain promise. */
module ExploreFacts {
  import opened Wrappers
  import opened Seqs
  import opened Strings
  import opened Numbers
  import opened Rows
  import opened Followers
  import opened FollowerFacts
  import opened CardInfluencer
  import opened Explore

  // The filter chain.

  /** The filtered list keeps the order of the page's data: it is a subsequence of it. */
  lemma FilterResultIsSubsequence(data: seq<ExploreProfile>, f: Filters)
    ensures IsSubsequence(FilterResult(data, f), data)
  {
    KeepIsSubsequence(data, inf => Passes(inf, f));
  }

  /** A record is shown exactly when it is in the data and gets past every filter that is set. */
  lemma FilterResultMembers(data: seq<ExploreProfile>, f: Filters)
    ensures forall inf :: inf in FilterResult(data, f) <==> inf in data && Passes(inf, f)
  {
    KeepMembers(data, inf => Passes(inf, f));
  }

  /** Every shown record satisfies each filter that is set. */
  lemma FilterResultSound(data: seq<ExploreProfile>, f: Filters)
    ensures var r := FilterResult(data, f);
      forall i :: 0 <= i < |r| ==>
        (f.niche != "" ==> |r[i].tags| > 0 && exists k :: 0 <= k < |r[i].tags| && Contains(ToLower(r[i].tags[k]), ToLower(f.niche)))
        && (f.tags != "" ==> |r[i].tags| > 0 && exists k :: 0 <= k < |r[i].tags| && Contains(ToLower(r[i].tags[k]), ToLower(f.tags)))
        && (f.location != "" ==> Contains(ToLower(r[i].location), ToLower(f.location)))
        && (FollowerFilterOn(f) ==>
              FollowersOf(r[i]).Some? && OrNumber(f.minFollowers, 0) <= FollowersOf(r[i]).value <= OrNumber(f.maxFollowers, 1000000))
        && (f.platform != "" ==> LowerTrimmed(r[i].platform) == LowerTrimmed(f.platform))
  {
    var r := FilterResult(data, f);
    forall i | 0 <= i < |r|
      ensures Passes(r[i], f)
    {
    }
  }

  /** With a niche or a tags filter set, a record without tags is never shown. */
  lemma TaglessHidden(data: seq<ExploreProfile>, f: Filters, inf: ExploreProfile)
    requires f.niche != "" || f.tags != ""
    requires inf.tags == []
    ensures inf !in FilterResult(data, f)
  {
    FilterResultMembers(data, f);
  }

  /** While the follower filter runs, a record whose count reads as NaN is never shown. */
  lemma UnreadableCountHidden(data: seq<ExploreProfile>, f: Filters, inf: ExploreProfile)
    requires FollowerFilterOn(f)
    requires FollowersOf(inf).None?
    ensures inf !in FilterResult(data, f)
  {
    FilterResultMembers(data, f);
  }

  /** With no text filter set and the range at its sentinel, every record is shown. */
  lemma NoFilterShowsAll(data: seq<ExploreProfile>, f: Filters)
    requires f.niche == "" && f.tags == "" && f.location == "" && f.platform == ""
    requires f.minFollowers <= 0 && f.maxFollowers == 1000000
    ensures FilterResult(data, f) == data
  {
    KeepAll(data, inf => Passes(inf, f));
  }

  /** The initial filters show the records with 1,000,000 to 1,000,000,000 followers, and no others. */
  lemma InitialFiltersShowRange(data: seq<ExploreProfile>)
    ensures FilterResult(data, InitialFilters)
      == Keep(data, inf => FollowersOf(inf).Some? && 1000000 <= FollowersOf(inf).value <= 1000000000)
  {
    KeepAgree(data, inf => Passes(inf, InitialFilters),
      inf => FollowersOf(inf).Some? && 1000000 <= FollowersOf(inf).value <= 1000000000);
  }

  /** Filtering the filtered list again changes nothing. */
  lemma FilterResultIdempotent(data: seq<ExploreProfile>, f: Filters)
    ensures FilterResult(FilterResult(data, f), f) == FilterResult(data, f)
  {
    KeepIdempotent(data, inf => Passes(inf, f));
  }

  /** Filtering merged data is filtering each part and merging the results. */
  lemma FilterResultOfConcat(a: seq<ExploreProfile>, b: seq<ExploreProfile>, f: Filters)
    ensures FilterResult(a + b, f) == FilterResult(a, f) + FilterResult(b, f)
  {
    KeepConcat(a, b, inf => Passes(inf, f));
  }

  // The filter state.

  /** `handleFilterChange` overwrites exactly the supplied fields and keeps every other. */
  lemma MergeOverwritesSupplied(prev: Filters, update: FilterUpdate)
    ensures var r := MergeFilters(prev, update);
      (update.niche.Some? ==> r.niche == update.niche.value) && (update.niche.None? ==> r.niche == prev.niche)
      && (update.tags.Some? ==> r.tags == update.tags.value) && (update.tags.None? ==> r.tags == prev.tags)
      && (update.minFollowers.Some? ==> r.minFollowers == update.minFollowers.value)
      && (update.minFollowers.None? ==> r.minFollowers == prev.minFollowers)
      && (update.maxFollowers.Some? ==> r.maxFollowers == update.maxFollowers.value)
      && (update.maxFollowers.None? ==> r.maxFollowers == prev.maxFollowers)
      && (update.location.Some? ==> r.location == update.location.value)
      && (update.location.None? ==> r.location == prev.location)
      && (update.platform.Some? ==> r.platform == update.platform.value)
      && (update.platform.None? ==> r.platform == prev.platform)
  {
  }

  /** An update that supplies nothing leaves the filters as they are. */
  lemma MergeNothing(prev: Filters)
    ensures MergeFilters(prev, NoUpdate) == prev
  {
  }

  /** Two updates in a row are one update in which the later one wins. */
  lemma MergeTwice(prev: Filters, first: FilterUpdate, second: FilterUpdate)
    ensures MergeFilters(MergeFilters(prev, first), second) == MergeFilters(prev, ThenUpdate(first, second))
  {
  }

  /** Repeating an update changes nothing more. */
  lemma MergeIdempotent(prev: Filters, update: FilterUpdate)
    ensures MergeFilters(MergeFilters(prev, update), update) == MergeFilters(prev, update)
  {
  }

  // parseFile.

  /** `parseFile` numbers the rows from 1, seeds each image with the file's offset plus that id, and carries the file's platform name. */
  lemma ParseFileFacts(file: FileInfo, rows: seq<Row>)
    ensures var r := ParseFile(file, rows);
      |r| == |rows|
      && forall i :: 0 <= i < |r| ==>
        r[i].id == i + 1 && r[i].profileImage == ImageUrl(file.offset + i + 1) && r[i].platform == file.platform
        && r[i].metrics == [FollowersMetric(rows[i])] && r[i].platformFollowers.None?
  {
  }

  lemma NameHead(text: string, i: nat)
    requires IndexOf(text, " @") == Some(i)
    ensures SplitOn(text, " @")[0] == text[..i]
    ensures |SplitOn(text, " @")| > 1 && SplitOn(text, " @")[1] == SplitOn(text[i + 2..], " @")[0]
  {
    SplitOnHead(text, " @", i);
  }

  lemma NameWithoutSeparator(text: string)
    requires IndexOf(text, " @") == None
    ensures SplitOn(text, " @") == [text]
  {
  }

  /** A NAME cell "name @handle" gives the trimmed text before " @" as the name and the trimmed text after it as the handle. */
  lemma NameSplitsOnHandle(row: Row, i: nat)
    requires "NAME" in row && row["NAME"] != ""
    requires IndexOf(row["NAME"], " @") == Some(i)
    requires IndexOf(row["NAME"][i + 2..], " @") == None
    ensures var text := row["NAME"];
      NameAndHandle(row) == (OrElse(Trim(text[..i]), UnknownName), Trim(text[i + 2..]))
  {
    var text := row["NAME"];
    NameHead(text, i);
    NameWithoutSeparator(text[i + 2..]);
  }

  /** A NAME cell without " @" gives its trimmed text as the name, "Unknown Name" when that is empty, and no handle. */
  lemma NameWithoutHandle(row: Row)
    requires "NAME" in row && row["NAME"] != ""
    requires IndexOf(row["NAME"], " @") == None
    ensures NameAndHandle(row) == (OrElse(Trim(row["NAME"]), UnknownName), "")
  {
    NameWithoutSeparator(row["NAME"]);
  }

  /** A row with neither name column is shown as "Unknown Name". */
  lemma NoNameIsUnknown(row: Row)
    requires !Truthy(Get(row, "NAME")) && !Truthy(Get(row, "INFLUENCER NAME"))
    ensures NameAndHandle(row) == (UnknownName, "")
  {
  }

  lemma AllWhitespaceTrims(w: string)
    requires forall i :: 0 <= i < |w| ==> IsWhitespace(w[i])
    ensures Trim(w) == ""
  {
    TrimFacts(w);
  }

  /** An INFLUENCER NAME of whitespace only gives an empty name, not "Unknown Name". */
  lemma WhitespaceInfluencerName(row: Row)
    requires !Truthy(Get(row, "NAME"))
    requires "INFLUENCER NAME" in row && row["INFLUENCER NAME"] != ""
    requires forall i :: 0 <= i < |row["INFLUENCER NAME"]| ==> IsWhitespace(row["INFLUENCER NAME"][i])
    ensures NameAndHandle(row) == ("", "")
  {
    AllWhitespaceTrims(row["INFLUENCER NAME"]);
  }

  /** A suffix of a text in which `t` does not occur has no occurrence of `t` either. */
  lemma SuffixKeepsAbsence(s: string, j: nat, t: string)
    requires j <= |s| && !Contains(s, t)
    ensures !Contains(s[j..], t)
  {
    forall i | OccursAt(s[j..], t, i)
      ensures OccursAt(s, t, i + j)
    {
      assert s[j..][i..i + |t|] == s[i + j..i + j + |t|];
    }
  }

  lemma TrimStartKeepsAbsence(s: string, t: string)
    requires !Contains(s, t)
    ensures !Contains(TrimStart(s), t)
  {
    SuffixKeepsAbsence(s, |s| - |TrimStart(s)|, t);
  }

  /**
   * Every tag of a topic cell is free of commas. The first tag is the cell up to its first
   * comma, leading whitespace included; every later tag starts on something other than
   * whitespace.
   */
  lemma TopicTagsClean(text: string)
    ensures var tags := SplitCommaSpace(text);
      (forall k :: 0 <= k < |tags| ==> !Contains(tags[k], ","))
      && (forall k :: 1 <= k < |tags| ==> tags[k] == [] || !IsWhitespace(tags[k][0]))
      && (IndexOf(text, ",") == None ==> tags == [text])
      && (forall i :: IndexOf(text, ",") == Some(i) ==> tags[0] == text[..i])
  {
    var pieces := SplitOn(text, ",");
    var tags := SplitCommaSpace(text);
    forall k | 0 <= k < |tags|
      ensures !Contains(tags[k], ",") && (k >= 1 ==> tags[k] == [] || !IsWhitespace(tags[k][0]))
    {
      if k >= 1 {
        assert tags[k] == TrimStart(pieces[k]);
        TrimStartKeepsAbsence(pieces[k], ",");
        TrimStartFacts(pieces[k]);
      } else {
        assert tags[k] == pieces[0];
      }
    }
    if IndexOf(text, ",") == None {
      NameWithoutComma(text);
    }
    if i :| IndexOf(text, ",") == Some(i) {
      SplitOnHead(text, ",", i);
    }
  }

  /** A cell with one comma gives the text before it, as it is, and the text after it without its leading whitespace. */
  lemma OneCommaTags(first: string, rest: string)
    requires forall j :: 0 <= j < |first| ==> first[j] != ','
    requires forall j :: 0 <= j < |rest| ==> rest[j] != ','
    ensures SplitCommaSpace(first + [','] + rest) == [first, TrimStart(rest)]
  {
    var pieces := SplitOn(first + [','] + rest, ",");
    assert pieces == [first] + SplitOn(rest, ",") by {
      SplitOnFirstChar(first, ',', rest);
    }
    assert SplitOn(rest, ",") == [rest] by {
      NoCharNoIndex(rest, ',');
      NameWithoutComma(rest);
    }
    assert pieces[1..] == [rest];
  }

  /** " Fashion, Beauty" gives the tags " Fashion" and "Beauty": the first keeps its leading space. */
  lemma LeadingSpaceKept(cell: string)
    requires cell == " Fashion, Beauty"
    ensures SplitCommaSpace(cell) == [" Fashion", "Beauty"]
  {
    var first, rest := FashionBeautyParts(cell);
    OneCommaTags(first, rest);
    TrimStartOfNonWhite(rest[1..]);
  }

  lemma FashionBeautyParts(cell: string) returns (first: string, rest: string)
    requires cell == " Fashion, Beauty"
    ensures cell == first + [','] + rest && first == " Fashion"
    ensures forall j :: 0 <= j < |first| ==> first[j] != ','
    ensures forall j :: 0 <= j < |rest| ==> rest[j] != ','
    ensures |rest| > 0 && IsWhitespace(rest[0]) && rest[1..] == "Beauty"
    ensures rest[1..] == [] || !IsWhitespace(rest[1..][0])
  {
    first, rest := " Fashion", " Beauty";
  }

  /** A row without a topic column has no tags; an empty topic cell has the single tag "". */
  lemma TopicTagsOfMissingOrEmpty(row: Row)
    ensures "TOPIC OF INFLUENCE" !in row ==> TopicTags(row) == []
    ensures "TOPIC OF INFLUENCE" in row && row["TOPIC OF INFLUENCE"] == "" ==> TopicTags(row) == [""]
  {
    if "TOPIC OF INFLUENCE" in row && row["TOPIC OF INFLUENCE"] == "" {
      NameWithoutComma("");
    }
  }

  /** A text without the character `c` has no occurrence of it. */
  lemma NoCharNoIndex(s: string, c: char)
    requires forall j :: 0 <= j < |s| ==> s[j] != c
    ensures IndexOf(s, [c]) == None
  {
    forall i | 0 <= i < |s|
      ensures !OccursAt(s, [c], i)
    {
      assert s[i..i + 1][0] == s[i];
    }
  }

  lemma NameWithoutComma(text: string)
    requires IndexOf(text, ",") == None
    ensures SplitOn(text, ",") == [text]
  {
  }

  /** The metric of a row is "0" without a FOLLOWERS cell, and otherwise holds digits and M/K only. */
  lemma FollowersMetricFacts(row: Row)
    ensures !Truthy(Get(row, "FOLLOWERS")) ==> FollowersMetric(row).value == "0"
    ensures Truthy(Get(row, "FOLLOWERS")) ==> IsSubsequence(FollowersMetric(row).value, row["FOLLOWERS"])
    ensures forall i :: 0 <= i < |FollowersMetric(row).value| ==> IsCountChar(FollowersMetric(row).value[i])
  {
    if !Truthy(Get(row, "FOLLOWERS")) {
      assert IsCountChar('0');
    }
  }

  /** A record built from a row is filtered on its metric alone, never on a platform total. */
  lemma FollowersOfParsedRow(file: FileInfo, index: nat, row: Row)
    ensures var v := FollowersMetric(row).value;
      FollowersOf(ParseRow(file, index, row)) == if v != "" then ExploreParseFollowers(Str(v)) else Some(0)
  {
  }

  // The merge.

  /** The page's data is the four parsed files one after the other, in the order of `csvFiles`. */
  lemma PageDataInOrder(files: seq<seq<Row>>)
    requires |files| == |ExploreFiles|
    ensures PageData(files) == ParseFile(ExploreFiles[0], files[0]) + ParseFile(ExploreFiles[1], files[1])
      + ParseFile(ExploreFiles[2], files[2]) + ParseFile(ExploreFiles[3], files[3])
    ensures |PageData(files)| == |files[0]| + |files[1]| + |files[2]| + |files[3]|
  {
    var groups := seq(|ExploreFiles|, i requires 0 <= i < |ExploreFiles| => ParseFile(ExploreFiles[i], files[i]));
    assert groups == [groups[0], groups[1], groups[2], groups[3]];
    FlattenFour(groups[0], groups[1], groups[2], groups[3]);
  }

  // The metric cleaning.

  lemma CleanOneAndAHalf(s: string)
    requires s == "1.5M"
    ensures CleanMetricAsWritten(s) == "15M"
  {
    var s1, s2, s3 := s[..1], s[..2], s[..3];
    assert s1[..0] == [] && s2[..1] == s1 && s3[..2] == s2 && s[..3] == s3;
    assert Keep(s1, IsCountChar) == ['1'];
    assert Keep(s2, IsCountChar) == ['1'];
    assert Keep(s3, IsCountChar) == ['1', '5'];
  }

  /** As written, the cleaning turns "1.5M" into "15M", which reads as 15,000,000 instead of the 1,500,000 "1.5M" reads as. */
  lemma CleaningDropsDecimalPoint(s: string)
    requires s == "1.5M"
    ensures CleanMetricAsWritten(s) == "15M"
    ensures ExploreParseFollowers(Str(CleanMetricAsWritten(s))) == Some(15000000)
    ensures ExploreParseFollowers(Str(s)) == Some(1500000)
  {
    CleanOneAndAHalf(s);
    ExploreReadsFifteenMillions(CleanMetricAsWritten(s));
    ExploreReadsFractionalMillions(s);
  }

  /** On the page a FOLLOWERS cell of "1.5M" becomes the metric "15M", which the follower filter reads as 15,000,000. */
  lemma FractionalFollowersCell(file: FileInfo, index: nat, row: Row)
    requires "FOLLOWERS" in row && row["FOLLOWERS"] == "1.5M"
    ensures FollowersMetric(row).value == "15M"
    ensures FollowersOf(ParseRow(file, index, row)) == Some(15000000)
  {
    CleaningDropsDecimalPoint(row["FOLLOWERS"]);
    FollowersOfParsedRow(file, index, row);
  }

  /** The corrected cleaning leaves a count written with digits, M/K and decimal points as it is. */
  lemma CleaningKeepsCountText(s: string)
    requires forall i :: 0 <= i < |s| ==> IsDecimalCountChar(s[i])
    ensures CleanMetric(s) == s
    ensures ExploreParseFollowers(Str(CleanMetric(s))) == ExploreParseFollowers(Str(s))
  {
    KeepAll(s, IsDecimalCountChar);
  }

  /** After the corrected cleaning "1.5M" still reads as 1,500,000. */
  lemma CleaningKeepsFractionalCount()
    ensures ExploreParseFollowers(Str(CleanMetric("1.5M"))) == Some(1500000)
  {
    var s := "1.5M";
    assert IsDecimalCountChar(s[0]) && IsDecimalCountChar(s[1]) && IsDecimalCountChar(s[2]) && IsDecimalCountChar(s[3]);
    CleaningKeepsCountText(s);
    ExploreReadsFractionalMillions(s);
  }

  /** The two cleanings agree on text without a decimal point. */
  lemma CleaningsAgreeWithoutPoint(s: string)
    requires forall i :: 0 <= i < |s| ==> s[i] != '.'
    ensures CleanMetricAsWritten(s) == CleanMetric(s)
  {
    KeepAgree(s, IsCountChar, IsDecimalCountChar);
  }

  // The card of a record.

  lemma LowerOfName(s: string, lower: string)
    requires |s| == |lower| && forall i :: 0 <= i < |s| ==> LowerChar(s[i]) == lower[i]
    requires lower != [] && !IsWhitespace(lower[0]) && !IsWhitespace(lower[|lower| - 1])
    ensures LowerTrimmed(s) == lower
  {
    assert ToLower(s) == lower;
    TrimOfNonWhite(lower);
  }

  lemma InstagramKey(s: string)
    requires s == "Instagram"
    ensures LowerTrimmed(s) == "instagram"
  {
    LowerOfName(s, "instagram");
  }

  lemma ThreadsKey(s: string)
    requires s == "Threads"
    ensures LowerTrimmed(s) == "threads"
  {
    LowerOfName(s, "threads");
  }

  lemma TikTokKey(s: string)
    requires s == "TikTok"
    ensures LowerTrimmed(s) == "tiktok"
  {
    LowerOfName(s, "tiktok");
  }

  lemma YouTubeKey(s: string)
    requires s == "YouTube"
    ensures LowerTrimmed(s) == "youtube"
  {
    LowerOfName(s, "youtube");
  }

  lemma OffsetOfKey(p: string, key: string, id: int)
    requires LowerTrimmed(p) == key
    ensures GetOffsetId(p, id) == id + PlatformOffset(key)
  {
  }

  lemma InstagramOffset(s: string, id: int)
    requires s == "Instagram"
    ensures GetOffsetId(s, id) == id
  {
    InstagramKey(s);
    OffsetOfKey(s, "instagram", id);
  }

  lemma ExploreFile0()
    ensures ExploreFiles[0].platform == "Instagram" && ExploreFiles[0].offset == 0
  {
  }

  lemma ExploreOffsetAt0(id: int)
    ensures GetOffsetId(ExploreFiles[0].platform, id) == id + ExploreFiles[0].offset
  {
    ExploreFile0();
    InstagramOffset(ExploreFiles[0].platform, id);
  }

  lemma ThreadsOffset(s: string, id: int)
    requires s == "Threads"
    ensures GetOffsetId(s, id) == id + 1000
  {
    ThreadsKey(s);
    OffsetOfKey(s, "threads", id);
  }

  lemma ExploreFile1()
    ensures ExploreFiles[1].platform == "Threads" && ExploreFiles[1].offset == 1000
  {
  }

  lemma ExploreOffsetAt1(id: int)
    ensures GetOffsetId(ExploreFiles[1].platform, id) == id + ExploreFiles[1].offset
  {
    ExploreFile1();
    ThreadsOffset(ExploreFiles[1].platform, id);
  }

  lemma TikTokOffset(s: string, id: int)
    requires s == "TikTok"
    ensures GetOffsetId(s, id) == id + 2000
  {
    TikTokKey(s);
    OffsetOfKey(s, "tiktok", id);
  }

  lemma ExploreFile2()
    ensures ExploreFiles[2].platform == "TikTok" && ExploreFiles[2].offset == 2000
  {
  }

  lemma ExploreOffsetAt2(id: int)
    ensures GetOffsetId(ExploreFiles[2].platform, id) == id + ExploreFiles[2].offset
  {
    ExploreFile2();
    TikTokOffset(ExploreFiles[2].platform, id);
  }

  lemma YouTubeOffset(s: string, id: int)
    requires s == "YouTube"
    ensures GetOffsetId(s, id) == id + 3000
  {
    YouTubeKey(s);
    OffsetOfKey(s, "youtube", id);
  }

  lemma ExploreFile3()
    ensures ExploreFiles[3].platform == "YouTube" && ExploreFiles[3].offset == 3000
  {
  }

  lemma ExploreOffsetAt3(id: int)
    ensures GetOffsetId(ExploreFiles[3].platform, id) == id + ExploreFiles[3].offset
  {
    ExploreFile3();
    YouTubeOffset(ExploreFiles[3].platform, id);
  }

  /** The card's offset for each file's platform name is the offset the file seeds its images with. */
  lemma ExploreOffsetAgrees(i: nat, id: int)
    requires i < |ExploreFiles|
    ensures GetOffsetId(ExploreFiles[i].platform, id) == id + ExploreFiles[i].offset
  {
    var file := ExploreFiles[i];
    if i == 0 {
      ExploreOffsetAt0(id);
    } else if i == 1 {
      ExploreOffsetAt1(id);
    } else if i == 2 {
      ExploreOffsetAt2(id);
    } else {
      ExploreOffsetAt3(id);
    }
    assert GetOffsetId(file.platform, id) == id + file.offset;
  }

  lemma ParseRowFields(file: FileInfo, index: nat, row: Row)
    ensures ParseRow(file, index, row).id == index + 1
    ensures ParseRow(file, index, row).platform == file.platform
    ensures ParseRow(file, index, row).profileImage == ImageUrl(file.offset + index + 1)
  {
  }

  lemma CardImageOfRecord(i: nat, inf: ExploreProfile)
    requires i < |ExploreFiles|
    requires inf.platform == ExploreFiles[i].platform && inf.profileImage == ImageUrl(ExploreFiles[i].offset + inf.id)
    ensures RenderCard(CardPropsOf(inf)).imageUrl == inf.profileImage
  {
    ExploreOffsetAgrees(i, inf.id);
  }

  /** The card of a parsed record shows the same image as the record, because both seed it with the file's offset plus the row's id. */
  lemma CardImageIsRecordImage(i: nat, index: nat, row: Row)
    requires i < |ExploreFiles|
    ensures var inf := ParseRow(ExploreFiles[i], index, row);
      RenderCard(CardPropsOf(inf)).imageUrl == inf.profileImage
  {
    ParseRowFields(ExploreFiles[i], index, row);
    CardImageOfRecord(i, ParseRow(ExploreFiles[i], index, row));
  }
}
