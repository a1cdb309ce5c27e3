/**
 * The explore page's filter sidebar (`components/explore/FilterSidebar.tsx`). It holds no
 * state of its own: each control hands the page a partial filter record, which the page
 * merges into its filters (`Explore.MergeFilters`). The two labels under the slider are
 * `formatFollowerCount`, the same suffix choice as `Followers.FormatFollowers`.
 */
module FilterSidebar {
  import opened Wrappers
  import opened Explore
  import opened Followers

  /** The niche badges, in display order. */
  const Niches: seq<string> := ["Fashion", "Beauty", "Fitness", "Technology", "Gaming", "Food", "Travel",
    "Lifestyle", "Business", "Finance", "Education", "Entertainment", "Sports", "Music"]

  /** The platform badges, in display order. */
  const SidebarPlatforms: seq<string> := ["Instagram", "YouTube", "TikTok", "Threads", "LinkedIn", "Facebook", "Twitch"]

  /** `resetFilters`: clears niche, platform and location, min 0, max 1,000,000; the tags are not touched. */
  const ResetUpdate := FilterUpdate(Some(""), None, Some(0), Some(1000000), Some(""), Some(""))

  /** A badge click: the clicked value, or "" when it is the current one. */
  function Toggle(current: string, clicked: string): (r: string)
    ensures r == "" || r == clicked
    ensures r == clicked <==> current != clicked || clicked == ""
  {
    if current == clicked then "" else clicked
  }

  /** The update a niche badge sends. */
  function NicheClick(filters: Filters, niche: string): FilterUpdate {
    NoUpdate.(niche := Some(Toggle(filters.niche, niche)))
  }

  /** The update a platform badge sends. */
  function PlatformClick(filters: Filters, platform: string): FilterUpdate {
    NoUpdate.(platform := Some(Toggle(filters.platform, platform)))
  }

  /** `onValueChange`: an update of the range only for a two-handle value, nothing otherwise. */
  function SliderChange(value: seq<int>): Option<FilterUpdate> {
    if |value| == 2 then Some(NoUpdate.(minFollowers := Some(value[0]), maxFollowers := Some(value[1])))
    else None
  }

  /** The location input's update: the typed text, as it is. */
  function LocationChange(text: string): FilterUpdate {
    NoUpdate.(location := Some(text))
  }

  /** The labels under the slider: the current minimum and maximum, formatted. */
  function SliderLabels(filters: Filters): (FollowerLabel, FollowerLabel) {
    (FormatFollowers(filters.minFollowers), FormatFollowers(filters.maxFollowers))
  }
}

/** What the sidebar's updates do to the page's filters. */
module FilterSidebarFacts {
  import opened Wrappers
  import opened Seqs
  import opened Strings
  import opened Numbers
  import opened Explore
  import opened ExploreFacts
  import opened Followers
  import opened FilterSidebar

  /** Reset clears the text filters and sets the range to its sentinel, so the follower filter is off; tags stay. */
  lemma ResetFilters(f: Filters)
    ensures var g := MergeFilters(f, ResetUpdate);
      g == Filters("", f.tags, 0, 1000000, "", "") && !FollowerFilterOn(g)
  {
  }

  /** After a reset, with no tags filter, every record is shown. */
  lemma ResetShowsAll(data: seq<ExploreProfile>, f: Filters)
    requires f.tags == ""
    ensures FilterResult(data, MergeFilters(f, ResetUpdate)) == data
  {
    NoFilterShowsAll(data, MergeFilters(f, ResetUpdate));
  }

  /** A badge click changes the niche and nothing else, to "" or to the clicked niche. */
  lemma NicheClickFilters(f: Filters, niche: string)
    ensures var g := MergeFilters(f, NicheClick(f, niche));
      g == f.(niche := g.niche)
      && (g.niche == "" || g.niche == niche)
      && (g.niche == "" <==> f.niche == niche || niche == "")
  {
  }

  /** The platform badge follows the same rule. */
  lemma PlatformClickFilters(f: Filters, platform: string)
    ensures var g := MergeFilters(f, PlatformClick(f, platform));
      g == f.(platform := g.platform)
      && (g.platform == "" || g.platform == platform)
      && (g.platform == "" <==> f.platform == platform || platform == "")
  {
  }

  /** Clicking the same niche badge twice restores the filters, starting from no niche or from that niche. */
  lemma NicheClickTwice(f: Filters, niche: string)
    requires f.niche == "" || f.niche == niche
    ensures var g := MergeFilters(f, NicheClick(f, niche));
      MergeFilters(g, NicheClick(g, niche)) == f
  {
  }

  /** The slider sends an update exactly for two handles, and it sets the range and nothing else. */
  lemma SliderFilters(f: Filters, value: seq<int>)
    ensures SliderChange(value).Some? <==> |value| == 2
    ensures SliderChange(value).Some? ==>
      MergeFilters(f, SliderChange(value).value) == f.(minFollowers := value[0], maxFollowers := value[1])
  {
  }

  /** Typing a location sets the location, unchanged, and nothing else. */
  lemma LocationFilters(f: Filters, text: string)
    ensures MergeFilters(f, LocationChange(text)) == f.(location := text)
  {
  }

  /** The slider labels follow the range: plain below 1000, "K" up to a million, "M" from there. */
  lemma SliderLabelFacts(f: Filters)
    ensures SliderLabels(f).0 == Millions <==> f.minFollowers >= 1000000
    ensures SliderLabels(f).0.Plain? <==> f.minFollowers < 1000
    ensures SliderLabels(f).1 == Millions <==> f.maxFollowers >= 1000000
    ensures SliderLabels(f).1.Plain? <==> f.maxFollowers < 1000
  {
  }

  /** The page opens with both labels in millions; after a reset the minimum reads "0" and the maximum is in millions. */
  lemma SliderLabelsInitialAndReset(f: Filters)
    ensures SliderLabels(InitialFilters) == (Millions, Millions)
    ensures SliderLabels(MergeFilters(f, ResetUpdate)) == (Plain("0"), Millions)
  {
    assert IntToString(0) == "0";
  }

  /** Every niche badge has a name, so choosing one that is not selected turns the niche filter on for it. */
  lemma NicheBadgeFilters(data: seq<ExploreProfile>, f: Filters, i: nat)
    requires i < |Niches|
    requires f.niche != Niches[i]
    ensures var g := MergeFilters(f, NicheClick(f, Niches[i]));
      g.niche == Niches[i]
      && forall k :: 0 <= k < |FilterResult(data, g)| ==> TagMatches(FilterResult(data, g)[k], Niches[i])
  {
    var g := MergeFilters(f, NicheClick(f, Niches[i]));
    assert Niches[i] != "";
    FilterResultSound(data, g);
  }

  /** Each platform an explore file is loaded for has a badge, and choosing it shows only that platform's records. */
  lemma FilePlatformBadge(data: seq<ExploreProfile>, f: Filters, i: nat)
    requires i < |ExploreFiles|
    requires f.platform != ExploreFiles[i].platform
    ensures ExploreFiles[i].platform in SidebarPlatforms
    ensures var g := MergeFilters(f, PlatformClick(f, ExploreFiles[i].platform));
      g.platform == ExploreFiles[i].platform
      && forall k :: 0 <= k < |FilterResult(data, g)| ==>
        LowerTrimmed(FilterResult(data, g)[k].platform) == LowerTrimmed(ExploreFiles[i].platform)
  {
    if i == 0 { ExploreFile0(); } else if i == 1 { ExploreFile1(); } else if i == 2 { ExploreFile2(); } else { ExploreFile3(); }
    var g := MergeFilters(f, PlatformClick(f, ExploreFiles[i].platform));
    FilterResultSound(data, g);
  }
}
