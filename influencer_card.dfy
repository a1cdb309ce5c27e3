/**
 * The influencer card (`components/explore/InfluencerCard.tsx`): the total follower count
 * over a profile's platforms, the colour of each platform's chip, and the niche badges.
 * Its `formatFollowers` is the same suffix choice as `Followers.FormatFollowers`.
 * The icons and the layout are not modelled.
 */
module InfluencerCard {
  import opened Wrappers
  import opened Seqs
  import opened Strings
  import opened Accounts
  import opened Followers

  /** `getTotalFollowers`: 0 without a platform list, else the sum of the platforms' followers. */
  function GetTotalFollowers(platforms: Option<seq<PlatformEntry>>): int {
    match platforms
    case None => 0
    case Some(ps) => Sum(Map(ps, FollowersOfEntry))
  }

  /** The label beside the people icon: the total, formatted. */
  function TotalLabel(platforms: Option<seq<PlatformEntry>>): FollowerLabel {
    FormatFollowers(GetTotalFollowers(platforms))
  }

  /** The label on a platform's chip: its own count, formatted. */
  function ChipLabel(entry: PlatformEntry): FollowerLabel {
    FormatFollowers(entry.followers)
  }

  /** `getPlatformColor`: a colour class per known platform, whatever its case; grey for any other. */
  function PlatformColor(platform: string): (r: string)
    ensures r != "bg-gray-500" ==> ToLower(platform) in {"instagram", "youtube", "tiktok", "twitter", "facebook", "linkedin", "twitch", "pinterest"}
  {
    var key := ToLower(platform);
    if key == "instagram" then "bg-pink-500"
    else if key == "youtube" then "bg-red-600"
    else if key == "tiktok" then "bg-black"
    else if key == "twitter" then "bg-blue-400"
    else if key == "facebook" then "bg-blue-600"
    else if key == "linkedin" then "bg-blue-700"
    else if key == "twitch" then "bg-purple-600"
    else if key == "pinterest" then "bg-red-500"
    else "bg-gray-500"
  }

  /** The niche badges: the first three niches, and the count on the "+N more" badge when there is one. */
  datatype NicheBadges = NicheBadges(shown: seq<string>, more: Option<nat>)

  function NicheBadgesOf(niches: Option<seq<string>>): NicheBadges {
    var all := niches.GetOr([]);
    NicheBadges(if |all| <= 3 then all else all[..3], if |all| > 3 then Some(|all| - 3) else None)
  }
}

/** What the card's computations promise. */
module InfluencerCardFacts {
  import opened Wrappers
  import opened Seqs
  import opened Strings
  import opened Accounts
  import opened Numbers
  import opened Followers
  import opened InfluencerCard

  /** Adding a platform adds its followers to the total. */
  lemma TotalOfMore(ps: seq<PlatformEntry>, extra: seq<PlatformEntry>)
    ensures GetTotalFollowers(Some(ps + extra)) == GetTotalFollowers(Some(ps)) + GetTotalFollowers(Some(extra))
  {
    MapConcat(ps, extra, FollowersOfEntry);
    SumConcat(Map(ps, FollowersOfEntry), Map(extra, FollowersOfEntry));
  }

  /** With no negative counts, the total is at least every platform's own count. */
  lemma {:induction false} TotalAtLeastEach(ps: seq<PlatformEntry>, i: nat)
    requires i < |ps|
    requires forall k :: 0 <= k < |ps| ==> ps[k].followers >= 0
    ensures GetTotalFollowers(Some(ps)) >= ps[i].followers
    decreases |ps|
  {
    var init := ps[..|ps| - 1];
    assert init + [ps[|ps| - 1]] == ps;
    TotalOfMore(init, [ps[|ps| - 1]]);
    var lastOnly := [ps[|ps| - 1]];
    assert Map(lastOnly, FollowersOfEntry) == [ps[|ps| - 1].followers];
    assert Sum([ps[|ps| - 1].followers]) == Sum([]) + ps[|ps| - 1].followers;
    assert GetTotalFollowers(Some(lastOnly)) == ps[|ps| - 1].followers;
    assert forall k :: 0 <= k < |init| ==> init[k].followers >= 0 by {
      forall k | 0 <= k < |init|
        ensures init[k].followers >= 0
      {
        assert init[k] == ps[k];
      }
    }
    TotalNonNegative(init);
    if i < |ps| - 1 {
      TotalAtLeastEach(init, i);
    }
  }

  /** With no negative counts, the total is not negative. */
  lemma {:induction false} TotalNonNegative(ps: seq<PlatformEntry>)
    requires forall k :: 0 <= k < |ps| ==> ps[k].followers >= 0
    ensures GetTotalFollowers(Some(ps)) >= 0
    decreases |ps|
  {
    if ps != [] {
      var init := ps[..|ps| - 1];
      TotalNonNegative(init);
      assert Map(ps, FollowersOfEntry)[..|ps| - 1] == Map(init, FollowersOfEntry);
    }
  }

  /** The colour does not depend on the platform name's case. */
  lemma ColorIgnoresCase(platform: string)
    ensures PlatformColor(ToLower(platform)) == PlatformColor(platform)
  {
    ToLowerIdempotent(platform);
  }

  /** At most three badges, the leading niches in order, and "+N more" exactly when N = length - 3 niches are hidden. */
  lemma NicheBadgeFacts(niches: Option<seq<string>>)
    ensures var b := NicheBadgesOf(niches);
      var all := niches.GetOr([]);
      |b.shown| <= 3 && b.shown == all[..|b.shown|]
      && (b.more.Some? <==> |all| > 3)
      && |b.shown| + b.more.GetOr(0) == |all|
  {
  }

  /**
   * With no negative counts, the total's label is never below a chip's: when a chip reads "M" the total does,
   * and when a chip reads "K" or "M" the total is not plain. A card without platforms reads "0".
   */
  lemma TotalLabelDominates(ps: seq<PlatformEntry>, i: nat)
    requires i < |ps|
    requires forall k :: 0 <= k < |ps| ==> ps[k].followers >= 0
    ensures ChipLabel(ps[i]) == Millions ==> TotalLabel(Some(ps)) == Millions
    ensures !ChipLabel(ps[i]).Plain? ==> !TotalLabel(Some(ps)).Plain?
    ensures TotalLabel(None) == Plain("0")
  {
    TotalAtLeastEach(ps, i);
    assert IntToString(0) == "0";
  }
}
