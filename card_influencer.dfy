/**
 * The explore card: the id offset that keeps the four platforms' ids apart, the image and
 * profile link built from it, and the follower label.
 */
module CardInfluencer {
  import opened Wrappers
  import opened Strings
  import opened Numbers
  import opened Followers

  /** The image address seeded with `seed`, shared by the explore records, the card and the profile page. */
  function ImageUrl(seed: int): string {
    "https://picsum.photos/seed/" + IntToString(seed) + "/200"
  }

  /** The offset of a lower-cased, trimmed platform name: 0, 1000, 2000, 3000 for the four platforms, 0 otherwise. */
  function PlatformOffset(key: string): (r: int)
    ensures r == 0 || r == 1000 || r == 2000 || r == 3000
  {
    if key == "instagram" then 0
    else if key == "threads" then 1000
    else if key == "tiktok" then 2000
    else if key == "youtube" then 3000
    else 0
  }

  /** `getOffsetId`. */
  function GetOffsetId(platform: string, id: int): int {
    id + PlatformOffset(LowerTrimmed(platform))
  }

  /** What the card is given. `followers` is `None` for NaN. */
  datatype CardProps = CardProps(name: string, tags: string, platform: string, followers: Option<int>, image: string, id: int)

  /** The query of the "View Profile" link: its `id` and `platform` parameters. */
  datatype ProfileLink = ProfileLink(id: string, platform: string)

  /** What the card shows. The `image` it is given is not used. */
  datatype CardView = CardView(imageUrl: string, name: string, tags: string, platform: string, followers: FollowerLabel, link: ProfileLink)

  /** `formatFollowers` on a number that may be NaN, which prints as "NaN". */
  function FollowersLabel(followers: Option<int>): FollowerLabel {
    match followers
    case None => Plain("NaN")
    case Some(n) => FormatFollowers(n)
  }

  function RenderCard(props: CardProps): CardView {
    var offsetId := GetOffsetId(props.platform, props.id);
    CardView(
      ImageUrl(offsetId),
      props.name,
      props.tags,
      props.platform,
      FollowersLabel(props.followers),
      ProfileLink(IntToString(offsetId), props.platform))
  }

  /** The offsets of the four platforms, and 0 for any other name. */
  lemma OffsetTable(platform: string, id: int)
    ensures LowerTrimmed(platform) == "instagram" ==> GetOffsetId(platform, id) == id
    ensures LowerTrimmed(platform) == "threads" ==> GetOffsetId(platform, id) == id + 1000
    ensures LowerTrimmed(platform) == "tiktok" ==> GetOffsetId(platform, id) == id + 2000
    ensures LowerTrimmed(platform) == "youtube" ==> GetOffsetId(platform, id) == id + 3000
    ensures LowerTrimmed(platform) !in {"instagram", "threads", "tiktok", "youtube"} ==> GetOffsetId(platform, id) == id
  {
  }

  /** The platform match ignores case and the whitespace around the name. */
  lemma OffsetIgnoresCaseAndSpace(platform: string, id: int)
    ensures GetOffsetId(ToLower(platform), id) == GetOffsetId(platform, id)
    ensures GetOffsetId(Trim(platform), id) == GetOffsetId(platform, id)
  {
    LowerTrimmedStable(platform);
    SameKeySameOffset(ToLower(platform), platform, id);
    SameKeySameOffset(Trim(platform), platform, id);
  }

  lemma SameKeySameOffset(p: string, q: string, id: int)
    requires LowerTrimmed(p) == LowerTrimmed(q)
    ensures GetOffsetId(p, id) == GetOffsetId(q, id)
  {
  }

  /** For a fixed platform, different ids get different offset ids. */
  lemma OffsetInjective(platform: string, id1: int, id2: int)
    requires GetOffsetId(platform, id1) == GetOffsetId(platform, id2)
    ensures id1 == id2
  {
  }

  /** The four platforms' offset id ranges are disjoint while each base id lies in 1..1000. */
  lemma OffsetsApartUnderBound(p1: string, id1: int, p2: string, id2: int)
    requires LowerTrimmed(p1) in {"instagram", "threads", "tiktok", "youtube"}
    requires LowerTrimmed(p2) in {"instagram", "threads", "tiktok", "youtube"}
    requires 1 <= id1 <= 1000 && 1 <= id2 <= 1000
    requires GetOffsetId(p1, id1) == GetOffsetId(p2, id2)
    ensures LowerTrimmed(p1) == LowerTrimmed(p2) && id1 == id2
  {
  }

  /** Without the bound ids collide: threads row 1 and instagram row 1001 share the offset id 1001. */
  lemma OffsetsCollideBeyondBound(p1: string, p2: string)
    requires LowerTrimmed(p1) == "threads" && LowerTrimmed(p2) == "instagram"
    ensures GetOffsetId(p1, 1) == GetOffsetId(p2, 1001)
  {
  }

  /** The image seed and the link's id are both the offset id, and the link's id reads back as it. */
  lemma CardUsesOffsetId(props: CardProps)
    ensures var card := RenderCard(props);
      card.imageUrl == ImageUrl(GetOffsetId(props.platform, props.id))
      && ParseInt(card.link.id) == Some(GetOffsetId(props.platform, props.id))
      && card.link.platform == props.platform
  {
    ParseIntOfIntToString(GetOffsetId(props.platform, props.id));
  }

  /** The card's label: M from 1,000,000, K from 1000, the plain number below — which reads back as the count. */
  lemma CardFollowerLabel(props: CardProps, n: int)
    requires props.followers == Some(n)
    ensures RenderCard(props).followers == Millions <==> n >= 1000000
    ensures RenderCard(props).followers == Thousands <==> 1000 <= n < 1000000
    ensures RenderCard(props).followers.Plain? ==> n < 1000 && ParseInt(RenderCard(props).followers.text) == Some(n)
  {
  }
}
