/** The platform accounts an influencer profile lists: the rows of the profile form and of the card. */
module Accounts {
  /** One platform row: `{ platform, handle, followers }`. */
  datatype PlatformEntry = PlatformEntry(platform: string, handle: string, followers: int)

  /** The row "Add Platform" appends: `{ platform: "", handle: "", followers: 0 }`. */
  const EmptyEntry := PlatformEntry("", "", 0)

  function FollowersOfEntry(entry: PlatformEntry): int {
    entry.followers
  }
}
