/**
 * The influencer dashboard (`components/dashboard/InfluencerDashboard.tsx`): the earnings
 * total over the fixed earnings data, the pending and completed counts, the list of open
 * opportunities and their description previews. Campaigns and collaborations are the
 * business dashboard's records; the query results arrive as values, `None` while absent.
 */
module InfluencerDashboard {
  import opened Wrappers
  import opened Seqs
  import opened Strings
  import opened BusinessDashboard

  /** One month of the earnings chart. */
  datatype EarningsEntry = EarningsEntry(month: string, earnings: int)

  /** `mockEarningsData`. */
  const MockEarnings: seq<EarningsEntry> := [
    EarningsEntry("Jan", 1200), EarningsEntry("Feb", 1800), EarningsEntry("Mar", 1500),
    EarningsEntry("Apr", 2200), EarningsEntry("May", 2800), EarningsEntry("Jun", 3200)]

  function EarningsOf(entry: EarningsEntry): int {
    entry.earnings
  }

  /** `getTotalEarnings`: the `reduce` over the entries, from 0. */
  function TotalEarnings(entries: seq<EarningsEntry>): int {
    Sum(Map(entries, EarningsOf))
  }

  /** `getPendingCollaborations`. */
  function PendingCount(collaborations: Option<seq<Collaboration>>): nat {
    CollaborationCount(collaborations, "pending")
  }

  /** `getCompletedCollaborations`. */
  function CompletedCount(collaborations: Option<seq<Collaboration>>): nat {
    CollaborationCount(collaborations, "completed")
  }

  /** The opportunities tab lists the active campaigns, in their order. */
  function Opportunities(campaigns: Option<seq<Campaign>>): seq<Campaign> {
    match campaigns
    case None => []
    case Some(cs) => Keep(cs, CampaignHasStatus("active"))
  }

  /** The grid is shown, rather than the empty state, when there is an active campaign. */
  predicate ShowsOpportunityGrid(campaigns: Option<seq<Campaign>>) {
    campaigns.Some? && |Opportunities(campaigns)| > 0
  }

  /** The card's description: cut to 100 characters and marked with "..." when longer. */
  function DescriptionPreview(description: string): string {
    Truncate(description, 100)
  }
}

/** What the influencer dashboard's figures promise. */
module InfluencerDashboardFacts {
  import opened Wrappers
  import opened Seqs
  import opened Strings
  import opened BusinessDashboard
  import opened InfluencerDashboard

  /** The fixed six months total 12700. */
  lemma MockTotal()
    ensures TotalEarnings(MockEarnings) == 12700
  {
    var e := Map(MockEarnings, EarningsOf);
    assert e == [1200, 1800, 1500, 2200, 2800, 3200];
    assert Sum([1200]) == 1200 by { assert [1200][..0] == []; }
    assert Sum([1200, 1800]) == 3000 by { assert [1200, 1800][..1] == [1200]; }
    assert Sum([1200, 1800, 1500]) == 4500 by { assert [1200, 1800, 1500][..2] == [1200, 1800]; }
    assert Sum([1200, 1800, 1500, 2200]) == 6700 by { assert [1200, 1800, 1500, 2200][..3] == [1200, 1800, 1500]; }
    assert Sum([1200, 1800, 1500, 2200, 2800]) == 9500 by { assert [1200, 1800, 1500, 2200, 2800][..4] == [1200, 1800, 1500, 2200]; }
    assert e[..5] == [1200, 1800, 1500, 2200, 2800];
  }

  /** The total of two runs of months is the sum of their totals, and no earnings total 0. */
  lemma TotalEarningsSplit(a: seq<EarningsEntry>, b: seq<EarningsEntry>)
    ensures TotalEarnings(a + b) == TotalEarnings(a) + TotalEarnings(b)
    ensures TotalEarnings([]) == 0
  {
    MapConcat(a, b, EarningsOf);
    SumConcat(Map(a, EarningsOf), Map(b, EarningsOf));
  }

  /** Both counts are 0 without data; together they never exceed the number of collaborations. */
  lemma CountsBounded(collaborations: Option<seq<Collaboration>>)
    ensures collaborations.None? ==> PendingCount(collaborations) == 0 && CompletedCount(collaborations) == 0
    ensures collaborations.Some? ==> PendingCount(collaborations) + CompletedCount(collaborations) <= |collaborations.value|
  {
    if collaborations.Some? {
      var cs := collaborations.value;
      var pending := CollaborationHasStatus("pending");
      var completed := CollaborationHasStatus("completed");
      var either := (c: Collaboration) => c.status == "pending" || c.status == "completed";
      CountDisjoint(cs, pending, completed, either);
    }
  }

  /** For the same collaborations, the two cards show the business chart's Pending and Completed slices. */
  lemma CountsMatchBusinessChart(collaborations: Option<seq<Collaboration>>)
    ensures PendingCount(collaborations) == CollaborationStatusData(collaborations)[0].value
    ensures CompletedCount(collaborations) == CollaborationStatusData(collaborations)[3].value
  {
  }

  /** The opportunities are the active campaigns: in order, each one active, and every active campaign listed. */
  lemma OpportunitiesFacts(campaigns: seq<Campaign>)
    ensures IsSubsequence(Opportunities(Some(campaigns)), campaigns)
    ensures forall i :: 0 <= i < |Opportunities(Some(campaigns))| ==> Opportunities(Some(campaigns))[i].status == "active"
    ensures forall c :: c in Opportunities(Some(campaigns)) <==> c in campaigns && c.status == "active"
    ensures |Opportunities(Some(campaigns))| == CampaignStatusData(Some(campaigns))[0].value
  {
    var active := CampaignHasStatus("active");
    KeepIsSubsequence(campaigns, active);
    KeepMembers(campaigns, active);
  }

  /** The grid appears exactly when some loaded campaign is active. */
  lemma GridShownIff(campaigns: Option<seq<Campaign>>)
    ensures ShowsOpportunityGrid(campaigns) <==>
      campaigns.Some? && exists i :: 0 <= i < |campaigns.value| && campaigns.value[i].status == "active"
  {
    if campaigns.Some? {
      var cs := campaigns.value;
      var active := CampaignHasStatus("active");
      KeepMembers(cs, active);
      if |Opportunities(campaigns)| > 0 {
        assert Opportunities(campaigns)[0] in cs;
      }
      if i :| 0 <= i < |cs| && cs[i].status == "active" {
        assert cs[i] in Opportunities(campaigns);
      }
    }
  }

  /** Accept and Reject appear on exactly as many rows as the Pending Requests card counts. */
  lemma ActionsMatchPendingCard(collaborations: seq<Collaboration>)
    ensures Count(collaborations, (c: Collaboration) => ShowsActions(c.status)) == PendingCount(Some(collaborations))
  {
    KeepAgree(collaborations, (c: Collaboration) => ShowsActions(c.status), CollaborationHasStatus("pending"));
  }

  /** A description of at most 100 characters is shown whole; a longer one as its first 100 characters and "...". */
  lemma PreviewFacts(description: string)
    ensures |description| <= 100 ==> DescriptionPreview(description) == description
    ensures |description| > 100 ==> DescriptionPreview(description) == description[..100] + "..."
    ensures |DescriptionPreview(description)| <= 103
  {
  }

  /** Previewing a preview changes nothing. */
  lemma PreviewIdempotent(description: string)
    ensures DescriptionPreview(DescriptionPreview(description)) == DescriptionPreview(description)
  {
    if |description| > 100 {
      var p := description[..100] + "...";
      assert p[..100] == description[..100];
    }
  }
}
