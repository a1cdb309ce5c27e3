/**
 * The business dashboard (`components/dashboard/BusinessDashboard.tsx`): the campaign form's
 * schema, the status counts behind the two pie charts, the campaign title shown for each
 * collaboration, the badge and action rules of the two tables, and the chart colours.
 * Queries and mutations are not modelled: the lists arrive as values, `None` while absent.
 */
module BusinessDashboard {
  import opened Wrappers
  import opened Seqs
  import opened Numbers

  /** A campaign as the dashboard reads it. */
  datatype Campaign = Campaign(id: int, title: string, description: string, budget: int, status: string)

  /** A collaboration request; `campaignId` is `None` for a direct request. */
  datatype Collaboration = Collaboration(id: int, campaignId: Option<int>, influencerId: int, status: string)

  /** The statuses `z.enum(["draft", "active", "completed"])` admits. */
  predicate IsCampaignStatus(status: string) {
    status == "draft" || status == "active" || status == "completed"
  }

  /** The statuses the collaboration chart counts. */
  predicate IsCollaborationStatus(status: string) {
    status == "pending" || status == "accepted" || status == "rejected" || status == "completed"
  }

  /** The create-campaign form's values; a budget `parseInt` could not read is `None` (NaN). */
  datatype CampaignForm = CampaignForm(title: string, description: string, budget: Option<int>, requirements: string, status: string)

  /** `defaultValues` of the form. */
  const DefaultForm := CampaignForm("", "", Some(0), "", "draft")

  /** The budget input: `parseInt(e.target.value)`. */
  function BudgetInput(text: string): Option<int> {
    ParseInt(text)
  }

  /** The schema's messages, one per failed rule. */
  datatype CampaignError = TitleTooShort | DescriptionTooShort | BudgetTooSmall | UnknownStatus

  function Check(ok: bool, error: CampaignError): seq<CampaignError> {
    if ok then [] else [error]
  }

  /** `campaignSchema`: the rules the form fails, in field order. NaN fails `z.number()`. */
  function CampaignErrors(form: CampaignForm): seq<CampaignError> {
    Check(|form.title| >= 3, TitleTooShort)
    + Check(|form.description| >= 10, DescriptionTooShort)
    + Check(form.budget.Some? && form.budget.value >= 1, BudgetTooSmall)
    + Check(IsCampaignStatus(form.status), UnknownStatus)
  }

  predicate CampaignValid(form: CampaignForm) {
    CampaignErrors(form) == []
  }

  function CampaignHasStatus(status: string): Campaign -> bool {
    (c: Campaign) => c.status == status
  }

  function CollaborationHasStatus(status: string): Collaboration -> bool {
    (c: Collaboration) => c.status == status
  }

  /** `campaigns?.filter((c) => c.status === status).length || 0`. */
  function CampaignCount(campaigns: Option<seq<Campaign>>, status: string): nat {
    match campaigns
    case None => 0
    case Some(cs) => Count(cs, CampaignHasStatus(status))
  }

  /** `collaborations?.filter((c) => c.status === status).length || 0`. */
  function CollaborationCount(collaborations: Option<seq<Collaboration>>, status: string): nat {
    match collaborations
    case None => 0
    case Some(cs) => Count(cs, CollaborationHasStatus(status))
  }

  /** One slice of a pie chart. */
  datatype StatusSlice = StatusSlice(name: string, value: nat)

  /** `campaignStatusData`. */
  function CampaignStatusData(campaigns: Option<seq<Campaign>>): (r: seq<StatusSlice>)
    ensures |r| == 3
  {
    [StatusSlice("Active", CampaignCount(campaigns, "active")),
     StatusSlice("Draft", CampaignCount(campaigns, "draft")),
     StatusSlice("Completed", CampaignCount(campaigns, "completed"))]
  }

  /** `collaborationStatusData`. */
  function CollaborationStatusData(collaborations: Option<seq<Collaboration>>): (r: seq<StatusSlice>)
    ensures |r| == 4
  {
    [StatusSlice("Pending", CollaborationCount(collaborations, "pending")),
     StatusSlice("Accepted", CollaborationCount(collaborations, "accepted")),
     StatusSlice("Rejected", CollaborationCount(collaborations, "rejected")),
     StatusSlice("Completed", CollaborationCount(collaborations, "completed"))]
  }

  function HasId(campaignId: Option<int>): Campaign -> bool {
    (c: Campaign) => Some(c.id) == campaignId
  }

  /** `campaigns?.find(c => c.id === collab.campaignId)?.title || "Direct Request"`. */
  function CampaignTitle(campaigns: Option<seq<Campaign>>, campaignId: Option<int>): string {
    match campaigns
    case None => "Direct Request"
    case Some(cs) =>
      var i := FirstIndex(cs, HasId(campaignId));
      if i < |cs| && cs[i].title != "" then cs[i].title else "Direct Request"
  }

  /** The badge variants the tables use. */
  datatype BadgeVariant = Default | Secondary | Success | Destructive

  /** The campaign table's badge. */
  function CampaignVariant(status: string): BadgeVariant {
    if status == "active" then Default
    else if status == "completed" then Success
    else Secondary
  }

  /** The collaboration table's badge. */
  function CollaborationVariant(status: string): BadgeVariant {
    if status == "accepted" then Default
    else if status == "rejected" then Destructive
    else if status == "completed" then Success
    else Secondary
  }

  /** The Accept and Reject buttons are rendered for a row in this status. */
  predicate ShowsActions(status: string) {
    status == "pending"
  }

  const Colors: seq<string> := ["#3b82f6", "#8b5cf6", "#f97316", "#10b981"]

  /** `COLORS[index % COLORS.length]`. */
  function ChartColor(index: nat): string {
    Colors[index % |Colors|]
  }
}

/** What the dashboard's rules promise. */
module BusinessDashboardFacts {
  import opened Wrappers
  import opened Seqs
  import opened Strings
  import opened Numbers
  import opened BusinessDashboard

  /** The schema accepts exactly the forms that meet all four rules. */
  lemma CampaignValidIff(form: CampaignForm)
    ensures CampaignValid(form) <==>
      |form.title| >= 3 && |form.description| >= 10
      && form.budget.Some? && form.budget.value >= 1
      && IsCampaignStatus(form.status)
  {
  }

  /** Each rule reports its own error, and only when it fails. */
  lemma CampaignErrorsFacts(form: CampaignForm)
    ensures TitleTooShort in CampaignErrors(form) <==> |form.title| < 3
    ensures DescriptionTooShort in CampaignErrors(form) <==> |form.description| < 10
    ensures BudgetTooSmall in CampaignErrors(form) <==> form.budget.None? || form.budget.value < 1
    ensures UnknownStatus in CampaignErrors(form) <==> !IsCampaignStatus(form.status)
  {
  }

  /** The untouched form fails on the title, the description and the budget, but not the status. */
  lemma DefaultFormErrors()
    ensures CampaignErrors(DefaultForm) == [TitleTooShort, DescriptionTooShort, BudgetTooSmall]
  {
  }

  /** A budget typed as a whole number reads as that number; a text without digits is NaN. */
  lemma BudgetInputFacts(text: string, n: int)
    ensures BudgetInput(IntToString(n)) == Some(n)
    ensures (forall i :: 0 <= i < |text| ==> !IsDigit(text[i])) ==> BudgetInput(text).None?
  {
    ParseIntOfIntToString(n);
    if forall i :: 0 <= i < |text| ==> !IsDigit(text[i]) {
      ParseIntNeedsDigit(text);
    }
  }

  /** Without data every slice is 0. */
  lemma AbsentDataCountsZero()
    ensures forall k :: 0 <= k < 3 ==> CampaignStatusData(None)[k].value == 0
    ensures forall k :: 0 <= k < 4 ==> CollaborationStatusData(None)[k].value == 0
  {
  }

  /** The campaign slices add up to at most the number of campaigns, and to all of them exactly when every status is one the schema admits. */
  lemma CampaignCountsCover(campaigns: seq<Campaign>)
    ensures var d := CampaignStatusData(Some(campaigns));
      d[0].value + d[1].value + d[2].value <= |campaigns|
      && (d[0].value + d[1].value + d[2].value == |campaigns| <==>
            forall i :: 0 <= i < |campaigns| ==> IsCampaignStatus(campaigns[i].status))
  {
    var active := CampaignHasStatus("active");
    var draft := CampaignHasStatus("draft");
    var completed := CampaignHasStatus("completed");
    var activeOrDraft := (c: Campaign) => c.status == "active" || c.status == "draft";
    var known := (c: Campaign) => IsCampaignStatus(c.status);
    CountDisjoint(campaigns, active, draft, activeOrDraft);
    CountDisjoint(campaigns, activeOrDraft, completed, known);
    CountAll(campaigns, known);
  }

  /** The same holds for the four collaboration slices. */
  lemma CollaborationCountsCover(collaborations: seq<Collaboration>)
    ensures var d := CollaborationStatusData(Some(collaborations));
      d[0].value + d[1].value + d[2].value + d[3].value <= |collaborations|
      && (d[0].value + d[1].value + d[2].value + d[3].value == |collaborations| <==>
            forall i :: 0 <= i < |collaborations| ==> IsCollaborationStatus(collaborations[i].status))
  {
    var pending := CollaborationHasStatus("pending");
    var accepted := CollaborationHasStatus("accepted");
    var rejected := CollaborationHasStatus("rejected");
    var completed := CollaborationHasStatus("completed");
    var two := (c: Collaboration) => c.status == "pending" || c.status == "accepted";
    var three := (c: Collaboration) => c.status == "pending" || c.status == "accepted" || c.status == "rejected";
    var known := (c: Collaboration) => IsCollaborationStatus(c.status);
    CountDisjoint(collaborations, pending, accepted, two);
    CountDisjoint(collaborations, two, rejected, three);
    CountDisjoint(collaborations, three, completed, known);
    CountAll(collaborations, known);
  }

  /** A direct request, or a campaign id no listed campaign has, shows "Direct Request". */
  lemma UnmatchedTitle(campaigns: Option<seq<Campaign>>, campaignId: Option<int>)
    requires campaigns.Some? ==> forall i :: 0 <= i < |campaigns.value| ==> Some(campaigns.value[i].id) != campaignId
    ensures CampaignTitle(campaigns, campaignId) == "Direct Request"
  {
    if campaigns.Some? {
      var cs := campaigns.value;
      var i := FirstIndex(cs, HasId(campaignId));
    }
  }

  /** With `i` the first campaign carrying the id, the title is its title, or "Direct Request" when that is empty. */
  lemma MatchedTitle(campaigns: seq<Campaign>, campaignId: Option<int>, i: nat)
    requires i < |campaigns| && Some(campaigns[i].id) == campaignId
    requires forall j :: 0 <= j < i ==> Some(campaigns[j].id) != campaignId
    ensures CampaignTitle(Some(campaigns), campaignId) == if campaigns[i].title == "" then "Direct Request" else campaigns[i].title
  {
    var k := FirstIndex(campaigns, HasId(campaignId));
    assert HasId(campaignId)(campaigns[i]);
  }

  /** A shown title other than "Direct Request" is the title of the first campaign with the id. */
  lemma TitleSource(campaigns: Option<seq<Campaign>>, campaignId: Option<int>)
    ensures var t := CampaignTitle(campaigns, campaignId);
      t != "Direct Request" ==>
        campaigns.Some? && (exists i :: 0 <= i < |campaigns.value| && campaigns.value[i].title == t
                              && Some(campaigns.value[i].id) == campaignId
                              && (forall j :: 0 <= j < i ==> Some(campaigns.value[j].id) != campaignId))
  {
    if campaigns.Some? {
      var cs := campaigns.value;
      var i := FirstIndex(cs, HasId(campaignId));
      if i < |cs| && cs[i].title != "" {
        assert HasId(campaignId)(cs[i]);
        forall j | 0 <= j < i
          ensures Some(cs[j].id) != campaignId
        {
          assert !HasId(campaignId)(cs[j]);
        }
      }
    }
  }

  /** The badges of the campaign table agree with the chart: default for Active, success for Completed, secondary for the rest. */
  lemma CampaignBadgesMatchChart(campaigns: seq<Campaign>)
    ensures var d := CampaignStatusData(Some(campaigns));
      Count(campaigns, (c: Campaign) => CampaignVariant(c.status) == Default) == d[0].value
      && Count(campaigns, (c: Campaign) => CampaignVariant(c.status) == Success) == d[2].value
      && Count(campaigns, (c: Campaign) => CampaignVariant(c.status) == Secondary) == |campaigns| - d[0].value - d[2].value
  {
    var isDefault := (c: Campaign) => CampaignVariant(c.status) == Default;
    var isSuccess := (c: Campaign) => CampaignVariant(c.status) == Success;
    var isSecondary := (c: Campaign) => CampaignVariant(c.status) == Secondary;
    var notSecondary := (c: Campaign) => isDefault(c) || isSuccess(c);
    var any := (c: Campaign) => notSecondary(c) || isSecondary(c);
    KeepAgree(campaigns, isDefault, CampaignHasStatus("active"));
    KeepAgree(campaigns, isSuccess, CampaignHasStatus("completed"));
    CountDisjoint(campaigns, isDefault, isSuccess, notSecondary);
    CountDisjoint(campaigns, notSecondary, isSecondary, any);
    CountAll(campaigns, any);
  }

  /** The collaboration table shows Accept and Reject on exactly the rows the Pending slice counts, and each such row has a secondary badge. */
  lemma ActionsMatchPending(collaborations: seq<Collaboration>)
    ensures Count(collaborations, (c: Collaboration) => ShowsActions(c.status)) == CollaborationStatusData(Some(collaborations))[0].value
    ensures forall i :: 0 <= i < |collaborations| && ShowsActions(collaborations[i].status) ==>
      CollaborationVariant(collaborations[i].status) == Secondary
  {
    KeepAgree(collaborations, (c: Collaboration) => ShowsActions(c.status), CollaborationHasStatus("pending"));
  }

  /** The collaboration badges agree with the Accepted, Rejected and Completed slices. */
  lemma CollaborationBadgesMatchChart(collaborations: seq<Collaboration>)
    ensures var d := CollaborationStatusData(Some(collaborations));
      Count(collaborations, (c: Collaboration) => CollaborationVariant(c.status) == Default) == d[1].value
      && Count(collaborations, (c: Collaboration) => CollaborationVariant(c.status) == Destructive) == d[2].value
      && Count(collaborations, (c: Collaboration) => CollaborationVariant(c.status) == Success) == d[3].value
  {
    KeepAgree(collaborations, (c: Collaboration) => CollaborationVariant(c.status) == Default, CollaborationHasStatus("accepted"));
    KeepAgree(collaborations, (c: Collaboration) => CollaborationVariant(c.status) == Destructive, CollaborationHasStatus("rejected"));
    KeepAgree(collaborations, (c: Collaboration) => CollaborationVariant(c.status) == Success, CollaborationHasStatus("completed"));
  }

  /** The colours repeat every four slices, and the four slices of one chart all differ. */
  lemma ChartColorsCycle(index: nat)
    ensures ChartColor(index + 4) == ChartColor(index)
    ensures ChartColor(index) in Colors
    ensures forall i, j :: 0 <= i < j < 4 ==> ChartColor(i) != ChartColor(j)
  {
  }
}
