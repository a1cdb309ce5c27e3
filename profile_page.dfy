/**
 * The profile editor (`pages/profile-page.tsx`): the influencer's platform rows, the
 * business's social links and the niche checkboxes, each kept both in page state and in
 * the form's values, and the schemas the form is validated against. Submitting, the
 * server request and the layout are not modelled.
 */
module ProfilePage {
  import opened Wrappers
  import opened Seqs
  import opened Numbers
  import opened Accounts

  /** The rows after `addPlatformField`. */
  function AddRow(rows: seq<PlatformEntry>): (r: seq<PlatformEntry>)
    ensures |r| == |rows| + 1 && r[..|rows|] == rows && r[|rows|] == EmptyEntry
  {
    rows + [EmptyEntry]
  }

  /** `splice(index, 1)` on a copy: row `index` is gone; an index past the end removes nothing. */
  function RemoveRow(rows: seq<PlatformEntry>, index: nat): seq<PlatformEntry> {
    if index < |rows| then rows[..index] + rows[index + 1..] else rows
  }

  /** The field an input changes, with its new value. */
  datatype FieldChange = SetPlatform(platform: string) | SetHandle(handle: string) | SetFollowers(followers: int)

  /** `{ ...row, [field]: value }`. */
  function ChangeField(row: PlatformEntry, change: FieldChange): PlatformEntry {
    match change
    case SetPlatform(p) => row.(platform := p)
    case SetHandle(h) => row.(handle := h)
    case SetFollowers(n) => row.(followers := n)
  }

  /** The rows after `updatePlatformField(index, field, value)`. */
  function UpdateRow(rows: seq<PlatformEntry>, index: nat, change: FieldChange): seq<PlatformEntry>
    requires index < |rows|
  {
    rows[index := ChangeField(rows[index], change)]
  }

  /** The followers input: `parseInt(text) || 0`. */
  function FollowersInput(text: string): int {
    match ParseInt(text)
    case None => 0
    case Some(n) => n
  }

  /** The remove button is shown only while there is more than one row. */
  predicate CanRemove(rows: seq<PlatformEntry>) {
    |rows| > 1
  }

  function NotNiche(niche: string): string -> bool {
    n => n != niche
  }

  /** A niche checkbox: checking appends the niche, unchecking drops every copy of it. */
  function ToggleNiche(niches: seq<string>, niche: string, checked: bool): seq<string> {
    if checked then niches + [niche] else Keep(niches, NotNiche(niche))
  }

  /** The rows the page starts with: the influencer's own platforms, or one empty row. */
  function InitialRows(isInfluencer: bool, userPlatforms: Option<seq<PlatformEntry>>): seq<PlatformEntry> {
    if isInfluencer && userPlatforms.Some? then userPlatforms.value else [EmptyEntry]
  }

  /** The links the page starts with: the business's own links, or the four empty defaults. */
  function InitialLinks(isBusiness: bool, userLinks: Option<map<string, string>>): map<string, string> {
    if isBusiness && userLinks.Some? then userLinks.value
    else map["website" := "", "instagram" := "", "twitter" := "", "linkedin" := ""]
  }

  /** The page state and the form values that mirror it. */
  class ProfileEditor {
    const isBusiness: bool
    var platformFields: seq<PlatformEntry>
    var socialLinks: map<string, string>
    /** `form.getValues("influencerProfile.platforms") || []`. */
    var formPlatforms: seq<PlatformEntry>
    /** `form.getValues("businessProfile.socialLinks")`, `None` while the form has no business part. */
    var formSocialLinks: Option<map<string, string>>
    /** `form.getValues("influencerProfile.niches") || []`. */
    var formNiches: seq<string>

    /** The form mirrors the rows of an influencer and the links of a business. */
    predicate Synced()
      reads this
    {
      (!isBusiness ==> formPlatforms == platformFields) && (isBusiness ==> formSocialLinks == Some(socialLinks))
    }

    /** The page for a user: the business form or the influencer form, with the user's saved values. */
    constructor (business: bool, userPlatforms: Option<seq<PlatformEntry>>, userLinks: Option<map<string, string>>,
                 userNiches: Option<seq<string>>)
      ensures isBusiness == business
      ensures platformFields == InitialRows(!business, userPlatforms)
      ensures socialLinks == InitialLinks(business, userLinks)
      ensures formPlatforms == (if business then [] else platformFields)
      ensures formSocialLinks == (if business then Some(socialLinks) else None)
      ensures formNiches == (if business then [] else userNiches.GetOr([]))
      ensures Synced()
    {
      isBusiness := business;
      platformFields := InitialRows(!business, userPlatforms);
      socialLinks := InitialLinks(business, userLinks);
      formPlatforms := if business then [] else InitialRows(!business, userPlatforms);
      formSocialLinks := if business then Some(InitialLinks(business, userLinks)) else None;
      formNiches := if business then [] else userNiches.GetOr([]);
    }

    /** `addPlatformField`: an empty row at the end of the rows and of the form's rows. */
    method AddPlatformField()
      modifies this
      ensures platformFields == AddRow(old(platformFields))
      ensures formPlatforms == AddRow(old(formPlatforms))
      ensures socialLinks == old(socialLinks) && formSocialLinks == old(formSocialLinks) && formNiches == old(formNiches)
      ensures old(Synced()) ==> Synced()
    {
      platformFields := platformFields + [EmptyEntry];
      var currentPlatforms := formPlatforms;
      formPlatforms := currentPlatforms + [EmptyEntry];
    }

    /** `removePlatformField(index)`: the copy without row `index` becomes the rows and the form's rows. */
    method RemovePlatformField(index: nat)
      modifies this
      ensures platformFields == RemoveRow(old(platformFields), index)
      ensures formPlatforms == platformFields
      ensures socialLinks == old(socialLinks) && formSocialLinks == old(formSocialLinks) && formNiches == old(formNiches)
      ensures old(Synced()) ==> Synced()
    {
      var updatedFields := platformFields;
      if index < |updatedFields| {
        updatedFields := updatedFields[..index] + updatedFields[index + 1..];
      }
      platformFields := updatedFields;
      formPlatforms := updatedFields;
    }

    /** `updatePlatformField(index, field, value)` for a row the page shows. */
    method UpdatePlatformField(index: nat, change: FieldChange)
      requires index < |platformFields|
      modifies this
      ensures platformFields == UpdateRow(old(platformFields), index, change)
      ensures formPlatforms == platformFields
      ensures socialLinks == old(socialLinks) && formSocialLinks == old(formSocialLinks) && formNiches == old(formNiches)
      ensures old(Synced()) ==> Synced()
    {
      var updatedFields := platformFields;
      updatedFields := updatedFields[index := ChangeField(updatedFields[index], change)];
      platformFields := updatedFields;
      formPlatforms := updatedFields;
    }

    /** `updateSocialLink(network, value)`: one key set, in the page's links and the form's. */
    method UpdateSocialLink(network: string, value: string)
      modifies this
      ensures socialLinks == old(socialLinks)[network := value]
      ensures formSocialLinks == Some(socialLinks)
      ensures platformFields == old(platformFields) && formPlatforms == old(formPlatforms) && formNiches == old(formNiches)
      ensures old(Synced()) ==> Synced()
    {
      var updatedLinks := socialLinks[network := value];
      socialLinks := updatedLinks;
      formSocialLinks := Some(updatedLinks);
    }

    /** The niche checkbox's `onChange`. */
    method ToggleNicheBox(niche: string, checked: bool)
      modifies this
      ensures formNiches == ToggleNiche(old(formNiches), niche, checked)
      ensures platformFields == old(platformFields) && formPlatforms == old(formPlatforms)
      ensures socialLinks == old(socialLinks) && formSocialLinks == old(formSocialLinks)
      ensures old(Synced()) ==> Synced()
    {
      var currentNiches := formNiches;
      var updatedNiches := if checked then currentNiches + [niche] else Keep(currentNiches, NotNiche(niche));
      formNiches := updatedNiches;
    }
  }

  /** The reasons the schema rejects a form. */
  datatype ProfileError =
    | NameTooShort
    | CompanyNameTooShort
    | IndustryTooShort
    | NoNiche
    | NoPlatform
    | FollowersNotPositive(row: nat)
    | RateNotPositive

  /** The part of the form that depends on the kind of user. */
  datatype ProfileDetails =
    | BusinessDetails(companyName: string, industry: string, companySize: string, website: string, socialLinks: map<string, string>)
    | InfluencerDetails(niches: seq<string>, platforms: seq<PlatformEntry>, rates: map<string, int>, mediaKit: string)

  datatype ProfileForm = ProfileForm(name: string, bio: string, location: string, profileImage: string, details: ProfileDetails)

  /** A rule that fails contributes its error. */
  function Check(ok: bool, error: ProfileError): seq<ProfileError> {
    if ok then [] else [error]
  }

  /** The rows whose followers are not positive (`z.number().int().positive()`). */
  function FollowerErrors(platforms: seq<PlatformEntry>): seq<ProfileError>
    decreases |platforms|
  {
    if platforms == [] then []
    else
      var last := |platforms| - 1;
      FollowerErrors(platforms[..last]) + Check(platforms[last].followers > 0, FollowersNotPositive(last))
  }

  predicate RatesPositive(rates: map<string, int>) {
    forall key :: key in rates ==> rates[key] > 0
  }

  /**
   * The schema's errors: a name of at least 2 characters; for a business a company name and
   * an industry of at least 2; for an influencer a niche, a platform, positive followers on
   * every row and positive rates.
   */
  function ProfileErrors(form: ProfileForm): seq<ProfileError> {
    Check(|form.name| >= 2, NameTooShort)
    + match form.details
      case BusinessDetails(companyName, industry, _, _, _) =>
        Check(|companyName| >= 2, CompanyNameTooShort) + Check(|industry| >= 2, IndustryTooShort)
      case InfluencerDetails(niches, platforms, rates, _) =>
        Check(|niches| >= 1, NoNiche) + Check(|platforms| >= 1, NoPlatform) + FollowerErrors(platforms)
        + Check(RatesPositive(rates), RateNotPositive)
  }

  predicate ProfileValid(form: ProfileForm) {
    ProfileErrors(form) == []
  }
}

/** What the profile editor's operations and its schema promise. */
module ProfilePageFacts {
  import opened Wrappers
  import opened Seqs
  import opened Numbers
  import opened Accounts
  import opened ProfilePage

  /** Removing row `index` drops exactly that row: the rows before it stay, the rows after it move up by one. */
  lemma RemoveRowFacts(rows: seq<PlatformEntry>, index: nat)
    requires index < |rows|
    ensures var r := RemoveRow(rows, index);
      |r| == |rows| - 1
      && r[..index] == rows[..index]
      && (forall k :: index <= k < |r| ==> r[k] == rows[k + 1])
      && multiset(r) + multiset{rows[index]} == multiset(rows)
  {
    var r := RemoveRow(rows, index);
    assert rows == rows[..index] + [rows[index]] + rows[index + 1..];
  }

  /** Through the page's button the list never becomes empty: removal is offered only above one row. */
  lemma RemovalKeepsARow(rows: seq<PlatformEntry>, index: nat)
    requires CanRemove(rows)
    ensures |RemoveRow(rows, index)| >= 1
  {
  }

  /** Updating changes only the named field of row `index`. */
  lemma UpdateRowFacts(rows: seq<PlatformEntry>, index: nat, change: FieldChange)
    requires index < |rows|
    ensures var r := UpdateRow(rows, index, change);
      |r| == |rows|
      && (forall k :: 0 <= k < |r| && k != index ==> r[k] == rows[k])
      && (change.SetPlatform? ==> r[index] == rows[index].(platform := change.platform))
      && (change.SetHandle? ==> r[index] == rows[index].(handle := change.handle))
      && (change.SetFollowers? ==> r[index] == rows[index].(followers := change.followers))
  {
  }

  /** Setting a link sets that key and keeps every other key and value. */
  lemma SocialLinkFacts(links: map<string, string>, network: string, value: string)
    ensures var r := links[network := value];
      r[network] == value
      && r.Keys == links.Keys + {network}
      && forall k :: k in links && k != network ==> r[k] == links[k]
  {
  }

  /** The followers input reads an integer, and anything `parseInt` cannot read as 0. */
  lemma FollowersInputFacts(text: string, n: int)
    ensures ParseInt(text).None? ==> FollowersInput(text) == 0
    ensures ParseInt(text) == Some(n) ==> FollowersInput(text) == n
    ensures FollowersInput(IntToString(n)) == n
  {
    ParseIntOfIntToString(n);
  }

  /** Unchecking drops every copy of the niche and keeps every other niche, as often as it occurred and in order. */
  lemma {:induction false} UncheckFacts(niches: seq<string>, niche: string)
    ensures var r := ToggleNiche(niches, niche, false);
      multiset(r)[niche] == 0
      && (forall x :: x != niche ==> multiset(r)[x] == multiset(niches)[x])
    decreases |niches|
  {
    if niches != [] {
      var init := niches[..|niches| - 1];
      UncheckFacts(init, niche);
      assert niches == init + [niches[|niches| - 1]];
    }
  }

  /** Checking appends the niche at the end; unchecking leaves an order-preserving subsequence without it. */
  lemma ToggleNicheFacts(niches: seq<string>, niche: string)
    ensures ToggleNiche(niches, niche, true) == niches + [niche]
    ensures niche !in ToggleNiche(niches, niche, false)
    ensures IsSubsequence(ToggleNiche(niches, niche, false), niches)
  {
    UncheckFacts(niches, niche);
    KeepIsSubsequence(niches, NotNiche(niche));
  }

  /** Row `k` is reported exactly when its followers are not positive. */
  lemma {:induction false} FollowerErrorsFacts(platforms: seq<PlatformEntry>)
    ensures forall e :: e in FollowerErrors(platforms) ==> e.FollowersNotPositive? && e.row < |platforms|
    ensures forall k :: 0 <= k < |platforms| ==>
      (FollowersNotPositive(k) in FollowerErrors(platforms) <==> platforms[k].followers <= 0)
    decreases |platforms|
  {
    if platforms != [] {
      var init := platforms[..|platforms| - 1];
      FollowerErrorsFacts(init);
      forall k | 0 <= k < |init|
        ensures init[k] == platforms[k]
      {
      }
    }
  }

  /** The schema accepts a form exactly when every rule holds. */
  lemma ProfileValidIff(form: ProfileForm)
    ensures ProfileValid(form) <==>
      |form.name| >= 2
      && (form.details.BusinessDetails? ==> |form.details.companyName| >= 2 && |form.details.industry| >= 2)
      && (form.details.InfluencerDetails? ==>
            |form.details.niches| >= 1 && |form.details.platforms| >= 1
            && (forall k :: 0 <= k < |form.details.platforms| ==> form.details.platforms[k].followers > 0)
            && RatesPositive(form.details.rates))
  {
    if form.details.InfluencerDetails? {
      var ps := form.details.platforms;
      FollowerErrorsFacts(ps);
      if forall k :: 0 <= k < |ps| ==> ps[k].followers > 0 {
        if FollowerErrors(ps) != [] {
          var e := FollowerErrors(ps)[0];
          assert e in FollowerErrors(ps);
        }
      } else {
        var k :| 0 <= k < |ps| && ps[k].followers <= 0;
        assert FollowersNotPositive(k) in FollowerErrors(ps);
      }
    }
  }
}
