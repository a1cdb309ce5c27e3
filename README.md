# InfluencerConnect in Dafny

A Dafny model of the client-side logic of InfluencerConnect. This is a marketplace where businesses find social-media influencers, open collaborations with them and exchange messages. The model covers:

- **Profile loader** (`shared/schema.ts`, `getInfluencerProfilesFromCSVs`). It turns the rows of four platform CSV files (Instagram, Threads, TikTok, YouTube) into influencer profiles. It also holds the follower-count parser that reads "1.2M", "800K" or "1,234".
- **Explore page** (`pages/explore-page.tsx`):
  - its own CSV row mapping and follower parser;
  - the merge of the four files;
  - the filter record and its partial updates;
  - the five-stage filter chain.
- **Explore card** (`cardInfluencer.tsx`). A per-platform id offset keeps the four files' row ids apart. The card builds its image seed and its "View Profile" link from that offset id.
- **Profile view** (`pages/view-profile.tsx`). It removes the offset again, finds the profile among the loaded ones, reads the platform's monthly performance file and reports trends and metrics.
- **Filter sidebar** (`FilterSidebar.tsx`): the partial updates its badges, slider, location box and reset button send to the explore page.
- **Influencer card** (`InfluencerCard.tsx`): the follower total, the platform colours and the niche badges.
- **Profile editor** (`pages/profile-page.tsx`):
  - the platform rows;
  - the social links;
  - the niche check boxes, kept both in page state and in the form;
  - the validation schema.
- **Business dashboard** (`BusinessDashboard.tsx`):
  - the campaign schema;
  - the status counts behind the two pie charts;
  - the campaign title of a collaboration;
  - the badge and action rules;
  - the chart colours.
- **Influencer dashboard** (`InfluencerDashboard.tsx`): the earnings total, the pending and completed counts, the open opportunities and their description previews.
- **Contact list** (`MessagesList.tsx`): the contact search, unread counts and the last message per contact.
- **Conversation pane** (`ChatWindow.tsx`): the message input, the send and key rules, the mark-as-read pass and the endpoint that loads the other user.
- **Testimonials** (`Testimonials.tsx`): the star rows.

JavaScript semantics that matter are modelled explicitly:

- NaN is `None`.
- `parseInt`, `parseFloat`, `Number` and `Math.round` are defined in `numbers.dfy`. Decimals are exact mantissa/exponent pairs.
- `trim` uses the ECMAScript whitespace set.
- `toLowerCase`, `includes`, `split`, `replace` and `substring` are defined in `strings.dfy`.

I/O (fetch, CSV tokenising, React Query, mutations) becomes parameters: parsed rows, `Option` outcomes, or lists of the requests a component issues.

Module layout:

- `wrappers`, `numbers`, `strings`, `seqs`: helpers.
- `rows`: CSV rows as maps.
- `accounts`: platform entries.
- `followers` and `follower_facts`: the parsers and their properties.
- One file, or a model module plus a `…Facts` module, per component.

## Model

| member | source | states |
|---|---|---|
| SchemaLoader.GetInfluencerProfilesFromCSVs | InfluencerConnect/shared/schema.ts:195-229 | The loader returns nothing when any file failed to load, and otherwise the profiles its two nested loops push (`LoadResult`). |
| SchemaLoader.CollectProfiles | InfluencerConnect/shared/schema.ts:204-228 | The outer loop appends each file's profiles in file order; the invariant ties the list so far to `AllProfiles` of the files seen. |
| SchemaLoader.PushFileProfiles | InfluencerConnect/shared/schema.ts:205-227 | The inner loop appends, in row order, the profile of each row with a non-empty trimmed name, and no other row. |
| SchemaLoader.LoadResult | InfluencerConnect/shared/schema.ts:196-201 | A failed file makes the whole load resolve to the empty list. |
| SchemaLoader.RowProfileWhenNamed | InfluencerConnect/shared/schema.ts:206-208 | A row becomes a profile exactly when its resolved name, trimmed, is not empty. |
| SchemaLoaderFacts.FileProfilesWellFormed | InfluencerConnect/shared/schema.ts:204-227 | Every profile of a file has a trimmed non-empty name, that file's platform, and tags that are trimmed and non-empty. |
| SchemaLoaderFacts.SplitTagsClean | InfluencerConnect/shared/schema.ts:213 | Splitting the tags cell on commas, trimming and dropping empty pieces leaves only trimmed, non-empty tags. |
| SchemaLoaderFacts.FileProfilesNames | InfluencerConnect/shared/schema.ts:205-208 | The names of a file's profiles are the resolved names of its named rows, in row order. |
| SchemaLoaderFacts.FileProfilesCount | InfluencerConnect/shared/schema.ts:205-208 | A file contributes exactly one profile per row with a name. |
| SchemaLoaderFacts.CsvPlatforms | InfluencerConnect/shared/schema.ts:148-153 | The platform read from each of the four paths (the part before the first `_`, without `/data/`) is instagram, threads, tiktok and youtube, in order. |
| SchemaLoaderFacts.PlatformOfDataPath | InfluencerConnect/shared/schema.ts:210 | For any `/data/<p>_<rest>` path where `p` has no underscore, the platform is `p`. |
| SchemaLoaderFacts.WhitespaceNameShadows | InfluencerConnect/shared/schema.ts:206-208 | A whitespace-only `NAME` cell is truthy, so it hides the later name columns and the row is dropped. |
| SchemaLoaderFacts.SkippedRow | InfluencerConnect/shared/schema.ts:208 | A row without a name yields no profile. |
| SchemaLoaderFacts.RowIdFallback | InfluencerConnect/shared/schema.ts:217 | A missing or blank `id` falls back to the row's position plus 1. |
| SchemaLoaderFacts.RowIdOfInteger | InfluencerConnect/shared/schema.ts:217 | An integer `id` is kept unless it is 0, which falls back to the position plus 1. |
| SchemaLoaderFacts.MissingFollowersIsZero | InfluencerConnect/shared/schema.ts:189-192 | A row with none of the four follower columns gets 0 followers: `String(undefined)` holds no digit. |
| SchemaLoaderFacts.EmptyFollowersCountIsZero | InfluencerConnect/shared/schema.ts:211 | When the first three follower columns are falsy, the empty last column is still read, as 0. |
| SchemaLoaderFacts.FileIdsWithoutIdColumn | InfluencerConnect/shared/schema.ts:205-217 | Without an id column, the profile ids are the positions of the named rows plus 1; skipped rows still use up their numbers. |
| SchemaLoaderFacts.AllProfilesNames | InfluencerConnect/shared/schema.ts:204-228 | Over all files, there is one profile per named row, carrying that row's name, in file order and then row order. |
| SchemaLoaderFacts.AllProfilesOk | InfluencerConnect/shared/schema.ts:204-228 | Every loaded profile has a trimmed non-empty name, one of the four platforms, and clean tags. |
| SchemaLoaderFacts.LoadOutcome | InfluencerConnect/shared/schema.ts:195-229 | A failed file gives []. Otherwise the profile count is the number of named rows across the four files. Either way every profile is well-formed. |
| Rows.FirstTruthyFacts | InfluencerConnect/shared/schema.ts:206 | `a \|\| b \|\| …` yields the cell of one of the columns, and gives nothing exactly when every column is falsy. |
| Rows.FirstTruthyIsEarliest | InfluencerConnect/shared/schema.ts:209 | The chosen cell is the one from the earliest column that is truthy. |
| Followers.SchemaParseFollowers | InfluencerConnect/shared/schema.ts:187-193 | The loader's `parseFollowers` returns a number unchanged. |
| Followers.ExploreParseFollowers | InfluencerConnect/client/src/pages/explore-page.tsx:213-224 | The explore page's `parseFollowers` returns a number unchanged, and reads a falsy value as 0. |
| Followers.DigitsValue | InfluencerConnect/shared/schema.ts:192 | `parseInt` of the text's digits is their decimal value, and `\|\| 0` applies when the text has no digit. |
| Followers.ScaleDecimal | InfluencerConnect/shared/schema.ts:190-191 | `Math.round(parseFloat(x) * factor)` is NaN exactly when `parseFloat` found no number. |
| Followers.FormatFollowers | InfluencerConnect/client/src/components/explore/cardInfluencer.tsx:31-38 | The M branch is taken exactly from 1,000,000, the K branch from 1000, and the plain branch below that; the plain text reads back as the count. `formatFollowerCount` (FilterSidebar.tsx:53-60) and `formatFollowers` (InfluencerCard.tsx:35-42) are the same if-chain. |
| FollowerFacts.SchemaReadsDigits | InfluencerConnect/shared/schema.ts:192 | Without an upper-case M/K suffix, the loader reads the digits of the text wherever they stand, and 0 when there are none. |
| FollowerFacts.ExploreReadsDigits | InfluencerConnect/client/src/pages/explore-page.tsx:216-223 | Without an m/k suffix in either case, the explore page reads the digits of the comma-free text. |
| FollowerFacts.ReadsDecimal | InfluencerConnect/shared/schema.ts:192 | Both parsers read the decimal text of a count back as that count. |
| FollowerFacts.SchemaReadsSuffix | InfluencerConnect/shared/schema.ts:190-191 | "<n>M" and "<n>K" read as n·1,000,000 and n·1000 in the loader. |
| FollowerFacts.SchemaIgnoresLowercaseSuffix | InfluencerConnect/shared/schema.ts:190-192 | The loader's suffix test is case-sensitive: "<n>m" reads as n. |
| FollowerFacts.ExploreReadsSuffix | InfluencerConnect/client/src/pages/explore-page.tsx:217-220 | The explore page scales an m/k suffix in either case. |
| FollowerFacts.ParsersDisagreeOnLowercase | InfluencerConnect/client/src/pages/explore-page.tsx:217 | On "<n>m" the two parsers disagree: the loader reads n, the explore page n·1,000,000. |
| FollowerFacts.ExploreIgnoresCommas | InfluencerConnect/client/src/pages/explore-page.tsx:216 | Commas make no difference to the explore page's parser. |
| FollowerFacts.BareSuffixIsNaN | InfluencerConnect/shared/schema.ts:190-191 | A bare "M" or "K" is NaN in both parsers (`parseFloat` finds no number). |
| FollowerFacts.SchemaUndefinedIsZero | InfluencerConnect/shared/schema.ts:189 | `undefined` becomes the text "undefined", which the loader reads as 0. |
| FollowerFacts.SchemaReadsFractionalMillions | InfluencerConnect/shared/schema.ts:190 | The loader reads "1.5M" as 1,500,000. |
| FollowerFacts.ExploreReadsFractionalMillions | InfluencerConnect/client/src/pages/explore-page.tsx:218 | The explore page reads "1.5M" as 1,500,000. |
| FollowerFacts.ExploreReadsFifteenMillions | InfluencerConnect/client/src/pages/explore-page.tsx:218 | The explore page reads "15M" as 15,000,000. |
| FollowerFacts.PlainLabelRoundTrip | InfluencerConnect/client/src/components/explore/cardInfluencer.tsx:37 | A count's plain label reads back as that count in both parsers. |
| Explore.ParseFile | InfluencerConnect/client/src/pages/explore-page.tsx:107-139 | `parseFile` maps every row, in order, with nothing dropped. Each row gets the follower metric cleaned as written (`/[^\dMK]/gi`). |
| Explore.CleanMetricAsWritten | InfluencerConnect/client/src/pages/explore-page.tsx:133 | The cleaning as written is a subsequence of the cell and keeps only digits and M/K. |
| Explore.CleanMetric | InfluencerConnect/client/src/pages/explore-page.tsx:133 | The corrected cleaning is a subsequence of the cell that also keeps the decimal point. |
| Explore.SplitCommaSpace | InfluencerConnect/client/src/pages/explore-page.tsx:128 | Splitting on `/,\s*/` yields one piece per comma-separated piece, so at least one. Only the pieces after a comma lose their leading whitespace. |
| Explore.FilterChainIsFilterResult | InfluencerConnect/client/src/pages/explore-page.tsx:26-85 | The five successive `data.filter` steps, each run only when its filter is set, keep exactly the records that pass every stage. |
| Explore.ExplorePage.constructor | InfluencerConnect/client/src/pages/explore-page.tsx:11-21 | The page starts with the initial filters (1,000,000 to 1,000,000,000 followers) and no data. |
| Explore.ExplorePage.HandleFilterChange | InfluencerConnect/client/src/pages/explore-page.tsx:157-159 | The filters become `{ ...prev, ...update }`; the data is unchanged. |
| Explore.ExplorePage.LoadData | InfluencerConnect/client/src/pages/explore-page.tsx:146-155 | The page data becomes the four parsed files flattened, in the order of `csvFiles`. The metrics are cleaned as written. |
| Explore.ExplorePage.ApplyFilters | InfluencerConnect/client/src/pages/explore-page.tsx:24-91 | The filtered list becomes `FilterResult` of the data and the filters. |
| ExploreFacts.FilterResultIsSubsequence | InfluencerConnect/client/src/pages/explore-page.tsx:26-87 | The filtered list keeps the data's order. |
| ExploreFacts.FilterResultMembers | InfluencerConnect/client/src/pages/explore-page.tsx:26-87 | A record is shown exactly when it is in the data and passes every filter that is set. |
| ExploreFacts.FilterResultSound | InfluencerConnect/client/src/pages/explore-page.tsx:29-85 | Every shown record meets each filter that is set: a tag contains the niche or tags text (ignoring case), the location matches, the follower count is in range, and the platform matches after trimming and lower-casing. |
| ExploreFacts.TaglessHidden | InfluencerConnect/client/src/pages/explore-page.tsx:31-37 | With a niche or tags filter set, a record without tags is never shown. |
| ExploreFacts.UnreadableCountHidden | InfluencerConnect/client/src/pages/explore-page.tsx:74-75 | While the follower filter runs, a record whose count is NaN is never shown. |
| ExploreFacts.NoFilterShowsAll | InfluencerConnect/client/src/pages/explore-page.tsx:63-64 | With no text filter set and the range at its sentinel, every record is shown. |
| ExploreFacts.InitialFiltersShowRange | InfluencerConnect/client/src/pages/explore-page.tsx:11-18 | The initial filters show exactly the records with 1,000,000 to 1,000,000,000 followers. |
| ExploreFacts.FilterResultIdempotent | InfluencerConnect/client/src/pages/explore-page.tsx:24-91 | Filtering the filtered list again changes nothing. |
| ExploreFacts.FilterResultOfConcat | InfluencerConnect/client/src/pages/explore-page.tsx:149 | Filtering merged files is the same as merging the filtered files. |
| ExploreFacts.MergeOverwritesSupplied | InfluencerConnect/client/src/pages/explore-page.tsx:158 | The update overwrites exactly the supplied fields and keeps all the others. |
| ExploreFacts.MergeNothing | InfluencerConnect/client/src/pages/explore-page.tsx:158 | An empty update leaves the filters as they are. |
| ExploreFacts.MergeTwice | InfluencerConnect/client/src/pages/explore-page.tsx:158 | Two updates in a row equal one combined update in which the later one wins. |
| ExploreFacts.MergeIdempotent | InfluencerConnect/client/src/pages/explore-page.tsx:158 | Repeating an update changes nothing more. |
| ExploreFacts.ParseFileFacts | InfluencerConnect/client/src/pages/explore-page.tsx:120-137 | Row i gets id i+1, the image seeded with the file's offset plus that id, the file's platform name, one follower metric, and no platform list. |
| ExploreFacts.ParseRowFields | InfluencerConnect/client/src/pages/explore-page.tsx:120-137 | Row `index` gets id index+1, the file's platform, and the image seeded with the file's offset plus that id. |
| ExploreFacts.NameSplitsOnHandle | InfluencerConnect/client/src/pages/explore-page.tsx:110-113 | A NAME cell "name @handle" gives the trimmed text before " @" as the name and the trimmed text after it as the handle. |
| ExploreFacts.NameWithoutHandle | InfluencerConnect/client/src/pages/explore-page.tsx:111-113 | A NAME cell without " @" gives its trimmed text, or "Unknown Name" when that is empty, and no handle. |
| ExploreFacts.NoNameIsUnknown | InfluencerConnect/client/src/pages/explore-page.tsx:108-118 | A row with neither name column shows "Unknown Name". |
| ExploreFacts.WhitespaceInfluencerName | InfluencerConnect/client/src/pages/explore-page.tsx:116-117 | A whitespace-only INFLUENCER NAME gives an empty name, not "Unknown Name". |
| ExploreFacts.TopicTagsClean | InfluencerConnect/client/src/pages/explore-page.tsx:128 | No topic tag contains a comma. No tag after the first starts with whitespace. The first tag is the cell up to its first comma, or the whole cell when there is none. |
| ExploreFacts.OneCommaTags | InfluencerConnect/client/src/pages/explore-page.tsx:128 | A cell with one comma gives two tags: the text before it unchanged, and the text after it without its leading whitespace. |
| ExploreFacts.LeadingSpaceKept | InfluencerConnect/client/src/pages/explore-page.tsx:128 | " Fashion, Beauty" gives the tags " Fashion" and "Beauty": the first tag keeps its leading space. |
| ExploreFacts.TopicTagsOfMissingOrEmpty | InfluencerConnect/client/src/pages/explore-page.tsx:128 | A missing topic column gives no tags; an empty topic cell gives the single tag "". |
| ExploreFacts.FollowersMetricFacts | InfluencerConnect/client/src/pages/explore-page.tsx:129-136 | A falsy FOLLOWERS cell gives the metric "0". Otherwise the metric is a subsequence of the cell holding only digits and M/K in either case. |
| ExploreFacts.FractionalFollowersCell | InfluencerConnect/client/src/pages/explore-page.tsx:129-136 | A row whose FOLLOWERS cell is "1.5M" shows the metric "15M" and is filtered as 15,000,000 followers. |
| ExploreFacts.FollowersOfParsedRow | InfluencerConnect/client/src/pages/explore-page.tsx:66-73 | The filter reads a parsed record's count from its metric alone, never from a platform total. |
| ExploreFacts.PageDataInOrder | InfluencerConnect/client/src/pages/explore-page.tsx:93-98 | The page's data is the four parsed files in `csvFiles` order; its length is the sum of their row counts. |
| ExploreFacts.CleaningDropsDecimalPoint | InfluencerConnect/client/src/pages/explore-page.tsx:133 | As written, "1.5M" is cleaned to "15M", which reads as 15,000,000, whereas "1.5M" itself reads as 1,500,000. |
| ExploreFacts.CleaningKeepsCountText | InfluencerConnect/client/src/pages/explore-page.tsx:133 | The corrected cleaning leaves well-formed count text unchanged, so the count it reads is unchanged too. |
| ExploreFacts.CleaningKeepsFractionalCount | InfluencerConnect/client/src/pages/explore-page.tsx:133 | After the corrected cleaning, "1.5M" still reads as 1,500,000. |
| ExploreFacts.CleaningsAgreeWithoutPoint | InfluencerConnect/client/src/pages/explore-page.tsx:133 | The two cleanings agree on any text without a decimal point. |
| ExploreFacts.ExploreOffsetAgrees | InfluencerConnect/client/src/pages/explore-page.tsx:93-98 | For each file's platform name, the card's offset equals the offset the file seeds its images with. |
| ExploreFacts.CardImageIsRecordImage | InfluencerConnect/client/src/pages/explore-page.tsx:180-192 | The card of a parsed record shows the same image as the record. |
| CardInfluencer.PlatformOffset | InfluencerConnect/client/src/components/explore/cardInfluencer.tsx:17-28 | The offset is always 0, 1000, 2000 or 3000. |
| CardInfluencer.OffsetTable | InfluencerConnect/client/src/components/explore/cardInfluencer.tsx:15-29 | instagram adds 0, threads 1000, tiktok 2000, youtube 3000, and any other name 0. |
| CardInfluencer.OffsetIgnoresCaseAndSpace | InfluencerConnect/client/src/components/explore/cardInfluencer.tsx:16 | The offset does not depend on the platform name's case or its surrounding whitespace. |
| CardInfluencer.OffsetInjective | InfluencerConnect/client/src/components/explore/cardInfluencer.tsx:15-29 | Within one platform, different ids get different offset ids. |
| CardInfluencer.OffsetsApartUnderBound | InfluencerConnect/client/src/components/explore/cardInfluencer.tsx:15-29 | For base ids 1..1000, the four platforms' offset ids never collide. |
| CardInfluencer.OffsetsCollideBeyondBound | InfluencerConnect/client/src/components/explore/cardInfluencer.tsx:15-29 | Without that bound they can: threads row 1 and instagram row 1001 share offset id 1001. |
| CardInfluencer.CardUsesOffsetId | InfluencerConnect/client/src/components/explore/cardInfluencer.tsx:40-60 | The image seed and the link id are both the offset id, and the link id reads back as that number. |
| CardInfluencer.CardFollowerLabel | InfluencerConnect/client/src/components/explore/cardInfluencer.tsx:31-38 | The card uses the M label from 1,000,000 and the K label from 1000; below 1000 the plain number reads back as the count. |
| ViewProfile.OffsetRemoved | InfluencerConnect/client/src/pages/view-profile.tsx:210-226 | The switch removes 0, 1000, 2000 or 3000. |
| ViewProfile.RemoveOffset | InfluencerConnect/client/src/pages/view-profile.tsx:210-226 | The switch assigns the base id `BaseIdOf`; a NaN id stays NaN. |
| ViewProfile.FindInfluencer | InfluencerConnect/client/src/pages/view-profile.tsx:207-237 | The lookup steps (`parseInt`, lower-case and trim, switch, `find`, put the URL's id back) compute `Lookup`. |
| ViewProfile.ViewProfilePage.constructor | InfluencerConnect/client/src/pages/view-profile.tsx:195-199 | The page starts loading, with no profile, no profiles, no performance data and no trends. |
| ViewProfile.ViewProfilePage.LoadProfilesForPlatform | InfluencerConnect/client/src/pages/view-profile.tsx:204-251 | The loaded profiles are kept, and the profile the URL names is shown when found (the earlier one is kept otherwise). Loading ends either way. |
| ViewProfile.ViewProfilePage.ShowLoaded | InfluencerConnect/client/src/pages/view-profile.tsx:235-243 | The loaded profiles are stored, the found profile replaces the shown one only when there is one, loading ends, and the performance data is untouched. |
| ViewProfile.ViewProfilePage.LoadPerformanceData | InfluencerConnect/client/src/pages/view-profile.tsx:253-274 | Without a shown profile or a platform, nothing changes. Otherwise the data becomes the monthly file's entries bearing the profile's name, and the trends are computed from them. |
| ViewProfileFacts.NumericIdOfText | InfluencerConnect/client/src/pages/view-profile.tsx:207 | The id is `parseInt` of the parameter, with "0" standing in for a missing or empty one. |
| ViewProfileFacts.SwitchesAgree | InfluencerConnect/client/src/pages/view-profile.tsx:208-226 | The page removes exactly the offset the card adds, for every platform name. |
| ViewProfileFacts.OffsetRoundTrip | InfluencerConnect/client/src/pages/view-profile.tsx:210-226 | Removing the offset undoes `getOffsetId`, for every id and every platform name. |
| ViewProfileFacts.NaNIdFindsNothing | InfluencerConnect/client/src/pages/view-profile.tsx:230-233 | A NaN id equals no profile id. |
| ViewProfileFacts.FindProfileFacts | InfluencerConnect/client/src/pages/view-profile.tsx:230-233 | `find` answers the first profile that passes the test, and nothing exactly when none does. |
| ViewProfileFacts.FindProfileAt | InfluencerConnect/client/src/pages/view-profile.tsx:230-233 | When position i holds the first profile passing the test, `find` answers it. |
| ViewProfileFacts.LookupFacts | InfluencerConnect/client/src/pages/view-profile.tsx:207-237 | A profile is shown exactly when one has the URL's platform (trimmed and lower-cased) and the base id. What is shown is the first such profile, with the URL's id. |
| ViewProfileFacts.CardLinkOpensProfile | InfluencerConnect/client/src/pages/view-profile.tsx:204-237 | Following a card's link shows the first loaded profile with the card's platform and id, under the card's offset id and with the card's image. |
| ViewProfileFacts.CountColumnDigits | InfluencerConnect/client/src/pages/view-profile.tsx:42-44 | A count column is the value of its digits wherever they stand, and NaN without any digit. |
| ViewProfileFacts.ParseLineFacts | InfluencerConnect/client/src/pages/view-profile.tsx:37-46 | A line is kept exactly when it has at least six columns; its fields are the trimmed texts and the parsed numbers. |
| ViewProfileFacts.KeptLines | InfluencerConnect/client/src/pages/view-profile.tsx:36-47 | There is one entry per line with six columns, and each entry is the parse of such a line. |
| ViewProfileFacts.KeptEntriesFacts | InfluencerConnect/client/src/pages/view-profile.tsx:47 | `.filter(Boolean)` keeps one entry per parsed line, and an entry is kept exactly when some line parsed to it. |
| ViewProfileFacts.ParsedLinesCount | InfluencerConnect/client/src/pages/view-profile.tsx:38-47 | The number of lines that parse equals the number of lines with six columns. |
| ViewProfileFacts.HeaderSkipped | InfluencerConnect/client/src/pages/view-profile.tsx:35 | The header line never becomes an entry. |
| ViewProfileFacts.FailedFetchReadsNothing | InfluencerConnect/client/src/pages/view-profile.tsx:48-51 | A failed fetch reads as no entries. |
| ViewProfileFacts.PerformanceRowsNamed | InfluencerConnect/client/src/pages/view-profile.tsx:265-267 | The performance rows are exactly the file's entries with the profile's name, in file order. |
| ViewProfileFacts.TrendsNeedTwo | InfluencerConnect/client/src/pages/view-profile.tsx:55 | There are trends exactly when there are at least two months. |
| ViewProfileFacts.TrendsIgnoreEarlierMonths | InfluencerConnect/client/src/pages/view-profile.tsx:57-58 | Only the last two months matter. |
| ViewProfileFacts.TrendWords | InfluencerConnect/client/src/pages/view-profile.tsx:60-65 | Each trend reports a rise exactly when both months are numbers and the later one is strictly larger. |
| ViewProfileFacts.TiesReportDecline | InfluencerConnect/client/src/pages/view-profile.tsx:61-64 | Two equal months report the falling word for all four trends. |
| ViewProfileFacts.MetricsFacts | InfluencerConnect/client/src/pages/view-profile.tsx:117-135 | There are no metrics without data. Otherwise the post count is the number of entries, and a growth figure is shown exactly from two months. |
| ViewProfileFacts.SumCountsNaN | InfluencerConnect/client/src/pages/view-profile.tsx:133 | One NaN month makes the summed likes NaN. |
| ViewProfileFacts.SumCountsBounds | InfluencerConnect/client/src/pages/view-profile.tsx:133 | A sum of months between lo and hi lies between n·lo and n·hi. |
| ViewProfileFacts.AverageLikes | InfluencerConnect/client/src/pages/view-profile.tsx:133 | One NaN month makes the average likes NaN. Otherwise the rounded mean lies between the smallest and the largest month. |
| FilterSidebar.Toggle | InfluencerConnect/client/src/components/explore/FilterSidebar.tsx:106 | A badge click yields "" or the clicked value, and the clicked value exactly when it is not the current one. |
| FilterSidebarFacts.ResetFilters | InfluencerConnect/client/src/components/explore/FilterSidebar.tsx:63-71 | Reset clears niche, platform and location, sets the range to 0..1,000,000 (which turns the follower filter off), and keeps the tags. |
| FilterSidebarFacts.ResetShowsAll | InfluencerConnect/client/src/components/explore/FilterSidebar.tsx:63-71 | After a reset, with no tags filter, every record is shown. |
| FilterSidebarFacts.NicheClickFilters | InfluencerConnect/client/src/components/explore/FilterSidebar.tsx:106 | A niche click changes only the niche, to the clicked niche or to "". |
| FilterSidebarFacts.PlatformClickFilters | InfluencerConnect/client/src/components/explore/FilterSidebar.tsx:123-125 | A platform click changes only the platform, to the clicked platform or to "". |
| FilterSidebarFacts.NicheClickTwice | InfluencerConnect/client/src/components/explore/FilterSidebar.tsx:106 | Clicking the same badge twice restores the filters. |
| FilterSidebarFacts.SliderFilters | InfluencerConnect/client/src/components/explore/FilterSidebar.tsx:143-150 | Only a two-handle value sends an update, and that update sets the range and nothing else. |
| FilterSidebarFacts.LocationFilters | InfluencerConnect/client/src/components/explore/FilterSidebar.tsx:91 | Typing sets the location to the text as typed, and nothing else. |
| FilterSidebarFacts.SliderLabelFacts | InfluencerConnect/client/src/components/explore/FilterSidebar.tsx:53-60 | Each slider label is in millions exactly when its bound is at least 1,000,000, and plain exactly when it is below 1000. |
| FilterSidebarFacts.SliderLabelsInitialAndReset | InfluencerConnect/client/src/components/explore/FilterSidebar.tsx:153-154 | The initial range shows two million-labels. After a reset the minimum reads "0" and the maximum is in millions. |
| FilterSidebarFacts.NicheBadgeFilters | InfluencerConnect/client/src/components/explore/FilterSidebar.tsx:24-39 | Choosing a niche badge that is not selected sets that niche, and every shown record has a tag containing it. |
| FilterSidebarFacts.FilePlatformBadge | InfluencerConnect/client/src/components/explore/FilterSidebar.tsx:42-50 | Every platform an explore file is loaded for has a platform badge. Choosing it, when not selected, shows only records of that platform. |
| InfluencerCard.PlatformColor | InfluencerConnect/client/src/components/explore/InfluencerCard.tsx:69-90 | A colour other than grey is given only to one of the eight known platforms, in any case. |
| InfluencerCardFacts.TotalOfMore | InfluencerConnect/client/src/components/explore/InfluencerCard.tsx:25-32 | The total over two lists of platforms is the sum of their totals. |
| InfluencerCardFacts.TotalAtLeastEach | InfluencerConnect/client/src/components/explore/InfluencerCard.tsx:25-32 | With no negative counts, the total is at least every platform's own count. |
| InfluencerCardFacts.TotalNonNegative | InfluencerConnect/client/src/components/explore/InfluencerCard.tsx:25-32 | With no negative counts, the total is not negative. |
| InfluencerCardFacts.ColorIgnoresCase | InfluencerConnect/client/src/components/explore/InfluencerCard.tsx:70 | The colour does not depend on the case of the platform name. |
| InfluencerCardFacts.TotalLabelDominates | InfluencerConnect/client/src/components/explore/InfluencerCard.tsx:35-42 | With no negative counts, the total's label is in millions when a chip's is, and not plain when a chip's is not. A card without platforms reads "0". |
| InfluencerCardFacts.NicheBadgeFacts | InfluencerConnect/client/src/components/explore/InfluencerCard.tsx:117-126 | At most three badges, the leading niches in order. "+N more" appears exactly when more than three niches exist, with N the number left out. |
| ProfilePage.AddRow | InfluencerConnect/client/src/pages/profile-page.tsx:115-120 | Adding a row keeps the old rows and appends one empty row. |
| ProfilePage.ProfileEditor.constructor | InfluencerConnect/client/src/pages/profile-page.tsx:64-111 | The editor starts with the user's own rows or one empty row, and the user's links or the four empty defaults. The form mirrors the part for the user's kind. |
| ProfilePage.ProfileEditor.AddPlatformField | InfluencerConnect/client/src/pages/profile-page.tsx:114-121 | Both the page's rows and the form's rows gain an empty row at the end; nothing else changes. |
| ProfilePage.ProfileEditor.RemovePlatformField | InfluencerConnect/client/src/pages/profile-page.tsx:123-128 | The copy without row `index` becomes both the page's rows and the form's rows. |
| ProfilePage.ProfileEditor.UpdatePlatformField | InfluencerConnect/client/src/pages/profile-page.tsx:130-135 | Row `index` gets the one changed field, in page state and in the form. |
| ProfilePage.ProfileEditor.UpdateSocialLink | InfluencerConnect/client/src/pages/profile-page.tsx:138-142 | One link key is set, in page state and in the form. |
| ProfilePage.ProfileEditor.ToggleNicheBox | InfluencerConnect/client/src/pages/profile-page.tsx:415-421 | The form's niches gain the niche when checked, and lose every copy of it when unchecked. |
| ProfilePageFacts.RemoveRowFacts | InfluencerConnect/client/src/pages/profile-page.tsx:123-128 | Exactly row `index` is dropped: earlier rows stay, later rows move up, and the multiset loses that one row. |
| ProfilePageFacts.RemovalKeepsARow | InfluencerConnect/client/src/pages/profile-page.tsx:496 | The button is offered only when there is more than one row, so the list never becomes empty. |
| ProfilePageFacts.UpdateRowFacts | InfluencerConnect/client/src/pages/profile-page.tsx:130-135 | Only the named field of row `index` changes. |
| ProfilePageFacts.SocialLinkFacts | InfluencerConnect/client/src/pages/profile-page.tsx:139 | The key is set, and every other key keeps its value. |
| ProfilePageFacts.FollowersInputFacts | InfluencerConnect/client/src/pages/profile-page.tsx:484-490 | The input reads an integer, and anything `parseInt` cannot read as 0; a typed integer reads back as itself. |
| ProfilePageFacts.ToggleNicheFacts | InfluencerConnect/client/src/pages/profile-page.tsx:418-420 | Checking appends the niche; unchecking leaves an order-preserving subsequence without it. |
| ProfilePageFacts.UncheckFacts | InfluencerConnect/client/src/pages/profile-page.tsx:420 | Unchecking removes every copy of the niche and keeps every other niche as often as it occurred. |
| ProfilePageFacts.FollowerErrorsFacts | InfluencerConnect/client/src/pages/profile-page.tsx:48-54 | Row k is reported exactly when its followers are not positive. |
| ProfilePageFacts.ProfileValidIff | InfluencerConnect/client/src/pages/profile-page.tsx:26-58 | The schema accepts a form exactly when every rule for its kind holds. |
| BusinessDashboard.CampaignStatusData | InfluencerConnect/client/src/components/dashboard/BusinessDashboard.tsx:161-165 | The campaign chart has three slices. |
| BusinessDashboard.CollaborationStatusData | InfluencerConnect/client/src/components/dashboard/BusinessDashboard.tsx:167-172 | The collaboration chart has four slices. |
| BusinessDashboardFacts.CampaignValidIff | InfluencerConnect/client/src/components/dashboard/BusinessDashboard.tsx:60-66 | A form is accepted exactly when the title has at least 3 characters, the description at least 10, the budget is a number of at least 1, and the status is draft, active or completed. |
| BusinessDashboardFacts.CampaignErrorsFacts | InfluencerConnect/client/src/components/dashboard/BusinessDashboard.tsx:60-66 | Each rule reports its error exactly when it fails. |
| BusinessDashboardFacts.DefaultFormErrors | InfluencerConnect/client/src/components/dashboard/BusinessDashboard.tsx:77-83 | The untouched form fails on the title, the description and the budget, but not on the status. |
| BusinessDashboardFacts.BudgetInputFacts | InfluencerConnect/client/src/components/dashboard/BusinessDashboard.tsx:304 | A typed whole number reads as itself; a text without digits is NaN. |
| BusinessDashboardFacts.AbsentDataCountsZero | InfluencerConnect/client/src/components/dashboard/BusinessDashboard.tsx:161-172 | Without data, every slice is 0. |
| BusinessDashboardFacts.CampaignCountsCover | InfluencerConnect/client/src/components/dashboard/BusinessDashboard.tsx:161-165 | The slices add up to at most the number of campaigns, and to all of them exactly when every status is one the schema admits. |
| BusinessDashboardFacts.CollaborationCountsCover | InfluencerConnect/client/src/components/dashboard/BusinessDashboard.tsx:167-172 | The same holds for the four collaboration slices. |
| BusinessDashboardFacts.UnmatchedTitle | InfluencerConnect/client/src/components/dashboard/BusinessDashboard.tsx:488 | A direct request, or an id no listed campaign has, shows "Direct Request". |
| BusinessDashboardFacts.MatchedTitle | InfluencerConnect/client/src/components/dashboard/BusinessDashboard.tsx:488 | The first campaign with the id provides the title, or "Direct Request" when its title is empty. |
| BusinessDashboardFacts.TitleSource | InfluencerConnect/client/src/components/dashboard/BusinessDashboard.tsx:488 | Any shown title other than "Direct Request" is the title of the first campaign with the id. |
| BusinessDashboardFacts.CampaignBadgesMatchChart | InfluencerConnect/client/src/components/dashboard/BusinessDashboard.tsx:397-403 | The default badges count the Active slice and the success badges the Completed slice; all other rows are secondary. |
| BusinessDashboardFacts.ActionsMatchPending | InfluencerConnect/client/src/components/dashboard/BusinessDashboard.tsx:509 | Accept/Reject appear on exactly as many rows as the Pending slice counts, and each such row has a secondary badge. |
| BusinessDashboardFacts.CollaborationBadgesMatchChart | InfluencerConnect/client/src/components/dashboard/BusinessDashboard.tsx:491-499 | The default, destructive and success badges count the Accepted, Rejected and Completed slices. |
| BusinessDashboardFacts.ChartColorsCycle | InfluencerConnect/client/src/components/dashboard/BusinessDashboard.tsx:174 | The colours repeat every four slices, and the four colours of a chart all differ. |
| InfluencerDashboardFacts.MockTotal | InfluencerConnect/client/src/components/dashboard/InfluencerDashboard.tsx:91-98 | The six fixed months total 12700. |
| InfluencerDashboardFacts.TotalEarningsSplit | InfluencerConnect/client/src/components/dashboard/InfluencerDashboard.tsx:118-120 | The `reduce` from 0 distributes over concatenation, and no months total 0. |
| InfluencerDashboardFacts.CountsBounded | InfluencerConnect/client/src/components/dashboard/InfluencerDashboard.tsx:123-130 | Both counts are 0 without data, and together they never exceed the number of collaborations. |
| InfluencerDashboardFacts.CountsMatchBusinessChart | InfluencerConnect/client/src/components/dashboard/InfluencerDashboard.tsx:123-130 | The two cards show the business chart's Pending and Completed slices. |
| InfluencerDashboardFacts.OpportunitiesFacts | InfluencerConnect/client/src/components/dashboard/InfluencerDashboard.tsx:317-321 | The opportunities are exactly the active campaigns, in order; their number is the Active slice. |
| InfluencerDashboardFacts.GridShownIff | InfluencerConnect/client/src/components/dashboard/InfluencerDashboard.tsx:317 | The grid appears exactly when some loaded campaign is active. |
| InfluencerDashboardFacts.ActionsMatchPendingCard | InfluencerConnect/client/src/components/dashboard/InfluencerDashboard.tsx:254 | Accept/Reject appear on exactly as many rows as the Pending card counts. |
| InfluencerDashboardFacts.PreviewFacts | InfluencerConnect/client/src/components/dashboard/InfluencerDashboard.tsx:329-331 | A description of at most 100 characters is shown whole, a longer one as its first 100 and "...". |
| InfluencerDashboardFacts.PreviewIdempotent | InfluencerConnect/client/src/components/dashboard/InfluencerDashboard.tsx:329-331 | Previewing a preview changes nothing. |
| MessagesList.LatestAt | InfluencerConnect/client/src/components/messages/MessagesList.tsx:54-55 | Returns the position of a latest message; every earlier position holds a strictly older one, so the result is the head of a stable descending sort. |
| MessagesList.ContactList.constructor | InfluencerConnect/client/src/components/messages/MessagesList.tsx:15-16 | The list starts with an empty term, and every contact is shown. |
| MessagesList.ContactList.SetSearchTerm | InfluencerConnect/client/src/components/messages/MessagesList.tsx:24-35 | The shown contacts become the search result for the new term. |
| MessagesList.ContactList.SetUsers | InfluencerConnect/client/src/components/messages/MessagesList.tsx:24-35 | New contacts are searched again with the current term. |
| MessagesListFacts.BlankSearchShowsAll | InfluencerConnect/client/src/components/messages/MessagesList.tsx:25-26 | A blank term shows every contact, in order. |
| MessagesListFacts.SearchFacts | InfluencerConnect/client/src/components/messages/MessagesList.tsx:28-33 | Any other term shows the contacts, in order, whose name or username contains the untrimmed term ignoring case, and only them. |
| MessagesListFacts.SearchIgnoresCase | InfluencerConnect/client/src/components/messages/MessagesList.tsx:30-31 | The search does not depend on the case of the term. |
| MessagesListFacts.UnreadBounded | InfluencerConnect/client/src/components/messages/MessagesList.tsx:38-41 | The unread count is 0 without messages, and never more than the number of messages. |
| MessagesListFacts.UnreadPositiveIff | InfluencerConnect/client/src/components/messages/MessagesList.tsx:40 | A contact has unread messages exactly when some message from them is unread. |
| MessagesListFacts.LastMessageNoneIff | InfluencerConnect/client/src/components/messages/MessagesList.tsx:44-51 | There is no last message exactly when no message was sent by or to the contact. |
| MessagesListFacts.LastMessageFacts | InfluencerConnect/client/src/components/messages/MessagesList.tsx:44-56 | The last message is one of the contact's messages, and none of theirs is later. |
| MessagesListFacts.UnreadImpliesLastMessage | InfluencerConnect/client/src/components/messages/MessagesList.tsx:38-56 | A contact with unread messages always has a last message. |
| MessagesListFacts.PreviewFacts | InfluencerConnect/client/src/components/messages/MessagesList.tsx:108-112 | A message of at most 25 characters is shown whole, a longer one cut to 25 characters plus "...", and no message shows "No messages yet". |
| ChatWindow.ChatPane.constructor | InfluencerConnect/client/src/components/messages/ChatWindow.tsx:17-19 | The pane starts with an empty input and no requests. |
| ChatWindow.ChatPane.SetInput | InfluencerConnect/client/src/components/messages/ChatWindow.tsx:209 | Typing sets the input and nothing else. |
| ChatWindow.ChatPane.HandleSendMessage | InfluencerConnect/client/src/components/messages/ChatWindow.tsx:92-96 | A non-blank input sends its trimmed text. A blank one sends nothing. The input stays either way. |
| ChatWindow.ChatPane.OnSendSuccess | InfluencerConnect/client/src/components/messages/ChatWindow.tsx:51-54 | A successful send clears the input. |
| ChatWindow.ChatPane.HandleKeyDown | InfluencerConnect/client/src/components/messages/ChatWindow.tsx:99-104 | Enter without Shift prevents the default and attempts a send; any other key changes nothing. |
| ChatWindow.ChatPane.MarkUnreadAsRead | InfluencerConnect/client/src/components/messages/ChatWindow.tsx:81-89 | One request is issued per loaded message that is addressed to the current user and unread, in message order: `MarkedIds`. |
| ChatWindowFacts.EndpointFacts | InfluencerConnect/client/src/components/messages/ChatWindow.tsx:28-29 | Id 0 gives no endpoint and no query. A lower id than the current user's gives the influencers endpoint; any other id gives the businesses endpoint. Both end in the id. |
| ChatWindowFacts.EndpointReadsBack | InfluencerConnect/client/src/components/messages/ChatWindow.tsx:28 | The id at the end of the endpoint reads back as the other user's id. |
| ChatWindowFacts.MarkedIdsFacts | InfluencerConnect/client/src/components/messages/ChatWindow.tsx:83-86 | The requested ids are exactly the ids of the unread messages sent to the current user, with no other id. |
| ChatWindowFacts.NothingElseMarked | InfluencerConnect/client/src/components/messages/ChatWindow.tsx:84 | Messages the current user sent, and messages already read, are never marked. |
| ChatWindowFacts.ButtonMatchesGuard | InfluencerConnect/client/src/components/messages/ChatWindow.tsx:217 | The button is enabled exactly when no send is pending and a click would send something. |
| Testimonials.FullStarCount | InfluencerConnect/client/src/components/home/Testimonials.tsx:48 | The full-star count is the whole part of the rating: not above the rating (or 0), and within 1 of it. |
| Testimonials.RenderStars | InfluencerConnect/client/src/components/home/Testimonials.tsx:46-60 | The counting loop and the half-star push build `StarsFor(rating)`. |
| TestimonialsFacts.StarsForFacts | InfluencerConnect/client/src/components/home/Testimonials.tsx:46-60 | The row holds the whole part of the rating in full stars, keyed in order. It holds one half star, placed last, exactly when the rating is fractional. |
| TestimonialsFacts.FullStarsOfRating | InfluencerConnect/client/src/components/home/Testimonials.tsx:48 | For a non-negative rating, the full stars are `Math.floor(rating)`. |
| TestimonialsFacts.TestimonialRows | InfluencerConnect/client/src/components/home/Testimonials.tsx:12-42 | A 4.5 rating shows four full stars and a half star; a 5 rating shows five full stars. |
| TestimonialsFacts.EveryRowHasFiveIcons | InfluencerConnect/client/src/components/home/Testimonials.tsx:4-44 | Every testimonial on the page shows five icons. |

## Left out

- Fetching, CSV tokenising (Papa Parse), React Query caching and refetching, mutations' network effects, toasts, routing and all rendering and icons. Each file or query arrives as a parameter: parsed rows, `Option` values for failed or absent data, or the list of requests a component issues.
- `toFixed`, `toLocaleString` and the one-decimal text of the M/K follower labels. The model keeps only which branch a formatter takes. Percentages and dates are not modelled either.
- Floating point. `parseFloat` is exact over decimals, and `Math.round` is floor(x + 0.5) over exact reals, so binary rounding is not modelled.
- `Number(row.id)` decimals, exponents and `Infinity`: only integer literals (optional sign, digits, hex, blank as 0) are modelled; other texts read as NaN.
- The 1000-rows-per-file bound that keeps the offset ids apart is not enforced. Its necessity is stated instead (`CardInfluencer.OffsetsCollideBeyondBound`).
- ProfilePage.ProfileEditor.UpdatePlatformField: requires a row the page shows. The page only calls it from rendered rows; an out-of-range index in JavaScript would create a sparse array.
- ProfilePage.ProfileErrors: the `website` URL check (`z.string().url()`) and the optional fields are not modelled.
- MessagesListFacts.LastMessageFacts: states only "latest". The tie-break (the earliest of equally dated messages, as a stable sort gives) is stated by `MessagesList.LatestAt`. The in-place `sort` is modelled by its result. `createdAt` is the millisecond timestamp `new Date(...).getTime()` reads.
- ChatWindow.SendDisabled: `sendMessageMutation.isPending` is a parameter. The pane does not model the mutation's life cycle, refetching every 5 seconds, scrolling or `formatTimestamp`.
- ChatWindow.ChatPane.MarkUnreadAsRead: models one run of the effect. Re-runs caused by a new mutation object are not modelled.
- The accept and reject buttons issue server-side status changes, which are not modelled. Only which rows show them is.
- The dashboards' mock performance and impressions chart data, the recharts components and `getPlatformIcon` are not modelled.
- BusinessDashboardFacts.BudgetInputFacts: the budget is `parseInt` of the typed text. NaN is `None`, and the schema rejects it.
- ViewProfileFacts.MetricsFacts: only the integer parts of `calculateMetrics` are modelled: the post count, the latest followers, whether growth is shown, and the rounded average likes. The growth figure and the engagement average are not modelled. "No data" is modelled as "fewer than two months", because `toFixed(1)` of a number never reads "0".
- ViewProfile.NumericId: a missing or empty id parameter is written as 0 directly. `ViewProfileFacts.NumericIdOfText` proves this equals `parseInt("0")`.
- `encodeURIComponent` on the link's platform is the identity in the model, because the link's platform is compared only after decoding.
- The card's `image` prop is unused by the source too. The card seeds its own image.
- The explore page and the loader treat nameless rows differently. The explore page keeps a row with no name as "Unknown Name" (explore-page.tsx:108-118). The loader drops it (schema.ts:208). The model follows each file's code.
- An empty CSV body is not modelled as the loader handles it. `fetchCSV` returns without settling its promise when the body is empty (schema.ts:168), so the load waits for ever. The model gives that file the rows [] instead.
- `toLowerCase` is ASCII-only, and lengths count characters, not UTF-16 code units.

## Findings

| source | as written | input that shows it | evidently intended | confidence | as-written member | corrected member |
|---|---|---|---|---|---|---|
| InfluencerConnect/client/src/pages/explore-page.tsx:133 | `replace(/[^\dMK]/gi, '')` removes the decimal point from the FOLLOWERS cell | "1.5M" becomes "15M", which `parseFollowers` reads as 15,000,000 instead of 1,500,000 | keep the decimal point, so the count reads as written. The page model (`Explore.FollowersMetric`) keeps the cleaning as written | not executed | Explore.CleanMetricAsWritten, ExploreFacts.CleaningDropsDecimalPoint | Explore.CleanMetric, ExploreFacts.CleaningKeepsFractionalCount |
