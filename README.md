# product-reviews, modelled in Dafny

This project models the core of the product-reviews Shopify app: the Node
scripts that build it, the admin filter bar of the reviews page and the
review-submission path of the backend. Each source file has its own module.

- `FirestoreSplit` (`IndexSplit.dfy`): `firestore-indexes/split.js`. It strips
  `//` comment lines, groups `indexes` and `fieldOverrides` by
  `collectionGroup` and emits one `<collection>.json` record per collection,
  in sorted order.
- `FirestoreBuild` (`IndexBuild.dfy`): `firestore-indexes/build.js`. It
  concatenates the `.json` files of the directory in sorted name order. The
  module also proves what building after splitting gives back.
- `GitlabCI`: `scripts/generateGitlabCI.js`. It builds `.gitlab-ci.yml` from
  the header, one job per staging number and the production job.
- `IndexFilter`: the filter state of `IndexFilterPR.js` as a class with its
  handlers, plus the tabs, `isEmpty`, `disambiguateLabel` and the
  `appliedFilters` derivation.
- `AliasRewrite`: the two `@functions/` alias rules of
  `packages/functions/esbuild.config.js`. One is the post-build rewrite of
  `require("@functions/...")` into normalised relative paths. The other is the
  resolver plugin's path rule.
- `Metafield`: Shopify global ids (`gid://shopify/<type>/<value>`).
- `PubSub`: the topic cache of `publishTopic.js`, as a class over a map.
- `ShopRepository`, `ReviewRepository`, `ReviewService`,
  `ClientApiController`: the `POST /clientApi/reviews` path. It looks the
  shop up by domain, saves the review with a fresh id and a server time, and
  answers `201` or `404`.

Shared modules: `Wrappers` holds `Option` and `Result`. `Strings` holds the
JavaScript string operations the code uses. `JsValues` holds a JSON-like
value with JavaScript truthiness, template-literal rendering (a `Date` as
`Date.prototype.toString()` in UTC) and object spread.

The model follows the code as written, including where the code does not do
what its names suggest:

- The controller passes the whole request body to `createReview` as its only
  argument. The body becomes the shop domain and the review data is
  `undefined`. No header is read.
- `reviewService.js:9` passes `shopData.id` and `shopData.shopifyDomain` to
  `save`, but `save(data)` (`reviewRepository.js:10`) takes only `data`. A
  stored review therefore carries no shop linkage, status or default flags.

Modelling choices:

- The environment is passed in as parameters. A directory listing is a
  `seq<string>`. File reading is a function from name to content.
  `path.relative` is a function parameter. `new Date()` is a `now: int`
  parameter.
- Firestore's random document ids are modelled by a counter (`AutoId`), which
  makes "never used before" provable.
- The `shops` collection is a sequence in the store's result order.
- A thrown error is an `Err` carrying its message.
- A plain `{}` used as a map already holds the members of `Object.prototype`.
  split() looks collections up in such objects, so a collection named
  `constructor`, `toString`, `__proto__` and so on makes it throw.

## Model

| member | source | states |
|---|---|---|
| `FirestoreSplit.StripComments` | firestore-indexes/split.js:13-19 | splits the text at line feeds, drops the comment lines and joins the rest with line feeds; what that keeps is the contract of `StripCommentsLines` and `StripCommentsNoComments` |
| `FirestoreSplit.CommentLineIff` | firestore-indexes/split.js:17 | a line is dropped exactly when its text, trimmed at the start, starts with `//` |
| `FirestoreSplit.StripCommentsLines` | firestore-indexes/split.js:13-19 | splitting the stripped text at line feeds gives exactly the non-comment lines of the input, in their original order; with no such line the result is `''` |
| `FirestoreSplit.CodeLinesKept` | firestore-indexes/split.js:17 | a line survives the filter if and only if it is a line of the input and not a comment line |
| `FirestoreSplit.CodeLinesAllCode` | firestore-indexes/split.js:17 | the filter keeps a list of comment-free lines whole |
| `FirestoreSplit.StripCommentsNoComments` | firestore-indexes/split.js:13-19 | text without comment lines passes through stripComments unchanged |
| `FirestoreSplit.TrailingCommentTrimmed` | firestore-indexes/split.js:17 | code followed by a trailing `//` comment does not start with `//` once trimmed |
| `FirestoreSplit.TrailingCommentKept` | firestore-indexes/split.js:17 | such a line is not a comment line and is kept unchanged |
| `FirestoreSplit.CollectionGroups` | firestore-indexes/split.js:29 | one key per entry, in input order: the i-th key is the i-th entry's `collectionGroup` |
| `FirestoreSplit.InCollectionAppend` | firestore-indexes/split.js:27-34 | grouping keeps input order: the group of a concatenation is the concatenation of the groups |
| `FirestoreSplit.InCollectionCount` | firestore-indexes/split.js:27-34 | every occurrence of an entry lands in the group of its own `collectionGroup` and in no other |
| `FirestoreSplit.GroupsPartition` | firestore-indexes/split.js:27-44 | the groups of all collections, taken once each, are a permutation of the input, so the group sizes add up to the input length |
| `FirestoreSplit.ConcatGroupsOrder` | firestore-indexes/split.js:27-44 | within concatenated groups, each collection's entries are its group in input order |
| `FirestoreSplit.HasInherited` | firestore-indexes/split.js:30-33 | some entry's `collectionGroup` names a member every object inherits from `Object.prototype`, the condition under which `GroupByCollection` fails |
| `FirestoreSplit.GroupByCollection` | firestore-indexes/split.js:27-34 | the grouping loop throws `<name>[collection].push is not a function` exactly when some entry's collection is a member every `{}` inherits from `Object.prototype`; otherwise it builds a map whose keys are exactly the collections present, each mapped to its entries in input order, and lists those keys once each in the order they were added; the same loop serves `fieldOverrides` (37-44) |
| `FirestoreSplit.KeyOrderIrrelevant` | firestore-indexes/split.js:46-55 | the sorted union is the same for every listing of each grouping's keys, so the order `Object.keys` returns them in (array-index-like keys first) does not change what split() writes |
| `FirestoreSplit.AllCollectionsUnion` | firestore-indexes/split.js:47-55 | the emitted collections are sorted, have no duplicates, and are exactly the union of both groupings' keys, so their number is the size of that union |
| `FirestoreSplit.SplitFiles` | firestore-indexes/split.js:55-64 | the files split() writes: one per collection of `AllCollections`, in that order; their names and contents are the contract of `SplitFilesShape` |
| `FirestoreSplit.SplitFilesShape` | firestore-indexes/split.js:55-64 | one file per distinct collection, named `<collection>.json`, holding that collection's entries of both arrays, with `[]` for a missing array |
| `FirestoreSplit.RecordFor` | firestore-indexes/split.js:56-59 | the record of a collection holds its entries of each array in input order, and `[]` where the grouping has no key |
| `FirestoreSplit.EmitFiles` | firestore-indexes/split.js:55-64 | the writing loop emits, for each sorted collection, the record of both groups, with `|| []` giving empty arrays for a collection missing from one grouping |
| `FirestoreSplit.Split` | firestore-indexes/split.js:21-71 | split() throws the `indexesByCollection` TypeError when an `indexes` entry names an inherited member, otherwise the `overridesByCollection` one when a `fieldOverrides` entry does; otherwise it writes exactly the files of the specification function `SplitFiles`, with a missing array read as empty |
| `FirestoreBuild.JsonNamesMember` | firestore-indexes/build.js:20-22 | a name is kept by the filter exactly when it is listed and ends with `.json` |
| `FirestoreBuild.JsonNamesNoDups` | firestore-indexes/build.js:20-22 | filtering keeps a duplicate-free listing duplicate-free |
| `FirestoreBuild.JsonFiles` | firestore-indexes/build.js:20-23 | the listing filtered to `.json` names and sorted; which names it holds is the contract of `JsonFilesSelected` |
| `FirestoreBuild.JsonFilesSelected` | firestore-indexes/build.js:20-23 | the files read are exactly the listed `.json` names, in sorted order |
| `FirestoreBuild.Build` | firestore-indexes/build.js:13-48 | starting from empty arrays, the output is the concatenation of each file's `indexes` and `fieldOverrides` in file order, with a missing key contributing nothing; there is one log line per file with its counts, and the totals are the sums of the per-file counts |
| `FirestoreBuild.ReadAll` | firestore-indexes/build.js:27-41 | the loop over the selected files appends each file's arrays in order and logs one report per file, with the file's name and counts |
| `FirestoreBuild.AddFile` | firestore-indexes/build.js:29-40 | one iteration pushes the file's `indexes` and `fieldOverrides` when present, or nothing, and reports their lengths, with 0 for a missing array |
| `FirestoreBuild.TotalsMatch` | firestore-indexes/build.js:31-48 | the logged totals equal the sums of the per-file logged counts |
| `FirestoreBuild.ConcatIndexes` | firestore-indexes/build.js:35-37 | each file's `indexes` (or nothing when absent) appended in file order; `Build` and `ConcatIndexesGroups` state what it holds |
| `FirestoreBuild.ConcatOverrides` | firestore-indexes/build.js:38-40 | the same for `fieldOverrides`; `Build` and `ConcatOverridesGroups` state what it holds |
| `FirestoreBuild.ConcatIndexesGroups` | firestore-indexes/build.js:35-37 | reading files that hold the groups of collections `ks` concatenates those groups |
| `FirestoreBuild.ConcatOverridesGroups` | firestore-indexes/build.js:38-40 | the same for `fieldOverrides` |
| `FirestoreBuild.SplitFileReadBack` | firestore-indexes/split.js:61-64 | in a directory split() wrote, a listed `.json` file reads back as the two groups of the collection it is named after |
| `FirestoreBuild.SplitFileListed` | firestore-indexes/split.js:55-64 | every collection of the original arrays has its `<collection>.json` file in that directory |
| `FirestoreBuild.SplitFilesRead` | firestore-indexes/build.js:20-40 | reading that directory in build()'s order gives, file by file, the groups of distinct collections that cover every original entry |
| `FirestoreBuild.BuildAfterSplit` | firestore-indexes/build.js:27-41 | build after a split that ran to the end gives a permutation of each original array and keeps each collection's entries in their original relative order |
| `Strings.JoinSplit` | firestore-indexes/split.js:16-18 | joining the pieces of `split('\n')` with `'\n'` gives the text back |
| `Strings.SplitJoin` | firestore-indexes/split.js:16-18 | splitting a join of line-feed-free lines gives the lines back |
| `Strings.SortStrings` | firestore-indexes/split.js:55 | `sort()` with no comparator gives a sorted permutation of its input |
| `Strings.SortedUnique` | firestore-indexes/split.js:55 | two sorted arrangements of the same strings are the same sequence, so the sorted result does not depend on the input order |
| `Strings.SortDistinctOrderFree` | firestore-indexes/split.js:47-55 | the sorted `Set` of two lists depends only on which strings the lists hold |
| `Strings.Distinct` | firestore-indexes/split.js:47-50 | a `Set` built from a list holds each element once and exactly the elements of the list |
| `Strings.NatToStringInjective` | scripts/generateGitlabCI.js:69-72 | distinct numbers render as distinct decimal strings |
| `Strings.ParseNatToString` | scripts/generateGitlabCI.js:75 | reading the decimal rendering back gives the number |
| `GitlabCI.Header` | scripts/generateGitlabCI.js:42-60 | the header template's text for the configuration; `TextLines` and `HeaderEmbedsConfig` state its lines and what it embeds |
| `GitlabCI.StagingJob` | scripts/generateGitlabCI.js:68-109 | the staging template's text for number `n`; `StagingJobNaming` states its key, environment, branch and variables |
| `GitlabCI.ProductionJob` | scripts/generateGitlabCI.js:115-155 | the production template's text; `ProductionTargets` states its branch and Firebase project |
| `GitlabCI.StagingJobs` | scripts/generateGitlabCI.js:170-172 | the staging jobs of the numbers, in list order; `AppendEach`, `ConcatMapAppend` and `StagingJobsAt` state its layout |
| `GitlabCI.UnlinesAppend` | scripts/generateGitlabCI.js:164-178 | the text of a concatenation of line lists is the concatenation of their texts |
| `GitlabCI.TextLines` | scripts/generateGitlabCI.js:42-60 | the text of a template splits at line feeds back into its lines |
| `GitlabCI.AppendEach` | scripts/generateGitlabCI.js:170-172 | the `content +=` loop appends each number's job in list order |
| `GitlabCI.GenerateGitlabCI` | scripts/generateGitlabCI.js:164-178 | the output is the header, then the staging jobs in list order, then the production job; with no staging numbers it is header then production job |
| `GitlabCI.GenerateShipped` | scripts/generateGitlabCI.js:16-32 | the shipped configuration has no staging numbers, so the script's own run writes the header followed directly by the production job |
| `GitlabCI.ConcatMapAppend` | scripts/generateGitlabCI.js:170-172 | the jobs of a concatenated number list are the concatenated jobs |
| `GitlabCI.StagingJobsAt` | scripts/generateGitlabCI.js:170-172 | the job of the k-th number sits between the jobs of the numbers before it and those after it |
| `GitlabCI.StagingKeyInjective` | scripts/generateGitlabCI.js:70 | distinct staging numbers give distinct job keys `staging_<n>:` |
| `GitlabCI.StagingJobNaming` | scripts/generateGitlabCI.js:68-108 | the staging job for `n` has key `staging_<n>:`, environment `staging_<n>` and branch `staging<n>`, reads its API key from `$STAGING<n>_SHOPIFY_API_KEY`, appends `$STAGING_<n>_ENV_FILE` to the functions' `.env`, and selects the Firebase project alias `staging<n>` |
| `GitlabCI.HeaderEmbedsConfig` | scripts/generateGitlabCI.js:43-56 | the header's first line names the configured image, and its corepack line the configured yarn version |
| `GitlabCI.ProductionTargets` | scripts/generateGitlabCI.js:128-152 | the production job runs only on the configured branch and deploys to the configured Firebase project |
| `IndexFilter.Tabs` | packages/assets/src/components/ProductReviews/IndexFilterPR/IndexFilterPR.js:23-29 | one tab per label, with content the label, index its position, id `<label>-<index>`, and only index 0 locked |
| `IndexFilter.ShippedTabs` | packages/assets/src/components/ProductReviews/IndexFilterPR/IndexFilterPR.js:21-29 | the component's tabs are `All-0` (locked), `Published-1` and `Unpublished-2` |
| `IndexFilter.TabIdsUnique` | packages/assets/src/components/ProductReviews/IndexFilterPR/IndexFilterPR.js:27 | two tabs have the same id exactly when they are the same tab, whatever the labels |
| `IndexFilter.DashDigitsSuffix` | packages/assets/src/components/ProductReviews/IndexFilterPR/IndexFilterPR.js:27 | the digits after the last dash of an id are determined by the id |
| `IndexFilter.AppliedFiltersOf` | packages/assets/src/components/ProductReviews/IndexFilterPR/IndexFilterPR.js:123-147 | the applied-filter list of the three filter values, or the TypeError one of the labels throws; its entries, order and failure are the contracts of `AppliedFiltersPresence`, `AppliedFiltersOrder` and `AppliedFiltersThrow` |
| `IndexFilter.IsEmpty` | packages/assets/src/components/ProductReviews/IndexFilterPR/IndexFilterPR.js:300-306 | an array is empty exactly when it has no elements; any other value exactly when it is `''`, `null` or `undefined` |
| `IndexFilter.EmptyVersusTruthy` | packages/assets/src/components/ProductReviews/IndexFilterPR/IndexFilterPR.js:124 | apart from arrays, an empty value is falsy; `[]` is the one value that is both empty and truthy |
| `IndexFilter.CustomerLabels` | packages/assets/src/components/ProductReviews/IndexFilterPR/IndexFilterPR.js:294 | each account status value becomes `Customer <value>`, in order |
| `IndexFilter.DisambiguateLabel` | packages/assets/src/components/ProductReviews/IndexFilterPR/IndexFilterPR.js:287-298 | `disambiguateLabel`: a switch on the key, with a TypeError as `Err`; each case is the contract of `LabelForKey` and the label lemmas below |
| `IndexFilter.MoneySpentLabelOf` | packages/assets/src/components/ProductReviews/IndexFilterPR/IndexFilterPR.js:289-290 | `value[0]` and `value[1]` rendered into the money label, a TypeError for `null` or `undefined`; `MoneySpentLabel` and `MoneySpentObjectLabel` state its result |
| `IndexFilter.AccountStatusLabelOf` | packages/assets/src/components/ProductReviews/IndexFilterPR/IndexFilterPR.js:293-294 | `value.map(...).join(', ')`, a TypeError for a value that is not an array; `AccountStatusLabel` states its result |
| `IndexFilter.MoneySpentLabel` | packages/assets/src/components/ProductReviews/IndexFilterPR/IndexFilterPR.js:289-290 | `moneySpent` with `[a, b]` gives `Money spent is between $a and $b` |
| `IndexFilter.MoneySpentObjectLabel` | packages/assets/src/components/ProductReviews/IndexFilterPR/IndexFilterPR.js:289-290 | an object with fields `"0"` and `"1"` gives the same label as the array of those two values |
| `IndexFilter.TaggedWithLabel` | packages/assets/src/components/ProductReviews/IndexFilterPR/IndexFilterPR.js:291-292 | `taggedWith` with `v` gives `Tagged with v` |
| `IndexFilter.AccountStatusLabel` | packages/assets/src/components/ProductReviews/IndexFilterPR/IndexFilterPR.js:293-294 | `accountStatus` joins the `Customer ` labels with `, `; an empty list gives `''` |
| `IndexFilter.OtherKeyLabel` | packages/assets/src/components/ProductReviews/IndexFilterPR/IndexFilterPR.js:295-296 | any other key returns the value unchanged |
| `IndexFilter.LabelForKey` | packages/assets/src/components/ProductReviews/IndexFilterPR/IndexFilterPR.js:287-298 | dispatching on a field's key name picks that field's case |
| `IndexFilter.CollectEntries` | packages/assets/src/components/ProductReviews/IndexFilterPR/IndexFilterPR.js:123-147 | the list holds one entry per applied candidate, in order, with its key, its label and its field's remove handler |
| `IndexFilter.CollectFails` | packages/assets/src/components/ProductReviews/IndexFilterPR/IndexFilterPR.js:123-147 | the derivation throws exactly when the label of some applied field throws |
| `IndexFilter.CollectPresence` | packages/assets/src/components/ProductReviews/IndexFilterPR/IndexFilterPR.js:123-147 | a field has an entry exactly when a candidate for it is applied |
| `IndexFilter.CollectKeys` | packages/assets/src/components/ProductReviews/IndexFilterPR/IndexFilterPR.js:125-141 | each entry's key is its field's name |
| `IndexFilter.CollectOrder` | packages/assets/src/components/ProductReviews/IndexFilterPR/IndexFilterPR.js:123-147 | entries come in the candidates' order |
| `IndexFilter.AppliedFiltersPresence` | packages/assets/src/components/ProductReviews/IndexFilterPR/IndexFilterPR.js:124-140 | there is an account status entry iff the value is truthy and non-empty, a money spent entry iff it is truthy, and a tagged-with entry iff it is non-empty |
| `IndexFilter.AppliedFiltersOrder` | packages/assets/src/components/ProductReviews/IndexFilterPR/IndexFilterPR.js:123-147 | entries are keyed by their field and come in the order account status, money spent, tagged with |
| `IndexFilter.AppliedFiltersThrow` | packages/assets/src/components/ProductReviews/IndexFilterPR/IndexFilterPR.js:124-128 | the derivation throws exactly when the account status is truthy, non-empty and not an array (`value.map` is missing) |
| `IndexFilter.FilterState.constructor` | packages/assets/src/components/ProductReviews/IndexFilterPR/IndexFilterPR.js:44-47 | the initial state is `undefined`, `undefined`, `''`, `''` |
| `IndexFilter.FilterState.AccountStatusChange` | packages/assets/src/components/ProductReviews/IndexFilterPR/IndexFilterPR.js:49 | sets the account status and leaves the other fields unchanged |
| `IndexFilter.FilterState.MoneySpentChange` | packages/assets/src/components/ProductReviews/IndexFilterPR/IndexFilterPR.js:50 | sets the money range and leaves the other fields unchanged |
| `IndexFilter.FilterState.TaggedWithChange` | packages/assets/src/components/ProductReviews/IndexFilterPR/IndexFilterPR.js:51 | sets the tag and leaves the other fields unchanged |
| `IndexFilter.FilterState.QueryChange` | packages/assets/src/components/ProductReviews/IndexFilterPR/IndexFilterPR.js:52 | sets the query and leaves the other fields unchanged |
| `IndexFilter.FilterState.AccountStatusRemove` | packages/assets/src/components/ProductReviews/IndexFilterPR/IndexFilterPR.js:53 | resets the account status to `undefined` and leaves the other fields unchanged |
| `IndexFilter.FilterState.MoneySpentRemove` | packages/assets/src/components/ProductReviews/IndexFilterPR/IndexFilterPR.js:54 | resets the money range to `undefined` and leaves the other fields unchanged |
| `IndexFilter.FilterState.TaggedWithRemove` | packages/assets/src/components/ProductReviews/IndexFilterPR/IndexFilterPR.js:55 | resets the tag to `''` and leaves the other fields unchanged |
| `IndexFilter.FilterState.QueryValueRemove` | packages/assets/src/components/ProductReviews/IndexFilterPR/IndexFilterPR.js:56 | resets the query to `''` and leaves the other fields unchanged |
| `IndexFilter.FilterState.ClearAll` | packages/assets/src/components/ProductReviews/IndexFilterPR/IndexFilterPR.js:57-67 | resets the four fields to their initial values, after which no filter is applied |
| `IndexFilter.FilterState.AppliedFilters` | packages/assets/src/components/ProductReviews/IndexFilterPR/IndexFilterPR.js:123-147 | the three conditional pushes compute the derivation `AppliedFiltersOf` on the current state |
| `AliasRewrite.NormalizedPath` | packages/functions/esbuild.config.js:37-47 | the path prefixed with `./` unless it starts with `.`, slashed, and suffixed with `.js` unless it ends with it; `NormalizedPathShape` and `NormalizeIdempotent` state its shape |
| `AliasRewrite.Slashed` | packages/functions/esbuild.config.js:42 | every backslash becomes a slash and every other character is kept |
| `AliasRewrite.NormalizeRelativePath` | packages/functions/esbuild.config.js:34-47 | the callback's three reassignments compute `NormalizedPath` |
| `AliasRewrite.NormalizedPathShape` | packages/functions/esbuild.config.js:37-47 | the path starts with `.`, holds no backslash and ends with `.js`; `.js` is appended exactly when the slashed path lacks it |
| `AliasRewrite.SlashedNoBackslash` | packages/functions/esbuild.config.js:42 | a path without backslashes is left unchanged by the slash replacement |
| `AliasRewrite.NormalizeIdempotent` | packages/functions/esbuild.config.js:37-47 | normalising twice gives the same path as normalising once |
| `AliasRewrite.Replacement` | packages/functions/esbuild.config.js:49 | `require("<path>")` around the normalised path |
| `AliasRewrite.ScanFrom` | packages/functions/esbuild.config.js:25-50 | the global replace from position `i` and whether the callback ran; `RewriteContent`, `ScanModified` and `ScanUnmodified` state its result |
| `AliasRewrite.QuoteFreeEnd` | packages/functions/esbuild.config.js:25 | `[^"']+` runs up to the first quote at or after its start, or to the end of the text |
| `AliasRewrite.MatchAt` | packages/functions/esbuild.config.js:25 | a match captures a non-empty, quote-free import path and ends after it |
| `AliasRewrite.RewriteContent` | packages/functions/esbuild.config.js:25-50 | the global replace scans left to right, replaces each match and copies other characters, and sets `modified` as the callback runs; it computes `ScanFrom` |
| `AliasRewrite.ScanModified` | packages/functions/esbuild.config.js:27-28 | `modified` is set exactly when the text holds a match of the alias pattern |
| `AliasRewrite.ScanUnmodified` | packages/functions/esbuild.config.js:27-50 | without a match the text is left exactly as it was |
| `AliasRewrite.TransformAliasImports` | packages/functions/esbuild.config.js:13-55 | the pass visits the emitted files in order and writes back exactly the rewritten files, in that order |
| `AliasRewrite.WrittenIffModified` | packages/functions/esbuild.config.js:52-54 | a file is written exactly when it is listed and its rewrite set the flag, and what is written is the rewritten text |
| `AliasRewrite.WrittenIffMatched` | packages/functions/esbuild.config.js:25-54 | a file is written exactly when it is listed and holds a `require` of an `@functions/` path |
| `AliasRewrite.WrittenContent` | packages/functions/esbuild.config.js:27-54 | each written file's content is its text with every alias import rewritten |
| `AliasRewrite.ReplaceFirst` | packages/functions/esbuild.config.js:113 | `replace` with a string pattern changes only the first occurrence; at a prefix it is the contract of `ResolveAliasPath` |
| `AliasRewrite.ResolveAlias` | packages/functions/esbuild.config.js:112-115 | the file the `onResolve` hook resolves an `@functions/` import to, `None` when the filter does not match; `ResolveAliasPath` and `ResolveAliasOthers` state its result |
| `AliasRewrite.ResolveAliasPath` | packages/functions/esbuild.config.js:112-115 | the resolver strips `@functions/` and appends `.js` exactly when the rest does not already end with it |
| `AliasRewrite.ResolveAliasOthers` | packages/functions/esbuild.config.js:112 | specifiers without the `@functions/` prefix are not resolved by the plugin |
| `JsValues.ToString` | packages/functions/src/helpers/metafield/index.js:2 | how a template literal renders a value: `undefined`, `null`, `true`/`false`, decimal numbers, the text itself, comma-joined arrays with nullish elements empty, `[object Object]` and `Date` text; `NumberAndStringCollide` and `DateAndNumberDiffer` state consequences |
| `JsValues.Truthy` | packages/assets/src/components/ProductReviews/IndexFilterPR/IndexFilterPR.js:124-140 | JavaScript truthiness: `undefined`, `null`, `false`, `0` and `''` are falsy; `EmptyVersusTruthy` relates it to `isEmpty` |
| `JsValues.Index` | packages/assets/src/components/ProductReviews/IndexFilterPR/IndexFilterPR.js:289-290 | `value[i]`: an array element, a one-character string, the object field named `i`, otherwise `undefined`; `MoneySpentLabel` and `MoneySpentObjectLabel` use it |
| `JsValues.Spread` | packages/functions/src/repositories/reviewRepository.js:12-16 | the own enumerable fields `...value` copies: an object's fields, each array element under its index, nothing for a value that is not an object, array or string |
| `Metafield.GenerateShopifyGid` | packages/functions/src/helpers/metafield/index.js:1-3 | every generated id starts with `gid://shopify/`, followed by the type, a slash and the value as a template literal renders it (a `Date` through `Date.prototype.toString()`) |
| `Metafield.GenerateShopifyProductGid` | packages/functions/src/helpers/metafield/index.js:5-7 | a product id is `gid://shopify/Product/` followed by the rendered value |
| `JsValues.DateString` | packages/functions/src/helpers/metafield/index.js:2 | `Date.prototype.toString` in UTC, `Invalid Date` outside the time range; `DayStringEpoch`, `TimeOfDayStringMidnight` and `DateStringStart` state its form |
| `JsValues.DayStringEpoch` | packages/functions/src/helpers/metafield/index.js:2 | a `Date` at the epoch renders its date as `Thu Jan 01 1970` |
| `JsValues.TimeOfDayStringMidnight` | packages/functions/src/helpers/metafield/index.js:2 | and its time of day as `00:00:00` |
| `JsValues.DateStringStart` | packages/functions/src/helpers/metafield/index.js:2 | a rendered `Date` starts with a capital letter, a weekday or `Invalid Date` |
| `Metafield.DateAndNumberDiffer` | packages/functions/src/helpers/metafield/index.js:5-7 | a `Date` and a number never give the same product id |
| `Metafield.SplitFirstOf` | packages/functions/src/helpers/metafield/index.js:2 | splitting at the first separator recovers a separator-free head and the rest |
| `Metafield.ParseGenerated` | packages/functions/src/helpers/metafield/index.js:2 | parsing a generated id gives back its type and rendered value, for any type without a slash |
| `Metafield.GenerateParsed` | packages/functions/src/helpers/metafield/index.js:2 | every id of the `gid://shopify/<type>/` form is the generated id of its parts |
| `Metafield.ProductGidRoundTrip` | packages/functions/src/helpers/metafield/index.js:2-6 | stripping the product prefix from a product id recovers the rendered value exactly |
| `Metafield.ProductGidValueRoundTrip` | packages/functions/src/helpers/metafield/index.js:2-6 | every text with the product prefix is the product id of its remainder |
| `Metafield.GidInjective` | packages/functions/src/helpers/metafield/index.js:1-3 | two ids of slash-free types are equal exactly when their types and rendered values are |
| `Metafield.ProductGidInjective` | packages/functions/src/helpers/metafield/index.js:5-7 | distinct string values give distinct product ids |
| `Metafield.NumberAndStringCollide` | packages/functions/src/helpers/metafield/index.js:2 | the number `7` and the string `'7'` render alike and so name the same product |
| `PubSub.TopicCache.constructor` | packages/functions/src/helpers/pubsub/publishTopic.js:7 | the cache starts empty and no topic has been created |
| `PubSub.TopicCache.GetTopic` | packages/functions/src/helpers/pubsub/publishTopic.js:9-14 | afterwards the name is cached and the returned handle is the cached one; a cached name returns the old handle with nothing created, and an uncached name creates exactly one new handle with the 540000 ms timeout; other entries are unchanged; the factory has run once per cached name |
| `PubSub.Message` | packages/functions/src/helpers/pubsub/publishTopic.js:18 | serialising fails exactly for `undefined`; any other value becomes a message for the topic carrying that value |
| `PubSub.TopicCache.PublishTopic` | packages/functions/src/helpers/pubsub/publishTopic.js:16-20 | publishes the data on the topic the cache holds for the name, creating a fresh handle only on first use and keeping every other cached handle; publishing `undefined` throws after the topic is cached |
| `PubSub.TopicCache.PublishTopicAsync` | packages/functions/src/helpers/pubsub/publishTopic.js:27-33 | the same cache resolution, framing and `undefined` failure as `publishTopic`, with the send not awaited |
| `PubSub.PublishKeepsOtherTopics` | packages/functions/src/helpers/pubsub/publishTopic.js:9-20 | publishing on another name leaves a cached name's handle in place |
| `PubSub.RepeatedRequestsShareTopic` | packages/functions/src/helpers/pubsub/publishTopic.js:9-33 | repeated requests for a name return the same handle, both publish variants use it, and the factory ran for the name exactly once |
| `PubSub.CreatedOnce` | packages/functions/src/helpers/pubsub/publishTopic.js:10-11 | a name in the duplicate-free creation log occurs in it exactly once |
| `ShopRepository.Present` | packages/functions/src/repositories/shopRepository.js:28-31 | the result has the document's fields plus `id`, every data field is kept, and a data field named `id` overrides the document id |
| `ShopRepository.DomainMatches` | packages/functions/src/repositories/shopRepository.js:20 | the `where('shopifyDomain', '==', value)` filter: the document has the field and it equals the value |
| `ShopRepository.FirstMatch` | packages/functions/src/repositories/shopRepository.js:19-26 | the first document whose `shopifyDomain` equals the argument, or none exactly when no document matches |
| `ShopRepository.GetShopByShopifyDomain` | packages/functions/src/repositories/shopRepository.js:18-32 | `null` exactly when no shop has the domain; otherwise the presented first matching shop |
| `ShopRepository.UniqueDomainFound` | packages/functions/src/repositories/shopRepository.js:19-31 | when one shop has the domain, the lookup returns that shop wherever it is stored |
| `ShopRepository.NonStringDomainFindsNothing` | packages/functions/src/repositories/shopRepository.js:19-24 | when every stored domain is a string, a non-string argument finds no shop |
| `ReviewRepository.AutoIdInjective` | packages/functions/src/repositories/reviewRepository.js:11 | different allocations give different document ids |
| `ReviewRepository.ReviewPayload` | packages/functions/src/repositories/reviewRepository.js:12-16 | the payload has the data's fields plus `id` and `createdAt`; `createdAt` is always the server time; `id` is the new id unless the data has its own; every other data field is kept unchanged |
| `ReviewRepository.FindAll` | packages/functions/src/repositories/reviewRepository.js:8 | resolves to `undefined` |
| `ReviewRepository.GetOne` | packages/functions/src/repositories/reviewRepository.js:23 | resolves to `undefined` |
| `ReviewRepository.ReviewCollection.constructor` | packages/functions/src/repositories/reviewRepository.js:6 | the collection starts empty and no id has been handed out |
| `ReviewRepository.ReviewCollection.Save` | packages/functions/src/repositories/reviewRepository.js:10-21 | allocates an id not used before, stores the payload under it and returns the stored payload; exactly one document is added and the others are unchanged |
| `ReviewRepository.SaveTwice` | packages/functions/src/repositories/reviewRepository.js:10-21 | saving the same data twice stores two documents with different ids |
| `ReviewRepository.PayloadHasNoShopLinkage` | packages/functions/src/repositories/reviewRepository.js:10-16 | the payload has a `shopId` or `shopifyDomain` only when the submitted data does |
| `ReviewRepository.UndefinedDataPayload` | packages/functions/src/repositories/reviewRepository.js:12-16 | spreading `undefined` adds nothing, so the payload is just the id and the time |
| `ReviewService.GetReviews` | packages/functions/src/services/reviewService.js:4 | resolves to `undefined` |
| `ReviewService.NullIdMessage` | packages/functions/src/services/reviewService.js:9 | the TypeError message of reading `id` of `null`, the error `CreateReview` ends with when no shop has the domain |
| `ReviewService.CreateReview` | packages/functions/src/services/reviewService.js:6-12 | the lookup comes first; when it finds nothing, reading `shopData.id` throws a TypeError and nothing is stored; otherwise the result is exactly what `save(data)` stored, with only `data` reaching the store |
| `ClientApiController.Context.constructor` | packages/functions/src/controllers/clientApiController.js:3 | a response starts as Koa's `404` with no body |
| `ClientApiController.SuccessBody` | packages/functions/src/controllers/clientApiController.js:10-13 | `{success: true, data}`, the body `CreateReview` answers `201` with |
| `ClientApiController.FailureBody` | packages/functions/src/controllers/clientApiController.js:16-19 | `{success: false, error: message}`, the body `CreateReview` answers `404` with |
| `ClientApiController.CreateReview` | packages/functions/src/controllers/clientApiController.js:3-22 | exactly one outcome: `201` with `{success: true, data}` holding the saved review and one id issued when the body, used as the domain, finds a shop; otherwise `404` with `{success: false, error}`, nothing stored and no id issued |
| `ClientApiController.ObjectBodyIsNotFound` | packages/functions/src/controllers/clientApiController.js:5-7 | when stored domains are strings, an object or missing body is always answered `404` and stores nothing |

## Left out

- File system, console output and process arguments (the `fs` reads and writes, `console.log`, `--production`/`--watch`) are parameters or results of the model, or left out.
- JSON parsing and serialisation (`JSON.parse`, `JSON.stringify`, `Buffer.from`) are left out. Index entries are opaque records with a `collectionGroup`, which the model takes to be a string. In the code any value is used as the grouping key: an entry without one is grouped under the key `"undefined"` and written to `undefined.json`, and other non-strings group under their string form. A published message is the data value itself. The one serialisation failure is kept: publishing `undefined` throws a TypeError after the topic is cached.
- `glob.sync`, `path.dirname`, `path.join`, `path.relative` and `path.resolve` are not modelled. The listing is a parameter, `path.relative` is a function parameter, and the resolver returns the path before `path.resolve`.
- The esbuild invocation, watch mode and `copyNonJsFiles` in `esbuild.config.js` are build tooling outside the alias rules.
- The JSX of `IndexFilterPR.js` is not modelled. That covers the filter widgets, the sort options, the review table and the `onAction` callbacks, which are rendering only.
- The Firestore, Pub/Sub and Shopify clients are network services. Store failures (a rejected `set` or query) and the publish itself (`topic.publish`, its `catch` and logging) are not modelled.
- Firestore's rejection of `undefined` as a query value is library behaviour and is not modelled. In the model the lookup then matches only a document whose `shopifyDomain` is `undefined` (`DomainMatches(doc, Undefined)` holds for such a document). Firestore never stores `undefined` as a field value, so for stored documents it matches none.
- `ClientApiController.ObjectBodyIsNotFound`: for a missing (`undefined`) body the model answers `404` with the null-`id` TypeError message. In the store, the `where` query at `shopRepository.js:20` throws first, so the `404` carries Firestore's own message. The status and the empty store effect are the same.
- `getShopById`, `metafieldRepository`, `metafieldService`, `appController` and `shopController` are not part of this model.
- `Strings.LexLe` compares Unicode scalar values. `sort()` compares UTF-16 code units, and the two orders differ only for characters outside the Basic Multilingual Plane.
- `ReviewRepository.AutoId` stands for Firestore's random 20-character ids with a counter. Uniqueness is therefore certain in the model, while the store only makes it overwhelmingly likely.
- `JsValues.DateString` renders a `Date` in UTC, the time zone Cloud Functions run in. Under another process time zone the fields, the offset and the zone name would differ.
- Numbers are integers in `JsValues`. Floating-point money ranges render through the integer case only. `JsValues.ToString` renders every integer in plain decimal, while JavaScript switches to exponent form from 1e21 (`${1e21}` is `1e+21`).
- `JsValues.Index` and `JsValues.Spread` count a string's Unicode scalar values. JavaScript counts UTF-16 code units, so the two differ for characters outside the Basic Multilingual Plane.
- `GitlabCI.Config` holds staging numbers as natural numbers. The script would render any number in `${num}`, including negative or fractional ones.
