# go-wxr in Dafny

A model of go-wxr's core, written in Dafny. go-wxr converts a WordPress eXtended RSS (WXR) export into a list of post records. The model starts from a decoded document: a root element name plus a channel of items. It follows what the Go package does:

- it checks the root is `<rss>`;
- it builds an attachment index once per channel (attachment ID to URL, and parent post ID to attachment URLs);
- it walks the items in document order and drops any item whose post type is not `post`, whose status is not `publish`, whose ID is zero, or whose title, content and excerpt are all empty;
- it turns each kept item into a `Post` by running the field extractors (author, excerpt, date, featured image, categories and tags) and copying the plain fields;
- the variant with a context also checks for cancellation before decoding, after decoding, and before each item.

Modules follow the Go files:

| Dafny module | Go file |
|---|---|
| `Text` | the `strings` and `strconv` functions the package uses |
| `Document` | `xml.go` |
| `Posts` | `post.go` |
| `Metadata` | `metadata.go` |
| `Attachments` | `attachments.go` |
| `Extractors` | `extractor.go` |
| `Categories` | `categories.go` |
| `Filters` | `filter.go` |
| `Wxr` | `wxr.go` |

Each loop of the source that builds a collection is a Dafny method with loop invariants, proved against a specification function:

- `Attachments.BuildAttachmentIndex` against `IndexOf`;
- `Categories.CollectNames` against `Names`;
- `Wxr.Parser.ParseLoop` against `ParseItems` and `CancelPoint`.

The two search loops that return a single value, the key and entry loops of `getMetaValue` (metadata.go:8-16) and the candidate loop of `determineUploadsBaseURL` (attachments.go:70-79), are recursive functions: `Metadata.GetMetaValue` with `Metadata.FirstValueForKey`, and `Attachments.FirstBaseCandidate`.

The lemmas then state what the functions promise: which entries the index holds, the fallback order of each extractor, the filter-and-map character of the parse loop, and how cancellation cuts it short.

`Parser` is a class. Its fields are the logger, the filter, and the nullable extractor objects, which `transformItem` initialises lazily. `FeaturedImageExtractor` is a class too, because `transformItem` overwrites its `attachmentIndex` field before each use. Go's nil slices are kept apart from empty ones:

- categories and tags from an extractor are `Option<seq<string>>`;
- the posts of a parse result are `Option<seq<Post>>`, where `None` means a nil slice.

Three behaviours of the code are easy to miss; the model follows the code:

- The parser stores a `Filter`, and the doc comment of `WithFilter` (wxr.go:79-81) calls it a custom filter for the parser, but `Parse` and `ParseWithContext` never consult it. They hard-code the post-type and status checks. `Filters.ShouldInclude` is modelled for its own sake.
- When the context is already done before decoding (wxr.go:317-321) or after decoding (wxr.go:331-335), or when decoding fails (wxr.go:228-231, 325-328), the posts returned are nil, not an empty list. Only a successful parse, or a cancellation between items, returns a non-nil slice.
- A base-site URL made only of slashes wins the choice of uploads base and gives `""`. Later candidates are never tried (attachments.go:73-77, `Attachments.SlashOnlyBaseHidesLaterCandidates`).

## Model

| member | source | states |
|---|---|---|
| Text.TrimLeftSpaceSpec | metadata.go:23 | trimming on the left removes exactly the leading white space: the result is a suffix not starting with white space |
| Text.TrimRightSpaceSpec | metadata.go:23 | trimming on the right removes exactly the trailing white space: the result is a prefix not ending with white space |
| Text.TrimSpace | metadata.go:23 | definition of `strings.TrimSpace` over the Unicode White_Space set; its contract is `TrimSpaceSpec` and `TrimSpaceIdempotent` |
| Text.EqualFold | metadata.go:10 | definition of `strings.EqualFold` with ASCII folding; its contract is `FirstValueUpToCase`, `GetMetaValueUpToCase` and `OtherLengthKeysFindNothing` |
| Text.TrimSpaceSpec | metadata.go:23 | `strings.TrimSpace` yields a trimmed string, no longer than the input, empty exactly when the input is blank, and leaves trimmed input unchanged |
| Text.TrimSpaceIdempotent | metadata.go:23 | trimming twice is trimming once |
| Text.TrimRightSlashes | attachments.go:75 | `strings.TrimRight(s, "/")` is the longest prefix not ending in "/", and only slashes were removed |
| Text.Atoi | extractor.go:53 | a successful `strconv.Atoi` came from a non-empty string and lies in the 64-bit `int` range |
| Text.Decimal | extractor.go:53 | the decimal form of a natural number is non-empty, all digits, without a leading zero |
| Text.DigitsOfDecimal | extractor.go:53 | the digits of the decimal form have the number's value |
| Text.AtoiDecimal | extractor.go:53 | `Atoi` gives back any non-negative `int` from its decimal form |
| Text.AtoiNegativeDecimal | extractor.go:53 | `Atoi` accepts a leading "-" and gives back the negated number |
| Text.AtoiRejectsNonDigit | extractor.go:53 | any non-digit after the optional sign, white space included, makes `Atoi` fail |
| Text.AtoiOutOfRange | extractor.go:53 | a decimal beyond the 64-bit range makes `Atoi` fail |
| Metadata.CleanMetaValue | metadata.go:22-31 | definition of `cleanMetaValue`; its contract is `CleanMetaValueSpec` and `CleanMetaValueIdempotent` |
| Metadata.FirstValueForKey | metadata.go:9-15 | definition of the inner loop of `getMetaValue` for one key; its contract is `FirstValueForKeySpec` and `FirstValueUpToCase` |
| Metadata.GetMetaValue | metadata.go:7-18 | definition of `getMetaValue`; its contract is `GetMetaValueSpec`, `FirstMatchUnique`, `GetMetaValueUsable` and `GetMetaValueUpToCase` |
| Metadata.CleanMetaValueSpec | metadata.go:22-31 | a cleaned value is "" exactly when the input is blank or "null" in any case; otherwise it is the trimmed input |
| Metadata.CleanMetaValueIdempotent | metadata.go:22-31 | cleaning is idempotent |
| Metadata.FirstValueForKeySpec | metadata.go:9-15 | for one key, the result is "" exactly when no entry with that (trimmed, case-folded) key has a usable value; otherwise it is the cleaned value of the first such entry |
| Metadata.GetMetaValueSpec | metadata.go:7-18 | `getMetaValue` is "" exactly when no key has a usable entry; otherwise it is the cleaned value of the first usable entry for the first key that has one (keys outrank document order) |
| Metadata.FirstMatchUnique | metadata.go:7-18 | the key and entry chosen by `getMetaValue` are unique |
| Metadata.GetMetaValueUsable | metadata.go:7-18 | the result is "" or usable: non-empty, trimmed, not "null" in any case |
| Metadata.LowerCharSpace | metadata.go:10 | helper fact: lower-casing never turns a space into a non-space or back |
| Metadata.UntrimmedKeyNeverMatches | metadata.go:10 | a candidate key starting with white space never matches, because entry keys are trimmed and candidates are not |
| Metadata.FirstValueUpToCase | metadata.go:10 | the lookup for one key does not see case differences in the key or in the entry keys |
| Metadata.GetMetaValueUpToCase | metadata.go:7-18 | `getMetaValue` does not see case differences in the keys or in the entry keys |
| Metadata.KeyPriorityExample | metadata.go:7-18 | "redator" outranks "autor" even when it appears later; a "NULL" value is not usable |
| Metadata.OtherLengthKeysFindNothing | metadata.go:10 | entry keys whose trimmed length differs from every candidate key never match |
| Attachments.DetermineUploadsBaseURL | attachments.go:70-79 | definition of `determineUploadsBaseURL`, whose candidate loop is the recursive helper `FirstBaseCandidate`; its contract is `UploadsBaseIsFirstNonBlank`, `UploadsBaseNoTrailingSlash` and `SlashOnlyBaseHidesLaterCandidates` |
| Attachments.ResolveAttachmentURL | attachments.go:43-66 | definition of `resolveAttachmentURL`, whose last step (attachments.go:60-62) is the helper `ConstructedURL`; its contract is `ResolveEmptyIff`, `ResolvePrecedence` and `ResolveConstructed` |
| Attachments.AddAttachment | attachments.go:25-35 | definition of one iteration of the `buildAttachmentIndex` loop; its contract is `AddAttachmentById` and `ParentURLsSnoc` |
| Attachments.IndexOf | attachments.go:16-39 | definition of the index the loop builds, as a fold of `AddAttachment`; its contract is `IndexById`, `IndexByParent` and `IndexWellFormed` |
| Attachments.BuildAttachmentIndex | attachments.go:16-39 | the loop builds exactly `IndexOf` of the channel's items over the uploads base |
| Attachments.FirstBaseCandidateNoTrailingSlash | attachments.go:70-79 | `FirstBaseCandidate`, the candidate loop, never returns a value ending in "/" |
| Attachments.UploadsBaseNoTrailingSlash | attachments.go:70-79 | the uploads base is "" or does not end in "/" |
| Attachments.UploadsBaseIsFirstNonBlank | attachments.go:70-79 | the base is the first non-blank of base-site URL, base-blog URL and link, trimmed and stripped of trailing slashes; later fields do not matter once an earlier one is non-blank |
| Attachments.SlashOnlyBaseHidesLaterCandidates | attachments.go:70-79 | a base-site URL of "/" gives an empty base even when the base-blog URL is set |
| Attachments.ConstructedURLNonEmpty | attachments.go:60-62 | helper fact: a constructed URL is non-empty and starts with the base |
| Attachments.ResolveEmptyIff | attachments.go:43-66 | `resolveAttachmentURL` is "" exactly when attachment URL, link and GUID are blank and there is no attached file or no base |
| Attachments.ResolvePrecedence | attachments.go:43-66 | attachment URL outranks link, which outranks GUID, each trimmed; a non-blank attachment URL alone decides |
| Attachments.ResolveConstructed | attachments.go:59-62 | with the three fields blank, the URL is base + "/wp-content/uploads/" + attached file with one leading "/" removed |
| Attachments.ParentURLsSnoc | attachments.go:24-36 | appending an item extends the parent's URL list by its URL exactly when it contributes to that parent |
| Attachments.AddAttachmentById | attachments.go:25-35 | one step of the loop writes the ID of a contributing attachment and leaves every other ID as it was |
| Attachments.IndexByIdDomain | attachments.go:24-36 | an ID is in `URLsByID` exactly when some contributing attachment has that ID |
| Attachments.IndexByIdValue | attachments.go:24-36 | a present ID maps to the URL of the last contributing attachment with that ID |
| Attachments.IndexById | attachments.go:24-36 | both of the above: the ID map domain and the last-one-wins value |
| Attachments.IndexByParent | attachments.go:24-36 | `URLsByParent[p]` lists, in document order, the URLs of the contributing attachments with parent `p`; no key `p <= 0` and no empty list is stored |
| Attachments.ParentURLsNonEmpty | attachments.go:29-33 | every URL listed for a parent is non-empty |
| Attachments.IndexWellFormed | attachments.go:16-39 | every URL in either map is non-empty, every parent key is positive, every parent list non-empty |
| Extractors.FeaturedImageExtractor.constructor | wxr.go:128 | a fresh extractor has no index |
| Extractors.FeaturedImageExtractor.WithIndex | wxr.go:178 | an extractor created with an index holds that index |
| Extractors.FeaturedImageExtractor.Extract | extractor.go:44-66 | the method returns `FeaturedImage` of the item over its index; a nil index is refused, and every call site sets it first (wxr.go:177-181) |
| Extractors.Author | extractor.go:13-19 | definition of `AuthorExtractor.Extract`; its contract is `AuthorSpec` and `AuthorKeyOrder` |
| Extractors.Excerpt | extractor.go:26-32 | definition of `ExcerptExtractor.Extract`; its contract is `ExcerptSpec` and `ExcerptNotTrimmed` |
| Extractors.ThumbnailId | extractor.go:52-53 | definition of the `_thumbnail_id` lookup parsed by `strconv.Atoi`; its contract is the `Text.Atoi` lemmas and `ExampleMetaThumbnail` |
| Extractors.FeaturedImage | extractor.go:44-66 | definition of `FeaturedImageExtractor.Extract` over a given index, with the banner lookup (extractor.go:46) as the helper `Banner`; its contract is `FeaturedImageBannerWins`, `FeaturedImageThumbnail`, `FeaturedImageParentFallback`, `FeaturedImageFromAttachments` and `FeaturedImageEmptyIff` |
| Extractors.DateSource | extractor.go:75-81 | definition of the date fallback chain; its contract is `DateSourceSpec` |
| Extractors.Date | extractor.go:74-89 | definition of `DateExtractor.Extract`; its contract is `DateNormalisesOnlyNonEmpty` |
| Extractors.AuthorSpec | extractor.go:13-19 | the author is trimmed, is the meta author when there is one, and is the trimmed dc:creator otherwise |
| Extractors.AuthorKeyOrder | extractor.go:14 | without a usable "redator", a usable "autor" is the author |
| Extractors.ExcerptSpec | extractor.go:26-32 | a non-blank excerpt:encoded is returned as it is; a blank one gives way to the "subtitulo" meta value |
| Extractors.ExcerptNotTrimmed | extractor.go:26-32 | the returned excerpt keeps its surrounding white space (a small fact; the main promise is `ExcerptSpec`) |
| Extractors.FeaturedImageBannerWins | extractor.go:46-49 | a banner meta value decides the featured image whatever the index holds (the first step of the chain; the full chain is `FeaturedImageEmptyIff` and the two lemmas after) |
| Extractors.FeaturedImageThumbnail | extractor.go:52-58 | without a banner, a `_thumbnail_id` present in `URLsByID` gives that URL |
| Extractors.FeaturedImageParentFallback | extractor.go:60-65 | otherwise the first URL listed for the post's ID, or "" when there is none |
| Extractors.FeaturedImageFromAttachments | extractor.go:44-66 | over the index of a channel, the featured image is the URL of the last contributing attachment with the thumbnail ID, otherwise the first contributing attachment whose parent is the post |
| Extractors.FeaturedImageEmptyIff | extractor.go:44-66 | the featured image is "" exactly when there is no banner, no contributing attachment with the thumbnail ID and no contributing child attachment |
| Extractors.DateSourceSpec | extractor.go:75-81 | the date source is post_date_gmt when non-empty, else post_date when non-empty, else pubDate; "" exactly when all three are empty |
| Extractors.DateNormalisesOnlyNonEmpty | extractor.go:83-88 | an empty date is returned as "" without normalising; a non-empty one is normalised |
| Extractors.ExampleMetaAuthor | wxr_test.go:75-137 | the example meta gives author "Marco D'Eramo" |
| Extractors.ExampleMetaExcerpt | wxr_test.go:75-137 | the example meta gives excerpt "Resumo curto" |
| Extractors.ExampleMetaThumbnailValue | wxr_test.go:75-137 | the example meta's `_thumbnail_id` value is "555" |
| Extractors.ExampleMetaThumbnail | wxr_test.go:75-137 | the example meta names thumbnail 555 |
| Extractors.ExampleMetaNoBanner | wxr_test.go:75-137 | the example meta has no banner |
| Extractors.ExampleMetaFallbacks | wxr_test.go:75-137 | an item with the example meta and no excerpt takes author, excerpt and featured image from the meta and the index |
| Categories.InKind | categories.go:13-30 | definition of the domain tests; its contract is `KindsDisjoint` |
| Categories.Names | categories.go:10-37 | definition of the names the loop collects; its contract is `NamesWellFormed`, `NamesMembership`, `NamesAppend` and `CategoriesAndTagsDisjoint` |
| Categories.CollectNames | categories.go:10-22 | the loop returns nil when nothing was collected, and otherwise the names `Names` lists |
| Categories.CategoryExtractor.ExtractCategories | categories.go:10-22 | nil, or the trimmed names of the non-blank entries whose domain is "category" or empty |
| Categories.CategoryExtractor.ExtractTags | categories.go:26-37 | nil, or the trimmed names of the non-blank entries whose domain is "post_tag" |
| Categories.KindsDisjoint | categories.go:13-30 | no entry is both a category and a tag |
| Categories.NamesWellFormed | categories.go:16-18 | every name is non-empty and trimmed; there are no more names than entries |
| Categories.NamesMembership | categories.go:10-22 | a name is collected exactly when some entry of the domain carries it, trimmed |
| Categories.NamesAppend | categories.go:12-20 | collection distributes over concatenation, so document order is kept |
| Categories.CategoriesAndTagsDisjoint | categories.go:10-37 | together the two lists are no longer than the entry list |
| Categories.CategoriesAndTagsExample | wxr_test.go:347-392 | two "category" and two "post_tag" entries give ["Technology", "News"] and ["Go", "Programming"] |
| Filters.ShouldInclude | filter.go:17-25 | definition of `DefaultFilter.ShouldInclude`; its contract is `ShouldIncludeIff`, `DefaultFilterAcceptsExactly`, `ZeroFilterAcceptsAll`, `ClearingFieldsWidens` and `ComparisonIsExact` |
| Filters.NewDefaultFilter | filter.go:28-33 | definition of `NewDefaultFilter`; its contract is `DefaultFilterAcceptsExactly` |
| Filters.ShouldIncludeIff | filter.go:17-25 | the closed form of the if-chain: accepted exactly when every non-empty field equals the item's |
| Filters.DefaultFilterAcceptsExactly | filter.go:28-33 | `NewDefaultFilter` accepts exactly type "post" with status "publish" |
| Filters.ZeroFilterAcceptsAll | filter.go:17-25 | the zero filter accepts every item |
| Filters.ClearingFieldsWidens | filter.go:17-25 | clearing a field never rejects an accepted item |
| Filters.ComparisonIsExact | filter.go:17-25 | the comparison sees case and white space |
| Wxr.DecodeXML | wxr.go:136-154 | definition of `decodeXML` after the decoder; its contract is `DecodeXMLSpec`, `DecodeFailureRejects` and `RootCheckRejects` |
| Wxr.SkipReasonOf | wxr.go:251-274 | definition of the skip checks in order; its contract is `SkipReasonOrder` and `KeptIff` |
| Wxr.TransformSpec | wxr.go:166-213 | definition of the post `transformItem` builds, with the nil-meta default (wxr.go:192-194) as the helper `MetaOrEmpty`; its contract is `TransformSpecFields`, and `Parser.TransformItem` is proved equal to it |
| Wxr.ParseItems | wxr.go:246-285 | definition of the posts the item loop collects; its contract is `ParseItemsIsFilterMap`, `ParseItemsAppend` and `ParseItemsCount`, and `Parser.ParseLoop` is proved equal to it |
| Wxr.ParseOutcome | wxr.go:225-296 | definition of what `Parse` returns; its contract is `ParseOutcomeSpec`, and `Parser.Parse` is proved equal to it |
| Wxr.ParseWithContextOutcome | wxr.go:315-408 | definition of what `ParseWithContext` returns; its contract is `EarlyCancel`, `CancelAtItem`, `CancelledIsPrefix`, `ParseWithContextErrors` and `NoCancelSameAsParse`, and `Parser.ParseWithContext` is proved equal to it |
| Wxr.CancelPoint | wxr.go:350-357 | the cancel point is the first item before which the context is done, or none |
| Wxr.DecodeXMLSpec | wxr.go:136-154 | decoding succeeds exactly on a decoded document with root "rss", returns that document, and reports the root found otherwise |
| Wxr.KeptIff | wxr.go:251-274 | an item is kept exactly when it is a "post", "publish", has a non-zero ID and some title, content or excerpt |
| Wxr.SkipReasonOrder | wxr.go:251-274 | the recorded skip reason is the first failing check, in the source's order |
| Wxr.TransformSpecFields | wxr.go:196-212 | a transformed post copies ID, title, content, slug, link, GUID and parent; author and names are trimmed; meta is the extractor's map or an empty map |
| Wxr.Parser.New | wxr.go:25-36 | no-op logger, default filter, fresh extractors, no featured-image extractor |
| Wxr.Parser.NewWithLogger | wxr.go:39-50 | as `New`, with the given logger (nil kept) |
| Wxr.Parser.NewWithStdLogger | wxr.go:54-68 | nil gives `New`; otherwise a std-logger adapter |
| Wxr.Parser.SetLogger | wxr.go:71-77 | nil installs the no-op logger; only the logger changes |
| Wxr.Parser.WithFilter | wxr.go:81-88 | nil installs the default filter; only the filter changes; returns the parser |
| Wxr.Parser.WithAuthorExtractor | wxr.go:92-99 | nil installs a fresh extractor; only that field changes; returns the parser |
| Wxr.Parser.WithExcerptExtractor | wxr.go:103-110 | nil installs a fresh extractor; only that field changes; returns the parser |
| Wxr.Parser.WithDateExtractor | wxr.go:114-121 | nil installs a fresh extractor; only that field changes; returns the parser |
| Wxr.Parser.WithFeaturedImageExtractor | wxr.go:126-133 | nil installs a fresh extractor without index; only that field changes; returns the parser |
| Wxr.Parser.InitExtractors | wxr.go:167-181 | nil extractors are replaced by fresh ones, the featured-image extractor holds the index, and nothing else changes |
| Wxr.Parser.TransformItem | wxr.go:166-213 | the post built is `TransformSpec` of the item, with lazily initialised extractors |
| Wxr.Parser.ProcessItem | wxr.go:251-284 | a kept item gives its transformed post; a skipped item gives none and changes no state |
| Wxr.Parser.ParseLoop | wxr.go:246-285 | the loop collects `ParseItems`; with cancel checks it stops at the cancel point with the posts before it and the context error |
| Wxr.Parser.Parse | wxr.go:225-296 | `Parser.Parse` returns `ParseOutcome` |
| Wxr.Parser.ParseWithContext | wxr.go:315-408 | `Parser.ParseWithContext` returns `ParseWithContextOutcome` |
| Wxr.Parse | wxr.go:300-303 | the package `Parse` is a default parser's `Parse` |
| Wxr.ParseWithContext | wxr.go:307-310 | the package `ParseWithContext` is a default parser's `ParseWithContext` |
| Wxr.ParseItemsAppend | wxr.go:246-285 | the item loop distributes over concatenation |
| Wxr.KeptItemsAppend | wxr.go:246-285 | keeping distributes over concatenation |
| Wxr.KeptItemsSpec | wxr.go:251-274 | an item is kept exactly when it is in the input and passes the checks; nothing is added |
| Wxr.ParseItemsIsFilterMap | wxr.go:246-285 | the loop is transformation mapped over the kept items, in document order |
| Wxr.ParseItemsCount | wxr.go:236-284 | posts plus skipped items make up every item |
| Wxr.ParseOutcomeSpec | wxr.go:225-296 | no error exactly when decoding succeeds, nil posts exactly on error, and then the posts are the kept items transformed |
| Wxr.RootCheckRejects | wxr.go:149-151 | the check as written: a non-"rss" root gives nil posts and an error naming the root, in both entry points (no Go input reaches it, see Left out) |
| Wxr.DecodeFailureRejects | wxr.go:143-145 | a decoder failure is returned wrapped, with nil posts, by `Parse` and by `ParseWithContext` when its first poll finds the context live |
| Wxr.NoCancelSameAsParse | wxr.go:315-408 | without cancellation `ParseWithContext` agrees with `Parse` |
| Wxr.EarlyCancel | wxr.go:317-335 | a context done before or after decoding gives nil posts and the context error |
| Wxr.CancelAtItem | wxr.go:350-357 | a cancellation before item `i` returns the posts of the first `i` items and the context error |
| Wxr.CancelledIsPrefix | wxr.go:350-357 | the posts returned with a context are a prefix of those `Parse` returns |
| Wxr.ParseWithContextErrors | wxr.go:315-408 | `ParseWithContext` returns no error exactly when `Parse` does not and no check sees the context done |
| Wxr.NotRssExample | wxr_test.go:226-240 | non-XML input and a `<notrss>` root both end on the decoder's error path: a wrapped decode error and no posts |
| Wxr.SkipsNonPostsExample | wxr_test.go:139-175 | of a page, a draft and a published post only the post is returned |
| Wxr.MissingIdExample | wxr_test.go:177-192 | a post without ID is skipped and the list is empty, not nil |
| Wxr.CancelledBeforeStartExample | wxr_test.go:608-640 | a context cancelled before parsing gives no posts and `context.Canceled` |
| Wxr.TwoPostsExample | wxr_test.go:572-606 | two published posts with no cancellation give two posts and no error |
| Wxr.KeptThenSkipped | wxr.go:246-285 | a kept item followed by a skipped one gives exactly the first item's post |
| Wxr.MetaFallbacks | wxr_test.go:75-137 | a kept post with the example meta before an attachment with ID 555 gives exactly the post's transform, with the meta author, the meta excerpt and the attachment URL |
| Wxr.MetaFallbacksEndToEnd | wxr_test.go:75-137 | the test document, with every field the test sets, gives one post 200 with slug and link copied, the GMT date normalised, author "Marco D'Eramo", excerpt "Resumo curto" and featured image "https://cdn.example.com/thumb.png" |

## Left out

- XML decoding (`encoding/xml`, `xml.go`'s tags and non-strict mode) is not modelled. The input is either a decoding failure with the decoder's message or a decoded document.
- Because `XMLName` carries the tag `xml:"rss"` (xml.go:7), Go's decoder rejects every wrong root as a decoding failure, so a successful decode always has root "rss" and the check at wxr.go:149-151 never fires. The model keeps that check as written: a `Decoded` document whose root is not "rss" stands for no Go input, and `Wxr.RootCheckRejects` only describes the code as written.
- `normalizeWXRDate` (`date.go`), `ModifiedDateExtractor.Extract` and `MetaExtractor.Extract` are parameters, gathered in `Wxr.Collaborators`: their code is not part of this model.
- Logging is not modelled: the `Logger` value is kept, but messages are not. The per-type and per-status skip maps are also left out, since they only feed log lines. The skip count is kept as a function (`SkipCount`) with a lemma.
- The nil-logger panic: `NewParserWithLogger(nil)` keeps a nil logger, and Go then panics at the first `Printf`. `Parse` logs first (wxr.go:226), so `Wxr.Parser.Parse` requires `logger.Some?`. `ParseWithContext` polls the context before its first `Printf` (wxr.go:317-323), so `Wxr.Parser.ParseWithContext` requires `logger.Some? || Poll(polls, 0).Some?`: a nil logger with the context already done returns `(nil, ctx.Err())` without panicking.
- `buildAuthorMap` and the channel's author records are not modelled, since their result is discarded.
- The filter is stored but never consulted, as in the source. A `Custom` filter is only a number.
- Unicode case folding: `Text.ToLower` and `Text.EqualFold` fold ASCII letters only. For the domain test against "category" and "post_tag" this is exact. For meta keys, Go's `EqualFold` also matches the Kelvin sign U+212A to "k" and the long s U+017F to "s"; the model does not.
- Integer width: Go's `int` is modelled as unbounded, except in `strconv.Atoi`, which is modelled with the 64-bit range.
- Context machinery: `context.Context` becomes a sequence of poll results, one for each `ctx.Done()` check. Timers and concurrency are not modelled.
