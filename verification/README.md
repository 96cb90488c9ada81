# Post pipeline logic of the uplevl mobile client, in Dafny

This project models the pure, sequential logic inside the uplevl mobile app, a React
Native client for managing a small business's social-media posts, and proves
properties of that logic:

- **Display-text truncator** (`TextDisplay`, from `lib/helpers/text.ts`). It decides how
  much of a post's body and hashtag string to show under a character budget. It also
  decides whether a "more"/"less" toggle appears.
- **Post store** (`PostStore`, from `contexts/posts-context.tsx`). It counts and filters
  posts by status, and updates a post by id with a shallow merge. It prepends a pending
  draft, and it models the simulated AI completion that fills that draft in. The default
  tab rule and the tab badges come from `components/post/posts-tabs/index.tsx`
  (`PostTabs`). The post record comes from `lib/types/common.ts` (`Posts`).
- **Relative dates** (`RelativeDate`, from `lib/helpers/date.ts`). It sorts elapsed time
  into "just now", "Nh ago", "yesterday", "Nd ago" or an absolute date.
- **Image helpers** (`ImageHelpers`, from `lib/helpers/image.ts`). These are the URI
  prefix check and the list-key builder. `Decimal` renders integers the way a template
  literal does, and its parser is the inverse used in proofs.
  `Strings.IsPrefix` is `startsWith`, shared with the truncator.
- **Add-post form** (`AddPostForm`). The form keeps a bounded image list, and the
  generate action needs at least one image.
- **Post card** (`PostItem`). It holds the view decisions of the post list item.

Everything is an immutable value and a pure function. The store is a value, and every
transition returns a new one. The clock (`Date.now`, `new Date()`) and the generated ids
are parameters. Date parsing, `getFullYear`, `toLocaleDateString`,
`toLocaleTimeString` and `String.trim` are also parameters: the `Locale` record, `parse`
and `trim`. JavaScript truthiness is spelled out wherever the source relies on it. An
optional string counts as "present" only when it is set and non-empty.

## Model

| member | source | states |
|---|---|---|
| TextDisplay.ProcessTextForDisplay | lib/helpers/text.ts:12-60 | shown content and hashtags are prefixes of the inputs; shown hashtags are never empty and exist only if the input had some; a remaining-character count comes only with a collapsed "more" result and equals full length minus limit, at least 1 |
| TextDisplay.SliceTo | lib/helpers/text.ts:35 | `slice(0, end)` yields a prefix: exactly `end` characters when in range, the whole string past the end, and counts from the back for a negative end |
| TextDisplay.FullText | lib/helpers/text.ts:18 | the full text is the content, plus a space and the hashtags when these are non-empty |
| TextDisplay.FitsIsUntouched | lib/helpers/text.ts:18-27 | when content, space and hashtags fit the limit, the result is the input (empty hashtags become absent) with no toggle, expanded or not |
| TextDisplay.ExpandedIsUntouched | lib/helpers/text.ts:19-27 | expanded text is never cut, and the toggle flag is exactly "full text longer than limit" |
| TextDisplay.CutInsideContent | lib/helpers/text.ts:29-39 | collapsed with the limit inside the content: exactly the first `limit` characters, no hashtags, toggle, and `remainingChars` = full length minus limit |
| TextDisplay.SmallHashtagOverflowShown | lib/helpers/text.ts:41-48 | collapsed with an overflow of at most 35 characters past the content: all content and hashtags, no toggle |
| TextDisplay.CutInsideHashtags | lib/helpers/text.ts:50-59 | otherwise the hashtags are cut to `limit - |content| - 1` characters, a budget that is never negative and shorter than the hashtags; an empty cut becomes absent |
| TextDisplay.DisplayIsPrefixOfFullText | lib/helpers/text.ts:18-59 | whatever is shown (content, space, hashtags) is a prefix of the full text |
| TextDisplay.NothingHiddenWithoutToggle | lib/helpers/text.ts:19-48 | when no toggle is offered, the full text is shown |
| TextDisplay.CollapsedWithinLimit | lib/helpers/text.ts:29-59 | for a non-negative limit, a collapsed result that offers "more" shows at most `limit` characters |
| TextDisplay.HashtagsOnlyExample | lib/helpers/text.ts:50-59 | empty content with a 58-character tag string and limit 20 shows the first 19 tag characters |
| TextDisplay.HelloWorldExample | lib/helpers/text.ts:50-59 | "Hello world" with a long tag string and limit 20 shows the first 8 tag characters with a toggle |
| RelativeDate.HoursDifference | lib/helpers/date.ts:36-38 | the hour count is the floor of the elapsed milliseconds over 3,600,000 |
| RelativeDate.DaysDifference | lib/helpers/date.ts:45-47 | the day count is the floor of the hours over 24 |
| RelativeDate.Classify | lib/helpers/date.ts:80-89 | "Nh ago" carries the hour count, 1 to 23; "Nd ago" carries a day count from 2 to 6; an absolute date includes the year exactly when the years differ |
| RelativeDate.RelativeDateString | lib/helpers/date.ts:80-89 | the label by hour ranges: under 1 "just now", under 24 "{h}h ago", under 48 "yesterday", under 168 "{floor(h/24)}d ago", otherwise the locale date |
| RelativeDate.AppendTimeIfRequested | lib/helpers/date.ts:98-103 | without the flag the label is returned as is; with it, " (time)" is appended |
| RelativeDate.FormatRelativeDate | lib/helpers/date.ts:111-119 | the bucket label is always a prefix of the formatted result |
| RelativeDate.BucketByElapsedMs | lib/helpers/date.ts:36-89 | each bucket holds exactly when the elapsed milliseconds fall in its range (under 1 h, 1-24 h, 24-48 h, 48-168 h, 168 h and more); the day count equals the elapsed milliseconds over 86,400,000 |
| RelativeDate.ClassifyMonotonic | lib/helpers/date.ts:80-89 | an older date never gets a more recent kind of label |
| RelativeDate.FormatWithTime | lib/helpers/date.ts:98-119 | formatting without time gives the bucket label; with time it gives the label, then " (", the time and ")" |
| RelativeDate.Examples | lib/helpers/date.ts:80-86 | 90 minutes ago reads "1h ago", 50 hours ago reads "2d ago", and a future date reads "just now" |
| Decimal.IntToString | lib/helpers/image.ts:23 | an interpolated integer is non-empty and starts with '-' exactly when negative |
| Decimal.ParseIntToString | lib/helpers/image.ts:23 | the interpolated integer reads back as itself |
| Decimal.IntToStringInjective | lib/helpers/image.ts:23 | distinct integers interpolate to distinct strings |
| ImageHelpers.IsValidImageUri | lib/helpers/image.ts:29-34 | an empty URI is invalid, and a URI is valid exactly when it starts with "http", "file://" or "data:" |
| ImageHelpers.ValidityIsPrefixClosed | lib/helpers/image.ts:33 | anything appended to a valid URI stays valid: the test looks only at the prefix |
| ImageHelpers.ValidityExamples | lib/helpers/image.ts:29-34 | "https://…", "httpx" and a data URI pass; the empty string and a relative path fail |
| ImageHelpers.GenerateImageKey | lib/helpers/image.ts:22-24 | the key is the URI, a dash, then text that reads back as the index |
| ImageHelpers.ImageKeysDistinct | lib/helpers/image.ts:22-24 | for one URI, distinct indices give distinct keys |
| PostTabs.GetDefaultActiveTab | components/post/posts-tabs/index.tsx:24-31 | draft exactly when counts are given with a positive draft count; published exactly when they are absent or the draft count is 0; never archived |
| PostTabs.DefaultDependsOnlyOnDrafts | components/post/posts-tabs/index.tsx:24-31 | counts with the same draft count give the same default |
| PostTabs.TabCount | components/post/posts-tabs/index.tsx:38 | a tab's number is its count, or 0 when no counts are given |
| PostTabs.ShowsBadge | components/post/posts-tabs/index.tsx:48 | a badge shows exactly when counts are given and the tab's count is positive |
| Wrappers.Override | contexts/posts-context.tsx:106 | one field of a shallow merge: a present patch value wins, an absent one keeps the old value |
| PostStore.FilterPostsByStatus | contexts/posts-context.tsx:31-33 | every kept post has the tab's status, and the list is no longer than the posts |
| PostStore.FilterLengthIsStatusPositions | contexts/posts-context.tsx:31-33 | the filtered length equals the number of positions holding the tab's status |
| PostStore.FilterKeepsEveryMatch | contexts/posts-context.tsx:31-33 | every post with the tab's status is in the filtered list |
| PostStore.FilterIsSubsequence | contexts/posts-context.tsx:31-33 | the filtered list is an order-preserving subsequence of the posts |
| PostStore.FilterAppend | contexts/posts-context.tsx:31-33 | filtering a concatenation concatenates the filtered parts |
| PostStore.CalculatePostCounts | contexts/posts-context.tsx:13-28 | scheduled posts are counted nowhere, so the three counts sum to at most the number of posts |
| PostStore.CountsMatchFilter | contexts/posts-context.tsx:13-33 | each count equals the length of that tab's filtered list |
| PostStore.SameStatusesSameCounts | contexts/posts-context.tsx:13-28 | two lists with the same status at every position have the same counts |
| PostStore.ApplyPatch | contexts/posts-context.tsx:106 | the merged post takes each field the patch carries from the patch and every other field from the post |
| PostStore.MergedIsUnique | contexts/posts-context.tsx:106 | the field-wise merge description determines the merged post |
| PostStore.PatchLaws | contexts/posts-context.tsx:106 | an empty patch changes nothing, reapplying a patch changes nothing more, and two patches in a row act as their combination |
| PostStore.UpdatePost | contexts/posts-context.tsx:105-107 | the length is kept; posts with another id are unchanged; matching posts are merged; ids and statuses stay put unless the patch sets them; an unknown id leaves the list unchanged |
| PostStore.UpdateKeepsCounts | contexts/posts-context.tsx:105-107 | an update that does not set the status keeps every count |
| PostStore.AddDraftPost | contexts/posts-context.tsx:67-103 | exactly one post is prepended, the old list is the tail, and its id is returned; the new post is a pending, generating draft with empty content and hashtags, no publish time, and the given images and description |
| PostStore.AddDraftCounts | contexts/posts-context.tsx:67-82 | adding a draft raises the draft count by one and leaves the published and archived counts unchanged |
| PostStore.GeneratedContent | contexts/posts-context.tsx:86-88 | generated text is never empty; a non-empty description is followed by the fixed closing line, and an empty one gives the stock text |
| PostStore.CompleteGeneration | contexts/posts-context.tsx:85-96 | the post with the id gets the generated content, the fixed hashtags and `isGenerating` false, with everything else kept; other posts are unchanged |
| PostStore.CompletionKeepsCounts | contexts/posts-context.tsx:85-96 | the completion changes no count |
| PostStore.CompleteOnlyHead | contexts/posts-context.tsx:85-96 | completing the head of a list whose other ids differ changes only the head |
| PostStore.InitStore | contexts/posts-context.tsx:55-62 | the initial filter is drafts exactly when some initial post is a draft, and never archived |
| PostStore.FilteredPosts | contexts/posts-context.tsx:65 | the view has as many posts as the active tab's count, keeps their order, and holds only that status |
| PostStore.SetActiveFilter | contexts/posts-context.tsx:109-111 | switching tabs sets the active filter to the chosen tab and leaves the posts as they are |
| PostStore.PostCountsOf | contexts/posts-context.tsx:60 | each tab's count equals the number of posts the filter for that tab keeps |
| PostStore.BadgeMeansNonEmptyView | components/post/posts-tabs/index.tsx:48 | a tab shows a badge exactly when switching to it would list at least one post |
| PostStore.DraftLifecycle | contexts/posts-context.tsx:67-107 | a draft added with a fresh id appears in the draft view while generating; its completion fills in the content, keeps it a draft, keeps the rest of the list, and leaves the draft count one above the start |
| AddPostForm.SelectImage | components/post/add-post-form/index.tsx:25-32 | under the limit the image is appended after the earlier ones; at or over the limit the list is unchanged |
| AddPostForm.RemoveImage | components/post/add-post-form/index.tsx:34-36 | an in-range index deletes exactly that element and keeps the order; any other index leaves the list unchanged |
| AddPostForm.EventsStayWithinLimit | components/post/add-post-form/index.tsx:21-36 | starting within the limit (an empty list, say), no sequence of selections and removals exceeds it |
| AddPostForm.DefaultFormHoldsAtMostFive | components/post/add-post-form/index.tsx:20-36 | a form opened with the default `maxImages = 5` never holds more than five images, whatever is selected or removed |
| AddPostForm.GeneratePost | components/post/add-post-form/index.tsx:38-45 | with no images the callback is not invoked; otherwise it receives the images and the trimmed description |
| AddPostForm.GenerateDisabled | components/post/add-post-form/index.tsx:47-78 | the generate button is disabled exactly when there are no images or a generation is running |
| AddPostForm.EnabledButtonGenerates | components/post/add-post-form/index.tsx:38-78 | pressing an enabled button always reaches the callback |
| PostItem.PostText | components/post/post-item/index.tsx:45-74 | the text is processed with limit 125; "less" shows exactly when expanded and `shouldShowMore`, and "... more" exactly when collapsed and `shouldShowMore` (over the limit, unless the hidden part is at most 35 hashtag characters) |
| PostItem.TolerantOverflowHasNoMore | components/post/post-item/index.tsx:45-74 | a collapsed card whose text exceeds 125 characters by at most 35 hashtag characters shows all of it with no toggle |
| PostItem.CollapsedTextHidesOnlyBehindMore | components/post/post-item/index.tsx:45-74 | collapsed, the card never offers "less"; with "... more" it shows at most 125 characters, and without it the full text |
| PostItem.DateText | components/post/post-item/index.tsx:111-114 | "Published " plus the relative publish time for a published post with a non-empty publish time, otherwise "Created " plus the relative creation time |
| PostItem.HasEngagement | components/post/post-item/index.tsx:116-118 | engagement shows exactly for published or archived posts with likes or comments |
| PostItem.IsDraft | components/post/post-item/index.tsx:81 | true exactly for posts whose status is `"draft"` |
| PostItem.MediaFor | components/post/post-item/index.tsx:139-148 | a carousel of the images when the list is non-empty, else the single image when its URL is non-empty, else nothing |
| PostItem.BodyFor | components/post/post-item/index.tsx:152-161 | the loader replaces the text exactly when `isGenerating` is true |
| PostItem.RenderPostItem | components/post/post-item/index.tsx:78-210 | the Approve/Edit/Reject bar appears exactly for drafts, and the press is disabled in the same cases; engagement and actions never appear together |
| PostItem.DraftCardLifecycle | components/post/post-item/index.tsx:78-190 | a fresh draft's card shows the loader, the draft actions, its images and its creation date, with no engagement; after completion it shows the generated text and still the actions |

## Behaviour worth noting

- An empty hashtag string is reported as absent even when nothing is cut, because the uncut
  result applies `hashtags || undefined` (`lib/helpers/text.ts:24`). An empty cut of the
  hashtags also becomes absent (`visibleHashtags || undefined`, `lib/helpers/text.ts:56`).
- A new draft's hashtags are the empty string, not null (`contexts/posts-context.tsx:73`).
- The generated text contains the description only when the description is non-empty.
  An empty description gives a fixed stock text (`contexts/posts-context.tsx:86-88`).
- New ids are `Date.now().toString()` (`contexts/posts-context.tsx:68`), so they are not
  guaranteed unique. Lemmas that need a fresh id say so in their `requires`.
- Approve and reject are written in the list screen, which is not part of this model. They
  rewrite the list through `setPosts` directly, not through `updatePost`
  (`app/(app)/posts/list.tsx:136,177`).

## Left out

- Lengths: strings are `seq<char>`, while JavaScript's `.length` counts UTF-16 code units. Text with characters outside the Basic Multilingual Plane (emoji) is measured differently.
- TextDisplay.CollapsedWithinLimit: stated for a non-negative limit only. With a negative limit, `slice` counts from the back, so the bound fails there. The callers pass 125 (`components/post/post-item/index.tsx:36`) and 300 (`app/(app)/posts/[id].tsx:83`), both non-negative.
- Date parsing and locale output (`new Date(string)`, `getFullYear`, `toLocaleDateString`, `toLocaleTimeString`) are parameters. An unparsable date (NaN) is not modelled.
- Decimal.IntToString: renders integers only. JavaScript's exponent notation for very large numbers and non-integral indices are not modelled.
- React machinery is not modelled: context, `useState`/`useMemo`/`useCallback`, memoisation and re-rendering. Nor is the raw `setPosts` the context exposes.
- The three-second `setTimeout`, and the `_timeoutId` stored on the post: the completion is an explicit operation that may be applied at any later point.
- Alerts (maximum images, no images), navigation, the image picker, permissions, authentication, fonts and the splash screen: these are I/O over libraries outside this model.
- `String.trim` is a parameter of `AddPostForm.GeneratePost`.
- The `typeof uri !== "string"` test in `isValidImageUri`: types already guarantee a string.
- Floating-point layout is not modelled. This covers `getOptimalImageDimensions` (`lib/helpers/image.ts:6-20`), chart bars, control widths, carousel paging and bottom-sheet thresholds.
- Presentational lookups: the status badge map, styles, buttons and badges.
- The mock JSON load: the initial posts are a parameter of `PostStore.InitStore`.
- PostTabs.GetDefaultActiveTab: counts are natural numbers here, where the prop type is `number`. The store only ever passes non-negative counts.
- The list screen's effect that switches to the draft tab when a generating draft appears (`app/(app)/posts/list.tsx`) is not part of this model.
