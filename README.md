# margaret web front-end: a Dafny model of its display rules

margaret is a Medium-like publishing platform. This project models the pure
logic of its web client, along with two repository scripts, and proves
properties of that model:

- **truncateString** (`Utils`). It cuts a string to its first `max`
  characters, trims the result with JavaScript's `trim` and appends `"..."`.
  Strings of at most `max` characters are returned unchanged. `JsText` models
  the `trim` whitespace set (ECMAScript WhiteSpace and LineTerminator) and the
  text of an integer Number.
- **The hero-grid cards** (`FeaturedLarge`, `FeaturedMedium`, `FeaturedSmall`,
  `FeaturedCompact`). For each card the model covers:
  - what is shown while loading;
  - which fields are truncated and to what limit;
  - the author-name rule (the publication's display name, or "first last");
  - the meta lines;
  - the story link `/<owner>/<slug>`.

  The large card spells its separator as the two characters `Â·`, as its file
  does; the medium card uses `·`. Rendering can fail the way the JavaScript
  fails, with a TypeError:
  - a loaded card with a null story (the cards' default props);
  - a story flagged `isUnderPublication` whose publication is null.

  The shared story record, the author name and the link path are in
  `Stories`.
- **HeroGrid** (`HeroGrid`). It puts stories 0–4 on the five fixed cards and
  `slice(-3)` on the compact list. The fixed cards and the compact list are
  disjoint exactly when there are 0 or at least 8 stories. The whole grid
  renders once loaded exactly when there are at least five stories and the
  first can be linked.
- **The feed queries' render callback** (`Stories.RenderQueryChild`). A query
  error gives the text `'error'`. Otherwise the edges' nodes become the
  stories, with no data giving `[]`, and the caller's props are spread last,
  so a caller prop with the same name wins. Both `EnhancedHeroGrid` and
  `FeedEnhancer` use it. The `Feed` component itself always renders the fixed
  text `feed`.
- **TopicBar** (`TopicBarView`). It is a class whose `bottomShadow` field is
  set to "not intersecting" on each observer callback. The nav's `box-shadow`
  value follows that field, and the bar lists its three topic links.
- **The auth API client** (`AuthApi`, `Json`). It covers:
  - the endpoint URLs, where an unset `REACT_APP__API_URL` interpolates as
    `undefined`;
  - the GET of the callback URL;
  - the refresh POST, whose body is `JSON.stringify({ token })`. The model
    proves that the token can be read back from that body.
- **The auth action types** (`AuthTypes`): `"auth/"` followed by the action
  name.
- **The CSS unit helpers** (`ThemeHelpers`): the number's text followed by
  the unit.
- **gen_secrets.py** (`GenSecrets`). `get_path` maps `dev`/`development` and
  `prod`/`production` to `k8s/<dir>/secrets.yaml` under the project root. For
  any other namespace it raises `UnboundLocalError` on `dirname`.
  `gen_string` builds the Secret manifest. It raises `KeyError` without a
  `namespace`; a missing client secret renders as `None`.
- **The dangerfile** (`Dangerfile`). It warns, once and with a fixed text,
  exactly when `package.json` changed and `yarn.lock` did not.

Inputs from outside the code are parameters:
- the API URL environment variable;
- the project root of the script;
- the list of modified files;
- the query result;
- the observer's `isIntersecting`.

The stories' `id` and `image` fields are not selected by the home-page
queries, so they are `undefined` in the running client. The model keeps them
as options: the large card then always aligns `stretch`, and the compact
list's keys are all undefined.

## Model

| member | source | states |
|---|---|---|
| Utils.Prefix | projects/web/src/utils/index.js:12 | `substr(0, n)` gives the first n characters, clamped to 0 and the string's length |
| Utils.TruncateString | projects/web/src/utils/index.js:6-15 | truncateString itself: unchanged when it fits, otherwise the trimmed first `max` characters and `"..."`; its properties are the Utils lemmas below |
| Utils.TruncateFits | projects/web/src/utils/index.js:7-9 | a string of at most `max` characters, including exactly `max`, is returned unchanged |
| Utils.TruncateShape | projects/web/src/utils/index.js:6-15 | an over-long string becomes a slice `s[i..j]` of its first `max` characters plus `"..."`; only whitespace is dropped on either side of the slice, and the slice has no whitespace at its ends |
| Utils.TruncateIsTrimOfPrefix | projects/web/src/utils/index.js:11-14 | an over-long string becomes the trim of its first `max` characters followed by `"..."` |
| Utils.TrimOfPrefixIsSlice | projects/web/src/utils/index.js:12-13 | the trimmed prefix is a slice of the string with only whitespace cut off before and after it, and it has non-space ends |
| Utils.TruncateEndsWithEllipsis | projects/web/src/utils/index.js:11-14 | a truncated string always ends with `"..."` |
| Utils.TruncateLengthBound | projects/web/src/utils/index.js:6-15 | the result is at most `max + 3` characters long (or 3 for a negative `max`), and never longer than a string that fits |
| Utils.TruncateAllSpace | projects/web/src/utils/index.js:11-14 | an over-long string whose first `max` characters are all whitespace becomes exactly `"..."` |
| Utils.TruncateToEllipsisOnlyIfAllSpace | projects/web/src/utils/index.js:11-14 | the result is `"..."` alone only when the kept prefix was all whitespace |
| JsText.Trim | projects/web/src/utils/index.js:13 | `String.prototype.trim`: TrimEnd after TrimStart; contracts in `JsText.TrimIsMaximalSlice` and `JsText.TrimEmptyIffAllSpace` |
| JsText.TrimStart | projects/web/src/utils/index.js:13 | removes the longest all-whitespace prefix: the result is a suffix starting with a non-space |
| JsText.TrimEnd | projects/web/src/utils/index.js:13 | removes the longest all-whitespace suffix: the result is a prefix ending with a non-space |
| JsText.TrimIsMaximalSlice | projects/web/src/utils/index.js:13 | `trim` gives a slice with only whitespace cut on both sides, and with non-space ends, so neither cut could be shorter |
| JsText.TrimEmptyIffAllSpace | projects/web/src/utils/index.js:13 | `trim` gives `""` exactly when every character is whitespace |
| JsText.NumText | projects/web/src/theme/helpers.js:4 | the text of an integer Number (as `${rawValue}` and the `{readTime}` child write it): `-` and the decimal digits for a negative, the digits otherwise; contracts in `JsText.NumTextRoundTrip` and `JsText.NumTextChars` |
| JsText.NumTextRoundTrip | projects/web/src/theme/helpers.js:4 | an integer's text reads back as that integer, so different raw values give different texts |
| Stories.AuthorName | projects/web/src/pages/Home/HeroGrid/FeaturedLarge/index.js:121-125 | the publication's display name when there is a publication, else first name, a space and last name |
| Stories.ReadTimeMeta | projects/web/src/pages/Home/HeroGrid/FeaturedLarge/index.js:127-131 | the meta line text: author name, a space, the separator, a space, the read time's text and ` min read`; `Stories.ReadTimeMetaRoundTrip` is its inverse |
| Stories.ReadTimeMetaRoundTrip | projects/web/src/pages/Home/HeroGrid/FeaturedLarge/index.js:127-131 | the meta line `<author> <sep> <readTime> min read` gives back the author name and read time, whatever the name contains |
| Stories.LinkOwner | projects/web/src/pages/Home/HeroGrid/FeaturedLarge/index.js:139-141 | the owner is the publication name for a story flagged under a publication, otherwise `@` and the username; a flagged story with a null publication raises a TypeError |
| Stories.LinkPath | projects/web/src/pages/Home/HeroGrid/FeaturedLarge/index.js:139-143 | the story link `/<owner>/<slug>`, failing where `Stories.LinkOwner` fails; its shape is `Stories.LinkPathShape` |
| Stories.LinkPathShape | projects/web/src/pages/Home/HeroGrid/FeaturedLarge/index.js:139-143 | a story link starts with `/`, ends with `/` and the slug, and starts with `/@username` for a story not under a publication |
| Stories.NameAndOwnerKeyOnDifferentFields | projects/web/src/pages/Home/HeroGrid/FeaturedLarge/index.js:121-143 | a story with a publication that is not flagged under it shows the publication's display name but links under `/@username` |
| Stories.Nodes | projects/web/src/pages/Home/HeroGrid/index.js:161 | `edges.map(edge => edge.node)`: same length, and element i is edge i's node |
| Stories.GetStories | projects/web/src/pages/Home/HeroGrid/index.js:161 | no data gives no stories; otherwise story i is the node of edge i, with nothing added or dropped |
| Stories.RenderQueryChild | projects/web/src/pages/Home/HeroGrid/index.js:163-175 | `'error'` exactly on a query error; otherwise props are the caller's plus `stories` and `loading`, caller props kept as given, and `stories`/`loading` from the query unless the caller overrides them |
| FeaturedLarge.AlignArticle | projects/web/src/pages/Home/HeroGrid/FeaturedLarge/index.js:9-14 | getAlignArticleProp: `stretch` while loading, else `center` or `stretch` by the image, with a TypeError for a null story; its contract is `FeaturedLarge.AlignRule` |
| FeaturedLarge.RenderTitle | projects/web/src/pages/Home/HeroGrid/FeaturedLarge/index.js:90-98 | a loader while loading, else the title truncated to 100, with a TypeError for a null story |
| FeaturedLarge.RenderSummary | projects/web/src/pages/Home/HeroGrid/FeaturedLarge/index.js:100-108 | a loader while loading, else the summary truncated to 100, with a TypeError for a null story |
| FeaturedLarge.RenderMeta | projects/web/src/pages/Home/HeroGrid/FeaturedLarge/index.js:110-132 | a loader while loading, else the meta line with the `Â·` separator, with a TypeError for a null story |
| FeaturedLarge.RenderImage | projects/web/src/pages/Home/HeroGrid/FeaturedLarge/index.js:134-144 | no image while loading, else a link to the story path, with a TypeError for a null story or a flagged story without a publication |
| FeaturedLarge.Render | projects/web/src/pages/Home/HeroGrid/FeaturedLarge/index.js:146-156 | the card built in evaluation order, the first TypeError aborting it; its contracts are the FeaturedLarge lemmas below |
| FeaturedLarge.AlignRule | projects/web/src/pages/Home/HeroGrid/FeaturedLarge/index.js:9-14 | `center` exactly for a loaded story with a non-empty image; `stretch` whenever loading or without an image |
| FeaturedLarge.RenderWhileLoading | projects/web/src/pages/Home/HeroGrid/FeaturedLarge/index.js:90-156 | while loading: three loaders, no image link, `stretch`, whatever the story |
| FeaturedLarge.RenderNullStoryFails | projects/web/src/pages/Home/HeroGrid/FeaturedLarge/index.js:146-167 | a loaded card with the default null story raises a TypeError |
| FeaturedLarge.RenderLoaded | projects/web/src/pages/Home/HeroGrid/FeaturedLarge/index.js:90-156 | a loaded story renders exactly unless flagged under a null publication, and then the card is exactly: alignment `center` with an image, else `stretch`; title and summary truncated to 100 (so at most 103 characters); the meta line `<author> Â· <readTime> min read`, which reads back as author name and read time; the image linking to the story path |
| FeaturedSmall.RenderTitle | projects/web/src/pages/Home/HeroGrid/FeaturedSmall/index.js:65-73 | a loader while loading, else the title truncated to 50, with a TypeError for a null story; contract in `FeaturedSmall.RenderLoaded` |
| FeaturedSmall.RenderSummary | projects/web/src/pages/Home/HeroGrid/FeaturedSmall/index.js:75-83 | a loader while loading, else the summary truncated to 60, with a TypeError for a null story; contract in `FeaturedSmall.RenderLoaded` |
| FeaturedSmall.RenderMeta | projects/web/src/pages/Home/HeroGrid/FeaturedSmall/index.js:85-103 | a loader while loading, else the author name alone, with a TypeError for a null story; contract in `FeaturedSmall.RenderLoaded` |
| FeaturedSmall.RenderImage | projects/web/src/pages/Home/HeroGrid/FeaturedSmall/index.js:105-115 | a placeholder block while loading, else an image linking to `/`; contracts in `FeaturedSmall.RenderWhileLoading` and `FeaturedSmall.RenderLoaded` |
| FeaturedSmall.Render | projects/web/src/pages/Home/HeroGrid/FeaturedSmall/index.js:65-126 | the card: title cut to 50, summary cut to 60, author name, and a placeholder or a link to `/`; its contracts are the FeaturedSmall lemmas below |
| FeaturedSmall.RenderWhileLoading | projects/web/src/pages/Home/HeroGrid/FeaturedSmall/index.js:65-126 | while loading: three loaders and a placeholder block, whatever the story |
| FeaturedSmall.RenderLoadedIff | projects/web/src/pages/Home/HeroGrid/FeaturedSmall/index.js:117-137 | once loaded, the card renders exactly when the story is not null |
| FeaturedSmall.RenderLoaded | projects/web/src/pages/Home/HeroGrid/FeaturedSmall/index.js:65-126 | title truncated to 50 and summary to 60 (at most 53 and 63 characters), the author name without read time, image linking to `/` |
| FeaturedMedium.RenderTitle | projects/web/src/pages/Home/HeroGrid/FeaturedMedium/index.js:49-57 | a loader while loading, else the whole title, with a TypeError for a null story; contract in `FeaturedMedium.RenderLoaded` |
| FeaturedMedium.RenderMeta | projects/web/src/pages/Home/HeroGrid/FeaturedMedium/index.js:59-81 | a loader while loading, else `<author> · <readTime> min read`, with a TypeError for a null story; contract in `FeaturedMedium.RenderLoaded` |
| FeaturedMedium.RenderImage | projects/web/src/pages/Home/HeroGrid/FeaturedMedium/index.js:83-94 | a placeholder block while loading, else an image linking to `/`; contracts in `FeaturedMedium.RenderWhileLoading` and `FeaturedMedium.RenderLoaded` |
| FeaturedMedium.Render | projects/web/src/pages/Home/HeroGrid/FeaturedMedium/index.js:49-104 | the card: whole title, the `·` meta line, and a placeholder or a link to `/`; its contracts are the FeaturedMedium lemmas below |
| FeaturedMedium.RenderWhileLoading | projects/web/src/pages/Home/HeroGrid/FeaturedMedium/index.js:49-104 | while loading: two loaders and a placeholder block, whatever the story |
| FeaturedMedium.RenderLoadedIff | projects/web/src/pages/Home/HeroGrid/FeaturedMedium/index.js:96-115 | once loaded, the card renders exactly when the story is not null |
| FeaturedMedium.RenderLoaded | projects/web/src/pages/Home/HeroGrid/FeaturedMedium/index.js:49-104 | the whole title, untruncated; the meta line `<author> · <readTime> min read`, which reads back; image linking to `/` |
| FeaturedCompact.LoadingEntries | projects/web/src/pages/Home/HeroGrid/FeaturedCompact/index.js:63-66 | n placeholder entries keyed by their positions in order |
| FeaturedCompact.StoryEntries | projects/web/src/pages/Home/HeroGrid/FeaturedCompact/index.js:65-73 | one entry per story, in order, keyed by its id, with the whole title and the author name |
| FeaturedCompact.RenderStories | projects/web/src/pages/Home/HeroGrid/FeaturedCompact/index.js:62-74 | renderStories: three placeholder entries while loading, else one per story; its contracts are `FeaturedCompact.RenderWhileLoading` and `FeaturedCompact.RenderLoaded` |
| FeaturedCompact.RenderNodes | projects/web/src/pages/Home/HeroGrid/FeaturedCompact/index.js:65-73 | each entry's fragment rendered as an article and a separator; its contract is `FeaturedCompact.NodesAlternate` |
| FeaturedCompact.RenderWhileLoading | projects/web/src/pages/Home/HeroGrid/FeaturedCompact/index.js:62-74 | while loading: exactly three placeholder entries keyed 0, 1, 2, whatever the stories |
| FeaturedCompact.RenderLoaded | projects/web/src/pages/Home/HeroGrid/FeaturedCompact/index.js:62-89 | once loaded: entry i shows story i, keyed by its id; the default empty list gives no entries |
| FeaturedCompact.NodesAlternate | projects/web/src/pages/Home/HeroGrid/FeaturedCompact/index.js:65-73 | n entries render as 2n nodes, each entry's article followed directly by a separator |
| HeroGrid.AssignSlots | projects/web/src/pages/Home/HeroGrid/index.js:103-108 | which story each card receives; its contracts are `HeroGrid.SlotAssignment` and `HeroGrid.CompactSlot` |
| HeroGrid.SlotAssignment | projects/web/src/pages/Home/HeroGrid/index.js:101-111 | story 0 goes to the large card, 1 to the medium one, 2–4 to the small ones in order (undefined past the end), and the compact list gets min(3, n) stories: story i, for every i from CompactStart(n) up to n, at position i − CompactStart(n), as `slice(-3)` gives |
| HeroGrid.CompactSlot | projects/web/src/pages/Home/HeroGrid/index.js:108 | `stories.slice(-3)` holds min(3, n) stories, and story i, for every i from CompactStart(n) = max(0, n − 3) up to n, sits at position i − CompactStart(n) |
| HeroGrid.CompactDisjointIff | projects/web/src/pages/Home/HeroGrid/index.js:103-108 | no story is both on a fixed card and in the compact list exactly when there are 0 or at least 8 stories |
| HeroGrid.AllPlacedIff | projects/web/src/pages/Home/HeroGrid/index.js:103-108 | every story is assigned to a card or to the compact list exactly when there are at most 8 (assignment, not visibility: below the xl breakpoint the compact list and the third small card are hidden) |
| HeroGrid.FullFeedPlacement | projects/web/src/pages/Home/HeroGrid/index.js:101-138 | with the 8 stories the query asks for, the compact list gets stories 5–7 and every story appears exactly once |
| HeroGrid.RenderGrid | projects/web/src/pages/Home/HeroGrid/index.js:101-111 | the grid's cards in document order, the first TypeError aborting it; its contracts are the HeroGrid lemmas around it |
| HeroGrid.RenderWhileLoading | projects/web/src/pages/Home/HeroGrid/index.js:101-111 | while loading, the grid renders, and the same way for any stories |
| HeroGrid.RenderLoadedIff | projects/web/src/pages/Home/HeroGrid/index.js:101-111 | once loaded, the grid renders exactly when there are at least 5 stories and the first is not flagged under a null publication |
| HeroGrid.GridLayout | projects/web/src/pages/Home/HeroGrid/index.js:101-111 | a rendered grid has three small cards, a compact list alternating article and separator (6 nodes while loading, 2 per compact story once loaded), and the `See all featured >` link to `/` |
| HeroGrid.EnhancedHeroGridFeedsGrid | projects/web/src/pages/Home/HeroGrid/index.js:161-175 | a query error renders `'error'`; otherwise the grid gets the normalised stories and the query's loading flag |
| HeroGrid.EnhancedHeroGrid | projects/web/src/pages/Home/HeroGrid/index.js:163-175 | what EnhancedHeroGrid shows: the query child's text, or the grid rendered from the props it passes; contract in `HeroGrid.EnhancedHeroGridShows` |
| HeroGrid.EnhancedHeroGridShows | projects/web/src/pages/Home/HeroGrid/index.js:163-175 | the page is `'error'` exactly on a query error; otherwise it is `RenderGrid` of the query's normalised stories and loading flag, or of the caller's own stories when the caller passes them |
| Feed.RenderFeed | projects/web/src/pages/Home/Feeds/Feed/index.js:6 | the Feed component: the fixed text `feed`, whatever its props |
| Feed.FeedEnhancer | projects/web/src/pages/Home/Feeds/Feed/index.js:40-52 | the text the page shows: `'error'` from the query child, or what Feed renders; its contract is `Feed.FeedEnhancerText` |
| Feed.FeedEnhancerText | projects/web/src/pages/Home/Feeds/Feed/index.js:40-52 | the page shows `'error'` exactly on a query error and `feed` exactly otherwise |
| Feed.FullPageStories | projects/web/src/pages/Home/Feeds/Feed/index.js:13-49 | an instance of `Feed.FeedEnhancerPassThrough` for a page of exactly the `feed(first: 5)` size: Feed receives those five nodes in order; the request itself is not modelled, so nothing ties the query to five edges |
| Feed.FeedEnhancerPassThrough | projects/web/src/pages/Home/Feeds/Feed/index.js:38-52 | a query error renders `'error'`; otherwise Feed gets story i as edge i's node (none without data), the loading flag, and every caller prop unchanged |
| TopicBarView.RenderTopics | projects/web/src/pages/Index/TopicBar/index.js:60-65 | one item per topic, in order, linking to its path and showing its topic |
| TopicBarView.TopicItems | projects/web/src/pages/Index/TopicBar/index.js:54-65 | the bar shows Home, Technology and Culture, in that order, each linking to `/` |
| TopicBarView.BoxShadow | projects/web/src/pages/Index/TopicBar/index.js:17 | `var(--bottom-shadow)` exactly when the shadow is on, `none` exactly when it is off |
| TopicBarView.AfterIntersectionChange | projects/web/src/pages/Index/TopicBar/index.js:75-76 | the state one callback leaves: `!isIntersecting` |
| TopicBarView.Replay | projects/web/src/pages/Index/TopicBar/index.js:75-76 | the state after a sequence of callbacks; its contracts are `TopicBarView.ReplayLatest` and `TopicBarView.ReplayRepeatIsNoOp` |
| TopicBarView.ReplayLatest | projects/web/src/pages/Index/TopicBar/index.js:75-76 | after any sequence of observer callbacks, the shadow is on exactly when the last one reported not intersecting |
| TopicBarView.ReplayRepeatIsNoOp | projects/web/src/pages/Index/TopicBar/index.js:75-76 | a repeated callback with the same intersection state changes nothing |
| TopicBarView.TopicBar.constructor | projects/web/src/pages/Index/TopicBar/index.js:68 | the bar starts without a shadow |
| TopicBarView.TopicBar.HandleIntersectionChange | projects/web/src/pages/Index/TopicBar/index.js:75-76 | the new state is "not intersecting", whatever the old state was |
| TopicBarView.TopicBar.Render | projects/web/src/pages/Index/TopicBar/index.js:78-89 | the nav's shadow follows the state, and its list is the three topic items |
| AuthApi.AuthEndpoint | projects/web/src/api/auth.js:5-7 | AUTH_ENDPOINT: the API URL as interpolated (`undefined` when unset) and `/auth` |
| AuthApi.CallbackUrl | projects/web/src/api/auth.js:12 | getCallbackUrl; its contract is `AuthApi.CallbackUrlShape` |
| AuthApi.RefreshUrl | projects/web/src/api/auth.js:28 | the refresh URL `<endpoint>/refresh` |
| AuthApi.AuthTokenRequest | projects/web/src/api/auth.js:17-18 | the request getAuthToken sends; its contract is `AuthApi.AuthTokenRequestShape` |
| AuthApi.RefreshBody | projects/web/src/api/auth.js:29 | `JSON.stringify({ token })` for a string, null or undefined token |
| AuthApi.RefreshRequest | projects/web/src/api/auth.js:27-32 | the request refreshAuthToken sends; its contract is `AuthApi.RefreshRequestShape` |
| AuthApi.CallbackUrlShape | projects/web/src/api/auth.js:7-12 | the callback URL is the endpoint, `/`, the provider, `/callback?code=` and the code, inserted as given |
| AuthApi.UnsetApiUrl | projects/web/src/api/auth.js:5-7 | an unset API URL gives the endpoint `undefined/auth` |
| AuthApi.AuthTokenRequestShape | projects/web/src/api/auth.js:17-18 | getAuthToken sends a GET, with no body, to the callback URL for its provider and code |
| AuthApi.RefreshRequestShape | projects/web/src/api/auth.js:27-32 | the refresh is a POST to `<endpoint>/refresh` with a JSON content type, and the old token (string, null or undefined) reads back from its body |
| Json.Quote | projects/web/src/api/auth.js:29 | the JSON text of a string, with the escapes of QuoteJSONString in ECMA-262; `Json.Unquote` inverts it |
| Json.UnquoteQuote | projects/web/src/api/auth.js:29 | every string reads back from the JSON text `JSON.stringify` writes for it |
| AuthTypes.AddModuleNamespace | projects/web/src/modules/auth/types.js:3-5 | `auth/` followed by the name; its contracts are `AuthTypes.StripAddRoundTrip` and `AuthTypes.AddModuleNamespaceInjective` |
| AuthTypes.StripAddRoundTrip | projects/web/src/modules/auth/types.js:3-5 | stripping `auth/` recovers the name, and only namespaced types strip to a name |
| AuthTypes.AddModuleNamespaceInjective | projects/web/src/modules/auth/types.js:5 | distinct action names give distinct action types |
| AuthTypes.ActionTypes | projects/web/src/modules/auth/types.js:9-13 | the four action types are `auth/` plus their names, and they are pairwise distinct |
| ThemeHelpers.AddUnit | projects/web/src/theme/helpers.js:4 | addUnit(unit) as a function of the raw value; its contract is `ThemeHelpers.AddUnitShape` |
| ThemeHelpers.AddRemUnit | projects/web/src/theme/helpers.js:9 | addUnit with `rem`; its contract is `ThemeHelpers.RemAndPx` |
| ThemeHelpers.AddPxUnit | projects/web/src/theme/helpers.js:14 | addUnit with `px`; its contract is `ThemeHelpers.RemAndPx` |
| ThemeHelpers.AddUnitShape | projects/web/src/theme/helpers.js:4 | the result is the raw value's text followed by the unit, and the raw value reads back from it |
| ThemeHelpers.RemAndPx | projects/web/src/theme/helpers.js:9-14 | addRemUnit appends `rem` and addPxUnit appends `px`, and both read back |
| Dangerfile.LockfileWarning | dangerfile.ts:5-14 | warnIfLockfileNotUpdated: the warning it raises, if any |
| Dangerfile.RunWarnings | dangerfile.ts:17 | the warnings one run emits; its contracts are the Dangerfile lemmas below |
| Dangerfile.WarnsIff | dangerfile.ts:5-14 | the run warns, at most once and with the fixed message-plus-idea text, exactly when package.json changed and yarn.lock did not |
| Dangerfile.SilentCases | dangerfile.ts:6-9 | also changing yarn.lock, or not touching package.json, keeps the run silent |
| Dangerfile.DependsOnlyOnFileSet | dangerfile.ts:6-7 | only the set of modified files matters, not their order or repetition |
| GenSecrets.PathJoin | scripts/gen_secrets.py:9-11 | `os.path.join` of two POSIX components: an absolute second part replaces the first, otherwise one `/` between them unless the first already ends in `/` |
| GenSecrets.JoinRelative | scripts/gen_secrets.py:9-11 | `os.path.join` of a relative component onto a path not ending in `/` puts exactly one `/` between them |
| GenSecrets.GetPath | scripts/gen_secrets.py:6-20 | get_path for a given project root; its contracts are `GenSecrets.GetPathCases` and `GenSecrets.GetPathFileName` |
| GenSecrets.SecretsPathUnder | scripts/gen_secrets.py:9-20 | the file under a k8s sub-directory is `<root>/k8s/<sub>/secrets.yaml` |
| GenSecrets.GetPathCases | scripts/gen_secrets.py:6-20 | for a project root that is non-empty and does not end in `/`: `dev`/`development` give `<root>/k8s/development/secrets.yaml`, `prod`/`production` give `<root>/k8s/production/secrets.yaml`, and any other namespace raises UnboundLocalError on `dirname` |
| GenSecrets.GetPathFileName | scripts/gen_secrets.py:13-20 | for any root, a path is produced exactly for the four known namespaces, and it ends in `/secrets.yaml` |
| GenSecrets.GenString | scripts/gen_secrets.py:23-37 | gen_string; its contracts are `GenSecrets.GenStringLines` and `GenSecrets.GenStringMissingKeys` |
| GenSecrets.LinesJoinLines | scripts/gen_secrets.py:28-37 | splitting the joined manifest lines on line breaks gives the lines back, when no line contains a break |
| GenSecrets.GenStringLines | scripts/gen_secrets.py:23-37 | when a namespace is given and neither it nor the client secret contains a line break: the manifest is exactly nine lines, with the namespace under `metadata` and the client secret (or `None`) under `data` |
| GenSecrets.GenStringMissingKeys | scripts/gen_secrets.py:33-36 | a missing namespace is exactly the KeyError case; a missing client secret renders the same as the text `None` |

## Left out

- I/O is not modelled: the `fetch` calls, awaiting the response and reading `token` from its JSON, the Apollo `Query` machinery, the dangerfile's `warn` and the secrets file writing. The model covers the requests and texts those calls receive and produce.
- `gen_secrets()` is not modelled beyond `get_path` and `gen_string`. It passes an undefined `namespace` (a NameError) and calls `gen_string()` with no arguments; the model covers `gen_string` for any keyword arguments, including none.
- `gen_string`'s keyword values are modelled as the strings `str()` gives; non-string values are not modelled.
- The random height of the small card's image URL (`Math.random()`) is not modelled, and neither are the fixed picsum image URLs. Only the links' `to` targets are modelled.
- JSX markup, styled-components CSS, content-loader geometry and the IntersectionObserver wiring are not modelled. Cards are modelled by their visible fields and links.
- Numbers are integers. `readTime` and the CSS raw values are not floating point here, and their text is the exact decimal form, which is what JavaScript prints for integers of magnitude at most 2^53, one more than `Number.MAX_SAFE_INTEGER`.
- JsText.NumText: above 2^53 it gives the integer's exact digits. JavaScript's Number::toString prints the shortest digits that round back to the double and pads them with zeros (`2**60` prints as `1152921504606847000`). Integers such as 2^53+1 are not Numbers at all. Those magnitudes are not modelled.
- `max` in truncateString is an integer; a fractional or NaN `max` is not modelled.
- String length is measured in Unicode scalar values, not JavaScript's UTF-16 code units, so characters outside the Basic Multilingual Plane count once here and twice in JavaScript.
- Author names and usernames are always strings. An undefined or null `firstName` (which JavaScript would print as `undefined`/`null`) is not modelled, and neither is a missing `author` object.
- The provider and code in the callback URL are strings; undefined arguments are not modelled.
- HeroGrid.EnhancedHeroGrid: a caller prop that replaces `stories` or `loading` with a value of another kind gives `IllTypedProps`; what the grid would then render is not modelled.
- This TopicBar has no scroll-range tracker: its only state is the boolean shadow flag, which is fully modelled.
- React's asynchronous `setState` batching is not modelled: each observer callback is applied immediately.
