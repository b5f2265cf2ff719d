# Pinterest pin media extraction, modelled in Dafny

This project models `extractPinterestMedia` of a small Pinterest downloader
(extractMedia.js). Given a pin URL, the function fetches the pin's page,
finds the pin object that the page embeds as JSON, chooses one video or
image from it, and returns `{type, format, url[, poster]}`. Every error is
re-raised as "Failed to resolve Pinterest media: …".

The model covers the decision logic. The fetch, the HTML parser and
`JSON.parse` are inputs:

- the fetch is a `Fetched` value: either a `Page` or the message of the fetch error;
- a `Page` holds the text of the `#__PWS_DATA__` element (if any), the texts of the page's
  script elements in document order, and the final URL after redirects;
- `JSON.parse` is an arbitrary `string -> Option<Json>`. `None` stands for the exception the
  source catches.

Modules, one per concern of the source function:

- `Wrappers`: `Option` and `Result`.
- `JsValue`: parsed JSON values and the JavaScript semantics the extractor depends on. This
  covers truthiness, `a || b` chains, property access and optional chaining, `x?.[0]`,
  `Object.keys(x)[0]` (array-index keys first in ascending order, then insertion order),
  `for … of`, and the TypeErrors these can throw. `undefined` is `None`. A JSON object keeps
  its pairs in source order, and the last duplicate key wins, as with `JSON.parse`.
- `JsString`: `indexOf`, `lastIndexOf`, `includes`, and `substring` (which clamps its bounds
  and swaps them when reversed).
- `PinLocator`: strategy 1 (the Redux state in `#__PWS_DATA__`) and strategy 2. Strategy 2
  scans the relay scripts, slices from the first `", {"` to the last `"});"`, and stops at the
  first hit. `ScanRelayScripts` is the scan as a loop with an early exit. It is proved equal to
  `FirstRelayHit`.
- `MediaSelector`: the standard video, then the story-pin pages, then the image fallback
  chain, and the m3u8/mp4 format rule. `WalkStory` is the nested page/block walk with its
  `break`s, and is proved equal to `WalkPages`. `ChooseMedia` is the step sequence with the
  mutable `videoUrl`/`videoPoster`, and is proved equal to `SelectMedia`.
- `ExtractMedia`: the whole function. `ExtractPinterestMedia` runs it with the mutable
  `pinData` and is proved equal to `Resolve`. This module also holds the error taxonomy and
  messages.

The model follows the code's behaviour:

- The code tries the standard video before any story pages.
- The code returns one item. It has no multi-item results, no hotspots and no GIF kind.
- The code reads `videos.video_list`, not `images.video_list`.
- Every error, including a TypeError met while walking the pin object, becomes
  "Failed to resolve Pinterest media: " plus the original message. No error is mapped to a
  no-media error.
- Strategy 1 wins only when the value under the first key of `pins` is truthy. A pin map such
  as `{"1": null}` falls through to the script scan, and `StrategyOrder` states this.

## Model

| member | source | states |
|---|---|---|
| `JsValue.OrAllPicksFirstTruthy` | extractMedia.js:78-81 | an `a \|\| b \|\| …` chain is truthy iff some operand is; it yields the first truthy operand, and the last operand when none is truthy |
| `JsValue.Lookup` | extractMedia.js:26 | a property is undefined exactly when no pair has that key; otherwise its value is the one of the last pair with that key |
| `JsValue.Get` | extractMedia.js:26 | `v?.key` yields a value only when `v` is an object; null, undefined, strings, numbers, booleans and arrays give undefined |
| `JsValue.SmallestIndexKey` | extractMedia.js:27-28 | finds an array-index key present in the object and no greater than any other, or reports that there is none |
| `JsValue.FirstOwnKey` | extractMedia.js:27-28 | `Object.keys(o)[0]` exists iff the object has a pair; it is the smallest array-index key if there is one, otherwise the first key as written |
| `JsValue.FirstOwnValue` | extractMedia.js:27-28 | `pins[Object.keys(pins)[0]]`: for an object, defined iff it has a key, and then the value under its first key in Object.keys order; an array's first element; a string's first character; nothing for numbers and booleans |
| `JsValue.Iterate` | extractMedia.js:95-97 | `for … of` visits an array's elements, or a string's characters as one-character strings; any other value throws "… is not iterable" |
| `JsString.IndexOf` | extractMedia.js:43 | -1 iff the pattern occurs nowhere; otherwise an occurrence with none before it |
| `JsString.LastIndexOf` | extractMedia.js:44 | -1 iff the pattern occurs nowhere; otherwise an occurrence with none after it |
| `JsString.Includes` | extractMedia.js:41 | true iff the pattern occurs somewhere in the text |
| `JsString.Substring` | extractMedia.js:47 | in-range bounds give the text between them, and reversed bounds are swapped |
| `PinLocator.DataBlockTakesFirstKey` | extractMedia.js:22-29 | when the data block parses and `props.initialReduxState.pins` is a non-empty object, strategy 1 takes the value under the numerically smallest array-index key when there is one, and otherwise under the first key as written |
| `PinLocator.RelaySliceSpan` | extractMedia.js:43-47 | the slice exists iff both `", {"` and `"});"` occur; it runs from the `{` of the first `", {"` through the `}` of the last `"});"`, or, when that `"});"` comes first, covers the swapped range |
| `PinLocator.RelayHit` | extractMedia.js:41-53 | a script block yields only a truthy pin |
| `PinLocator.RelayHitConditions` | extractMedia.js:41-53 | a block yields a pin iff it contains the marker, both delimiters occur, and the parsed slice's `data.v3GetPinQuery.data` is truthy; that value is the pin |
| `PinLocator.FirstRelayHit` | extractMedia.js:39-59 | the scan only yields truthy pins |
| `PinLocator.ScanRelayScripts` | extractMedia.js:39-59 | the loop with early exit returns exactly the first-hit answer, and a pin it returns is the hit of one of the blocks |
| `PinLocator.FirstRelayHitExists` | extractMedia.js:39-59 | the scan finds a pin iff some block yields one |
| `PinLocator.FirstRelayHitIsFirst` | extractMedia.js:50-52 | the pin found is the one of the first block that yields one |
| `PinLocator.FirstRelayHitAppend` | extractMedia.js:39-59 | later blocks are consulted only when earlier blocks yield nothing |
| `PinLocator.ScanSkipsMisses` | extractMedia.js:41-57 | a block without the marker, a delimiter, a parsable slice or the pin path does not change the scan's result |
| `PinLocator.ScanIgnoresUnmarked` | extractMedia.js:41 | a block whose text lacks the relay marker can be removed or added anywhere without changing the scan's result |
| `PinLocator.LocatePin` | extractMedia.js:38-64 | the located pin, when there is one, is truthy |
| `PinLocator.StrategyOrder` | extractMedia.js:22-38 | a truthy strategy-1 pin is used and the scripts are never consulted; otherwise, and always when there is no data block, the pin is the scan's |
| `MediaSelector.StandardVideoRule` | extractMedia.js:74-88 | the video list is `videos.video_list`, or else `story_pin_data.blocks[0].video.video_list`; no URL unless `videos.video_list` is truthy, or `story_pin_data` is truthy without truthy `pages`; then the `url` of the first truthy of V_720P, V_480P, V_360P, with `images.orig.url` as poster; no URL when the list or every rendition is falsy |
| `MediaSelector.BlockRenditionRule` | extractMedia.js:99-116 | a null block throws; otherwise a block yields a video iff its video object (`videoDataV2`, else `video`) is truthy and the first truthy of v720P, V_720P, vHLSV3MOBILE, vHLSV4 has a truthy `url`, which is the video; its poster is `videoListMobile.vHLSV3MOBILE.thumbnail`, or else the block's `image.url` |
| `MediaSelector.PageRenditionRule` | extractMedia.js:95-97 | a null page throws on reading `blocks`; falsy `blocks` misses; an array of blocks yields the walk of those blocks; a string misses; any other `blocks` throws "page.blocks is not iterable" |
| `MediaSelector.WalkBlocksAppend` | extractMedia.js:97-117 | later blocks are reached only when every earlier block misses, so a later block never replaces an earlier video |
| `MediaSelector.WalkPagesAppend` | extractMedia.js:95-120 | later pages are reached only when every earlier page misses |
| `MediaSelector.WalkBlocksFirst` | extractMedia.js:97-115 | the walk's result is that of the first block that does not miss, or a miss when all blocks miss |
| `MediaSelector.WalkPagesFirst` | extractMedia.js:95-120 | the walk's result is that of the first page that does not miss, or a miss when all pages miss |
| `MediaSelector.WalkStory` | extractMedia.js:94-121 | the nested loops with `break` and the throwing null accesses compute exactly the page-then-block walk |
| `MediaSelector.WalkBlocksFound` | extractMedia.js:111-112 | a URL found by a block walk is truthy |
| `MediaSelector.WalkPagesFound` | extractMedia.js:111-119 | a URL found by the page walk is truthy |
| `MediaSelector.StoryVideoRule` | extractMedia.js:92-95 | the story data is `storyPinData`, else `story_pin_data`; the step misses unless it and its `pages` are truthy; an array of pages is walked; string pages miss; any other `pages` throws "storyData.pages is not iterable" |
| `MediaSelector.VideoChoiceRule` | extractMedia.js:91-122 | a found URL is truthy; the story pages are consulted only when the standard-video step found no URL, and its URL is kept otherwise |
| `MediaSelector.FormatOf` | extractMedia.js:127 | a string URL gets "m3u8" iff it contains ".m3u8", else "mp4"; an array URL tests for an element ".m3u8"; any other URL throws "videoUrl.includes is not a function" |
| `MediaSelector.ChooseMedia` | extractMedia.js:70-149 | the step sequence with the mutable video URL and poster computes exactly the selection |
| `MediaSelector.VideoWinsOverImage` | extractMedia.js:124-131 | a found video URL always wins over every image: a video with that URL and poster, "m3u8" exactly when a string URL contains ".m3u8" and "mp4" otherwise |
| `MediaSelector.ImageFallback` | extractMedia.js:133-149 | with no video, there is an image iff one of `images.orig`, `images["736x"]`, `images["564x"]`, `imageSpec_orig`, `images_orig` is truthy; it is the first truthy one's `url`, with format "jpg"; otherwise no usable media |
| `MediaSelector.SelectionShape` | extractMedia.js:124-149 | images are always "jpg", videos "m3u8" or "mp4"; no usable media means no video and no truthy image candidate |
| `ExtractMedia.ExtractPinterestMedia` | extractMedia.js:4-155 | the function as written, with its mutable `pinData`, computes exactly the resolution: fetch error, pin not found, selection, or wrapped TypeError |
| `ExtractMedia.FailureMessages` | extractMedia.js:62-153 | every failure message starts with "Failed to resolve Pinterest media: ", followed by the fetch error, "Pin data not found. URL: " and the final URL, "No usable media found in Pin data", or the TypeError's message |
| `ExtractMedia.PinNotFound` | extractMedia.js:62-64 | the call fails with "Pin data not found" exactly when neither strategy yields a truthy pin |
| `ExtractMedia.HlsVideoExample` | extractMedia.js:74-131 | a pin with `videos.video_list.V_720P.url = "https://x/video.m3u8"` gives a video with format "m3u8" |
| `ExtractMedia.OriginalImageExample` | extractMedia.js:133-147 | a pin with only `images.orig.url` gives that image with format "jpg" |
| `ExtractMedia.SameMediaEitherStrategy` | extractMedia.js:17-64 | a page without the data block, whose relay script carries the same pin as another page's data block, resolves to the same result |

## Left out

- The HTTP fetch (axios, its headers and `maxRedirects: 10`) is not modelled. The model takes the fetched page, or the fetch error's message, as input. The final URL after redirects (`request.res.responseUrl`) is an opaque string used only in the "Pin data not found" message.
- HTML parsing (cheerio) is not modelled. A page is an optional data-block text plus the script texts in document order.
- `JSON.parse` is not modelled. It is an uninterpreted partial function, and its failure stands for the exception the source catches.
- `console.error` logging is left out. It has no effect on the result.
- server.js is not part of this model. It covers routing, rate limiting, the docs page and `app.listen`.
- Positions count Unicode scalar values, not UTF-16 code units. The delimiters are ASCII, so the sliced text is the same either way. `pins[Object.keys(pins)[0]]` on a string pin map gives the first character rather than the first code unit.
- TypeError messages use V8's wording, for example "Cannot read properties of null (reading 'blocks')". Other engines word them differently.
- JSON numbers are reals, and -0 is falsy like 0. `JSON.parse` can yield `Infinity` (for `1e400`) or `0` (for `1e-400`), which reals do not represent exactly. The parser input may map such literals to any non-zero real or to `0.0`. This does not change the model's behaviour: the extractor uses a number only as a truth value, as an argument to `Object.keys`, and as a value on which `.includes` cannot be called.
- Property access only sees own properties of parsed objects. None of the names the extractor reads exists on `Object.prototype`, `String.prototype` or `Array.prototype`, other than `includes`, which `FormatOf` models.
