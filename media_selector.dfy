/**
 * Choosing the media of a located pin object (extractMedia.js, lines
 * 70-149): the standard video, then the story-pin pages, then the image
 * fallback chain.
 */
module MediaSelector {
  import opened Wrappers
  import opened JsValue
  import opened JsString

  /** The `m3u8` marker of an HLS playlist URL. */
  const HlsExtension: string := ".m3u8"

  /** The result the extractor returns. */
  datatype Media =
    | Video(format: string, url: Json, poster: Val)
    | Image(format: string, imageUrl: Val)

  /** The outcome of selection: the media, no usable media, or a TypeError
      thrown while walking the pin object. */
  datatype Selected = Chosen(media: Media) | NoMedia | Threw(fault: Fault)

  /** What a video search has found so far: nothing, a truthy URL with its
      poster, or a TypeError. */
  datatype Walk = Missed | Found(url: Json, poster: Val) | Crashed(fault: Fault)

  /** `videoUrl` and `videoPoster` after the standard-video step. */
  datatype Pick = Pick(url: Val, poster: Val)

  // ---------------------------------------------------------------------
  // A. Standard video
  // ---------------------------------------------------------------------

  /** The guard of the standard-video step: a truthy `videos.video_list`, or
      a truthy `story_pin_data` without truthy `pages`. */
  predicate StandardVideoEntered(pin: Json) {
    var p := Some(pin);
    var videos := Get(p, "videos");
    var story := Get(p, "story_pin_data");
    (Truthy(videos) && Truthy(Get(videos, "video_list"))) || (Truthy(story) && !Truthy(Get(story, "pages")))
  }

  /** `videos.video_list`, or else the `video.video_list` of the story's
      first block. */
  function StandardVideoList(pin: Json): Val {
    var p := Some(pin);
    Or(GetPath(p, ["videos", "video_list"]),
       GetPath(Elem0(GetPath(p, ["story_pin_data", "blocks"])), ["video", "video_list"]))
  }

  /** The renditions the standard-video step tries, best first. */
  function StandardRenditions(videoList: Val): seq<Val> {
    [Get(videoList, "V_720P"), Get(videoList, "V_480P"), Get(videoList, "V_360P")]
  }

  function StandardVideo(pin: Json): Pick {
    if StandardVideoEntered(pin) then
      var videoList := StandardVideoList(pin);
      if Truthy(videoList) then
        var video := OrAll(StandardRenditions(videoList));
        if Truthy(video) then Pick(Get(video, "url"), GetPath(Some(pin), ["images", "orig", "url"]))
        else Pick(None, None)
      else Pick(None, None)
    else Pick(None, None)
  }

  /** The standard-video step sets a URL only when its guard holds; it then
      takes the `url` of the first truthy of V_720P, V_480P, V_360P in the
      video list, with `images.orig.url` as the poster, and sets nothing when
      the list or every rendition is falsy. */
  lemma StandardVideoRule(pin: Json)
    ensures !StandardVideoEntered(pin) ==> StandardVideo(pin) == Pick(None, None)
    ensures StandardVideoEntered(pin) && Truthy(StandardVideoList(pin)) ==>
              var renditions := StandardRenditions(StandardVideoList(pin));
              && ((forall i :: 0 <= i < 3 ==> !Truthy(renditions[i])) ==> StandardVideo(pin) == Pick(None, None))
              && forall i :: IsFirstTruthy(renditions, i) ==>
                   StandardVideo(pin) == Pick(Get(renditions[i], "url"), GetPath(Some(pin), ["images", "orig", "url"]))
    ensures !Truthy(StandardVideoList(pin)) ==> StandardVideo(pin) == Pick(None, None)
  {
    if StandardVideoEntered(pin) && Truthy(StandardVideoList(pin)) {
      OrAllPicksFirstTruthy(StandardRenditions(StandardVideoList(pin)));
    }
  }

  // ---------------------------------------------------------------------
  // B. Story-pin pages
  // ---------------------------------------------------------------------

  /** The renditions a story block's video object offers, best first:
      `videoList720P.v720P`, then V_720P, vHLSV3MOBILE and vHLSV4 of
      `videoList` (or, when that is falsy, of `video_list`). */
  function BlockRenditions(videoObj: Val): seq<Val> {
    var videoList := OrAll([Get(videoObj, "videoList"), Get(videoObj, "video_list"), Some(Obj([]))]);
    var videoList720 := Or(Get(videoObj, "videoList720P"), Some(Obj([])));
    [Get(videoList720, "v720P"), Get(videoList, "V_720P"), Get(videoList, "vHLSV3MOBILE"), Get(videoList, "vHLSV4")]
  }

  /** A block's video object: `videoDataV2`, or else `video`. */
  function BlockVideoObject(block: Json): Val {
    Or(Get(Some(block), "videoDataV2"), Get(Some(block), "video"))
  }

  /** What one story block contributes. */
  function BlockRendition(block: Json): Walk {
    if block.Null? then Crashed(NullProperty("videoDataV2"))
    else
      var videoObj := BlockVideoObject(block);
      if !Truthy(videoObj) then Missed
      else
        var video := OrAll(BlockRenditions(videoObj));
        var url := Get(video, "url");
        if Truthy(video) && Truthy(url) then
          Found(url.value, Or(GetPath(videoObj, ["videoListMobile", "vHLSV3MOBILE", "thumbnail"]),
                              GetPath(Some(block), ["image", "url"])))
        else Missed
  }

  /** A block yields a video exactly when its video object is truthy and the
      first truthy of its renditions has a truthy `url`; that `url` is then
      the video, and its poster is `videoListMobile.vHLSV3MOBILE.thumbnail`
      of the video object, or else the block's `image.url`. A null block
      throws. */
  lemma BlockRenditionRule(block: Json)
    ensures block.Null? ==> BlockRendition(block) == Crashed(NullProperty("videoDataV2"))
    ensures !block.Null? ==> !BlockRendition(block).Crashed?
    ensures !block.Null? && Truthy(BlockVideoObject(block)) ==>
              var renditions := BlockRenditions(BlockVideoObject(block));
              && ((forall i :: 0 <= i < 4 ==> !Truthy(renditions[i])) ==> BlockRendition(block) == Missed)
              && forall i :: IsFirstTruthy(renditions, i) ==>
                   (BlockRendition(block).Found? <==> Truthy(Get(renditions[i], "url")))
                   && (BlockRendition(block).Found? ==> Some(BlockRendition(block).url) == Get(renditions[i], "url"))
    ensures !block.Null? && !Truthy(BlockVideoObject(block)) ==> BlockRendition(block) == Missed
    ensures !block.Null? && BlockRendition(block).Found? ==>
              BlockRendition(block).poster ==
                Or(GetPath(BlockVideoObject(block), ["videoListMobile", "vHLSV3MOBILE", "thumbnail"]),
                   GetPath(Some(block), ["image", "url"]))
  {
    if !block.Null? && Truthy(BlockVideoObject(block)) {
      OrAllPicksFirstTruthy(BlockRenditions(BlockVideoObject(block)));
    }
  }

  function WalkBlocks(blocks: seq<Json>): Walk {
    if blocks == [] then Missed
    else
      var r := BlockRendition(blocks[0]);
      if r.Missed? then WalkBlocks(blocks[1..]) else r
  }

  /** What one story page contributes: its blocks in order. */
  function PageRendition(page: Json): Walk {
    if page.Null? then Crashed(NullProperty("blocks"))
    else
      var blocks := Get(Some(page), "blocks");
      if !Truthy(blocks) then Missed
      else match Iterate(blocks.value, "page.blocks")
        case Failure(f) => Crashed(f)
        case Success(bs) => WalkBlocks(bs)
  }

  /** A null page throws on reading `blocks`; a page whose `blocks` is falsy
      misses; truthy `blocks` that cannot be iterated throw "page.blocks is
      not iterable"; otherwise the page yields the walk of its blocks. */
  lemma PageRenditionRule(page: Json)
    ensures page.Null? ==> PageRendition(page) == Crashed(NullProperty("blocks"))
    ensures !page.Null? && !Truthy(Get(Some(page), "blocks")) ==> PageRendition(page) == Missed
    ensures var blocks := Get(Some(page), "blocks");
            !page.Null? && Truthy(blocks) ==>
              && (blocks.value.Arr? ==> PageRendition(page) == WalkBlocks(blocks.value.items))
              && (!(blocks.value.Arr? || blocks.value.Str?) ==>
                    PageRendition(page) == Crashed(NotIterable("page.blocks")))
    ensures var blocks := Get(Some(page), "blocks");
            !page.Null? && Truthy(blocks) && blocks.value.Str? ==> PageRendition(page) == Missed
  {
    var blocks := Get(Some(page), "blocks");
    if !page.Null? && Truthy(blocks) && blocks.value.Str? {
      var chars := Iterate(blocks.value, "page.blocks").value;
      forall j | 0 <= j < |chars| ensures BlockRendition(chars[j]).Missed? {
        assert chars[j].Str?;
      }
      WalkBlocksFirst(chars, |chars|);
    }
  }

  function WalkPages(pages: seq<Json>): Walk {
    if pages == [] then Missed
    else
      var r := PageRendition(pages[0]);
      if r.Missed? then WalkPages(pages[1..]) else r
  }

  /** Walking two runs of blocks: the second run is reached only when the
      first yields nothing, so a later block never replaces an earlier
      block's video. */
  lemma {:induction false} WalkBlocksAppend(xs: seq<Json>, ys: seq<Json>)
    ensures WalkBlocks(xs + ys) == if WalkBlocks(xs).Missed? then WalkBlocks(ys) else WalkBlocks(xs)
  {
    if xs == [] {
      assert xs + ys == ys;
    } else {
      assert (xs + ys)[0] == xs[0];
      assert (xs + ys)[1..] == xs[1..] + ys;
      WalkBlocksAppend(xs[1..], ys);
    }
  }

  /** The same for pages. */
  lemma {:induction false} WalkPagesAppend(xs: seq<Json>, ys: seq<Json>)
    ensures WalkPages(xs + ys) == if WalkPages(xs).Missed? then WalkPages(ys) else WalkPages(xs)
  {
    if xs == [] {
      assert xs + ys == ys;
    } else {
      assert (xs + ys)[0] == xs[0];
      assert (xs + ys)[1..] == xs[1..] + ys;
      WalkPagesAppend(xs[1..], ys);
    }
  }

  /** The walk's answer is that of the first block that yields anything
      (a video or a TypeError); it misses only when every block misses. */
  lemma {:induction false} WalkBlocksFirst(blocks: seq<Json>, i: int)
    requires 0 <= i <= |blocks|
    requires forall j :: 0 <= j < i ==> BlockRendition(blocks[j]).Missed?
    ensures i < |blocks| && !BlockRendition(blocks[i]).Missed? ==> WalkBlocks(blocks) == BlockRendition(blocks[i])
    ensures i == |blocks| ==> WalkBlocks(blocks) == Missed
  {
    if i > 0 {
      assert forall j :: 0 <= j < i - 1 ==> blocks[1..][j] == blocks[j + 1];
      WalkBlocksFirst(blocks[1..], i - 1);
    }
  }

  /** The same for pages. */
  lemma {:induction false} WalkPagesFirst(pages: seq<Json>, i: int)
    requires 0 <= i <= |pages|
    requires forall j :: 0 <= j < i ==> PageRendition(pages[j]).Missed?
    ensures i < |pages| && !PageRendition(pages[i]).Missed? ==> WalkPages(pages) == PageRendition(pages[i])
    ensures i == |pages| ==> WalkPages(pages) == Missed
  {
    if i > 0 {
      assert forall j :: 0 <= j < i - 1 ==> pages[1..][j] == pages[j + 1];
      WalkPagesFirst(pages[1..], i - 1);
    }
  }

  /** The story walk as the source runs it: pages in order, blocks in order
      within each page, leaving both loops at the first block whose chosen
      rendition has a truthy `url`; a null page or block, or `blocks` that
      cannot be iterated, throws. */
  method WalkStory(pages: seq<Json>) returns (w: Walk)
    ensures w == WalkPages(pages)
  {
    w := Missed;
    var i := 0;
    while i < |pages|
      invariant 0 <= i <= |pages|
      invariant w == Missed
      invariant WalkPages(pages) == WalkPages(pages[i..])
    {
      var page := pages[i];
      if page.Null? {
        w := Crashed(NullProperty("blocks"));
        return;
      }
      var blocks := Get(Some(page), "blocks");
      if Truthy(blocks) {
        var iterated := Iterate(blocks.value, "page.blocks");
        if iterated.Failure? {
          w := Crashed(iterated.error);
          return;
        }
        var bs := iterated.value;
        var j := 0;
        while j < |bs|
          invariant 0 <= j <= |bs|
          invariant w == Missed
          invariant WalkBlocks(bs) == WalkBlocks(bs[j..])
        {
          var r := BlockRendition(bs[j]);
          if r.Crashed? {
            w := r;
            return;
          }
          if r.Found? {
            w := r;
            break;
          }
          assert bs[j..][1..] == bs[j + 1..];
          j := j + 1;
        }
        assert w == PageRendition(page);
      }
      if w.Found? {
        break;
      }
      assert pages[i..][1..] == pages[i + 1..];
      i := i + 1;
    }
  }

  /** The story-pin step: `storyPinData`, or else `story_pin_data`, walked
      when it has truthy `pages`. */
  function StoryVideo(pin: Json): Walk {
    var p := Some(pin);
    var storyData := Or(Get(p, "storyPinData"), Get(p, "story_pin_data"));
    var pages := Get(storyData, "pages");
    if Truthy(storyData) && Truthy(pages) then
      match Iterate(pages.value, "storyData.pages")
      case Failure(f) => Crashed(f)
      case Success(ps) => WalkPages(ps)
    else Missed
  }

  /** The story step reads `storyPinData` in preference to
      `story_pin_data`; it misses unless that story data and its `pages` are
      truthy; `pages` that cannot be iterated throw "storyData.pages is not
      iterable"; an array of pages is walked page by page. */
  lemma StoryVideoRule(pin: Json)
    ensures var p := Some(pin);
            var storyData := if Truthy(Get(p, "storyPinData")) then Get(p, "storyPinData")
                             else Get(p, "story_pin_data");
            var pages := Get(storyData, "pages");
            && (!Truthy(storyData) || !Truthy(pages) ==> StoryVideo(pin) == Missed)
            && (Truthy(storyData) && Truthy(pages) && pages.value.Arr? ==>
                  StoryVideo(pin) == WalkPages(pages.value.items))
            && (Truthy(storyData) && Truthy(pages) && !(pages.value.Arr? || pages.value.Str?) ==>
                  StoryVideo(pin) == Crashed(NotIterable("storyData.pages")))
            && (Truthy(storyData) && Truthy(pages) && pages.value.Str? ==> StoryVideo(pin) == Missed)
  {
    var p := Some(pin);
    var storyData := Or(Get(p, "storyPinData"), Get(p, "story_pin_data"));
    var pages := Get(storyData, "pages");
    if Truthy(storyData) && Truthy(pages) && pages.value.Str? {
      var chars := Iterate(pages.value, "storyData.pages").value;
      forall j | 0 <= j < |chars| ensures PageRendition(chars[j]).Missed? {
        assert chars[j].Str?;
      }
      WalkPagesFirst(chars, |chars|);
    }
  }

  /** The video URL and poster after both video steps. */
  function VideoChoice(pin: Json): Walk {
    var standard := StandardVideo(pin);
    if Truthy(standard.url) then Found(standard.url.value, standard.poster) else StoryVideo(pin)
  }

  /** Whatever a video step finds is a truthy URL; the story pages are
      consulted only when the standard video step found no URL. */
  lemma VideoChoiceRule(pin: Json)
    ensures VideoChoice(pin).Found? ==> Truthy(Some(VideoChoice(pin).url))
    ensures Truthy(StandardVideo(pin).url) ==>
              VideoChoice(pin) == Found(StandardVideo(pin).url.value, StandardVideo(pin).poster)
    ensures !Truthy(StandardVideo(pin).url) ==> VideoChoice(pin) == StoryVideo(pin)
  {
    var walk := StoryVideo(pin);
    if !Truthy(StandardVideo(pin).url) && walk.Found? {
      var p := Some(pin);
      var storyData := Or(Get(p, "storyPinData"), Get(p, "story_pin_data"));
      var pages := Get(storyData, "pages");
      WalkPagesFound(Iterate(pages.value, "storyData.pages").value);
    }
  }

  lemma {:induction false} WalkBlocksFound(blocks: seq<Json>)
    ensures WalkBlocks(blocks).Found? ==> Truthy(Some(WalkBlocks(blocks).url))
  {
    if blocks != [] {
      WalkBlocksFound(blocks[1..]);
    }
  }

  lemma {:induction false} WalkPagesFound(pages: seq<Json>)
    ensures WalkPages(pages).Found? ==> Truthy(Some(WalkPages(pages).url))
  {
    if pages != [] {
      WalkPagesFound(pages[1..]);
      var page := pages[0];
      if !page.Null? {
        var blocks := Get(Some(page), "blocks");
        if Truthy(blocks) && Iterate(blocks.value, "page.blocks").Success? {
          WalkBlocksFound(Iterate(blocks.value, "page.blocks").value);
        }
      }
    }
  }

  // ---------------------------------------------------------------------
  // Result assembly
  // ---------------------------------------------------------------------

  /** `videoUrl.includes(".m3u8") ? "m3u8" : "mp4"` for a truthy URL: a
      string tests for the substring, an array for an element equal to the
      string; any other value has no `includes` method and throws. */
  function FormatOf(url: Json): (r: Result<string, Fault>)
    ensures url.Str? ==> r == Success(if Includes(url.s, HlsExtension) then "m3u8" else "mp4")
    ensures url.Str? ==> (r == Success("m3u8") <==> exists k :: OccursAt(url.s, HlsExtension, k))
    ensures url.Arr? ==> r == Success(if Str(HlsExtension) in url.items then "m3u8" else "mp4")
    ensures !(url.Str? || url.Arr?) ==> r == Failure(NotAFunction("videoUrl.includes"))
  {
    match url
    case Str(s) => Success(if Includes(s, HlsExtension) then "m3u8" else "mp4")
    case Arr(items) => Success(if Str(HlsExtension) in items then "m3u8" else "mp4")
    case _ => Failure(NotAFunction("videoUrl.includes"))
  }

  /** The image candidates, best first: `images.orig`, `images["736x"]`,
      `images["564x"]`, `imageSpec_orig`, `images_orig`. */
  function ImageCandidates(pin: Json): seq<Val> {
    var p := Some(pin);
    [GetPath(p, ["images", "orig"]), GetPath(p, ["images", "736x"]), GetPath(p, ["images", "564x"]),
     Get(p, "imageSpec_orig"), Get(p, "images_orig")]
  }

  function SelectMedia(pin: Json): Selected {
    match VideoChoice(pin)
    case Crashed(f) => Threw(f)
    case Found(url, poster) =>
      (match FormatOf(url)
       case Failure(f) => Threw(f)
       case Success(format) => Chosen(Video(format, url, poster)))
    case Missed =>
      var image := OrAll(ImageCandidates(pin));
      if Truthy(image) then Chosen(Image("jpg", Get(image, "url"))) else NoMedia
  }

  /** Lines 70-149 as the source runs them, with the mutable `videoUrl` and
      `videoPoster`: the standard video, then the story pages while no URL
      is known, then the format test or the image chain. */
  method ChooseMedia(pin: Json) returns (selected: Selected)
    ensures selected == SelectMedia(pin)
  {
    var standard := StandardVideo(pin);
    var videoUrl, videoPoster := standard.url, standard.poster;

    if !Truthy(videoUrl) {
      var p := Some(pin);
      var storyData := Or(Get(p, "storyPinData"), Get(p, "story_pin_data"));
      var pages := Get(storyData, "pages");
      if Truthy(storyData) && Truthy(pages) {
        var iterated := Iterate(pages.value, "storyData.pages");
        if iterated.Failure? {
          return Threw(iterated.error);
        }
        var walk := WalkStory(iterated.value);
        if walk.Crashed? {
          return Threw(walk.fault);
        }
        if walk.Found? {
          WalkPagesFound(iterated.value);
          videoUrl, videoPoster := Some(walk.url), walk.poster;
        }
      }
      assert VideoChoice(pin) == StoryVideo(pin);
    }

    if Truthy(videoUrl) {
      assert VideoChoice(pin) == Found(videoUrl.value, videoPoster);
      var format := FormatOf(videoUrl.value);
      if format.Failure? {
        return Threw(format.error);
      }
      return Chosen(Video(format.value, videoUrl.value, videoPoster));
    }

    assert VideoChoice(pin).Missed?;
    var image := OrAll(ImageCandidates(pin));
    if Truthy(image) {
      return Chosen(Image("jpg", Get(image, "url")));
    }
    return NoMedia;
  }

  /** A found video URL always wins over every image: the result is a video
      with that URL and poster, formatted "m3u8" exactly when a string URL
      contains ".m3u8" and "mp4" otherwise; a URL that is neither a string
      nor an array makes the format test throw. */
  lemma VideoWinsOverImage(pin: Json)
    requires VideoChoice(pin).Found?
    ensures var url := VideoChoice(pin).url;
            && (SelectMedia(pin).Chosen? ==>
                  SelectMedia(pin).media.Video? && SelectMedia(pin).media.url == url
                  && SelectMedia(pin).media.poster == VideoChoice(pin).poster)
            && (url.Str? ==>
                  (&& SelectMedia(pin).Chosen?
                   && (SelectMedia(pin).media.format == "m3u8" <==> Includes(url.s, HlsExtension))
                   && (SelectMedia(pin).media.format == "mp4" <==> !Includes(url.s, HlsExtension))))
            && (!SelectMedia(pin).Chosen? ==>
                  !(url.Str? || url.Arr?) && SelectMedia(pin) == Threw(NotAFunction("videoUrl.includes")))
  {
  }

  /** With no video, the image is the first truthy candidate, always with
      format "jpg" and that candidate's `url`; with no truthy candidate there
      is no usable media. */
  lemma ImageFallback(pin: Json)
    requires VideoChoice(pin).Missed?
    ensures SelectMedia(pin).Chosen? <==> exists i :: 0 <= i < 5 && Truthy(ImageCandidates(pin)[i])
    ensures forall i :: IsFirstTruthy(ImageCandidates(pin), i) ==>
              SelectMedia(pin) == Chosen(Image("jpg", Get(ImageCandidates(pin)[i], "url")))
    ensures !SelectMedia(pin).Chosen? ==> SelectMedia(pin) == NoMedia
  {
    OrAllPicksFirstTruthy(ImageCandidates(pin));
  }

  /** Selection fails only by finding nothing at all or by a TypeError, and
      every image it returns has format "jpg". */
  lemma SelectionShape(pin: Json)
    ensures SelectMedia(pin).Chosen? && SelectMedia(pin).media.Image? ==> SelectMedia(pin).media.format == "jpg"
    ensures SelectMedia(pin).Chosen? && SelectMedia(pin).media.Video? ==>
              SelectMedia(pin).media.format in {"m3u8", "mp4"} && VideoChoice(pin).Found?
    ensures SelectMedia(pin) == NoMedia ==>
              VideoChoice(pin).Missed? && forall i :: 0 <= i < 5 ==> !Truthy(ImageCandidates(pin)[i])
  {
    if VideoChoice(pin).Missed? {
      OrAllPicksFirstTruthy(ImageCandidates(pin));
    }
  }
}
