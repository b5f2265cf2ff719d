/**
 * `extractPinterestMedia` (extractMedia.js, lines 4-155): locate the pin
 * object, choose its media, and wrap every failure. The HTTP fetch is an
 * input: either the fetched page or the message of the fetch error.
 */
module ExtractMedia {
  import opened Wrappers
  import opened JsValue
  import opened PinLocator
  import opened MediaSelector

  /** What the HTML parser gives of a fetched page, and the URL the request
      finally reached after redirects. */
  datatype Page = Page(dataBlock: Option<string>, scripts: seq<string>, responseUrl: string)

  datatype Fetched = Fetched(page: Page) | FetchFailed(message: string)

  /** Why a resolution failed. */
  datatype Cause =
    | FetchError(message: string)
    | PinDataNotFound(responseUrl: string)
    | NoUsableMedia
    | TypeFault(fault: Fault)

  const FailurePrefix: string := "Failed to resolve Pinterest media: "

  /** The message of the error the failure first raises. */
  function CauseMessage(cause: Cause): string {
    match cause
    case FetchError(message) => message
    case PinDataNotFound(url) => "Pin data not found. URL: " + url
    case NoUsableMedia => "No usable media found in Pin data"
    case TypeFault(fault) => FaultMessage(fault)
  }

  datatype Outcome = Resolved(media: Media) | Failed(cause: Cause) {
    /** The message of the error the caller receives: every failure is
        re-raised with the same prefix. */
    function Message(): string
      requires Failed?
    {
      FailurePrefix + CauseMessage(cause)
    }
  }

  function Resolve(fetched: Fetched, parse: Parser): Outcome {
    match fetched
    case FetchFailed(message) => Failed(FetchError(message))
    case Fetched(page) =>
      var pin := LocatePin(page.dataBlock, page.scripts, parse);
      if pin.None? then Failed(PinDataNotFound(page.responseUrl))
      else match SelectMedia(pin.value)
        case Chosen(media) => Resolved(media)
        case NoMedia => Failed(NoUsableMedia)
        case Threw(fault) => Failed(TypeFault(fault))
  }

  /** The extractor as the source runs it, with its mutable `pinData`,
      `videoUrl` and `videoPoster`. */
  method ExtractPinterestMedia(fetched: Fetched, parse: Parser) returns (outcome: Outcome)
    ensures outcome == Resolve(fetched, parse)
  {
    if fetched.FetchFailed? {
      outcome := Failed(FetchError(fetched.message));
      return;
    }
    var page := fetched.page;

    // Strategy 1, then strategy 2 while no truthy pin is known.
    var pinData := PinFromDataBlock(page.dataBlock, parse);
    if !Truthy(pinData) {
      var scanned := ScanRelayScripts(page.scripts, parse);
      if scanned.Some? {
        pinData := scanned;
      }
    }
    if !Truthy(pinData) {
      outcome := Failed(PinDataNotFound(page.responseUrl));
      return;
    }
    var selected := ChooseMedia(pinData.value);
    match selected
    case Chosen(media) => outcome := Resolved(media);
    case NoMedia => outcome := Failed(NoUsableMedia);
    case Threw(fault) => outcome := Failed(TypeFault(fault));
  }

  lemma PrefixOf(message: string)
    ensures FailurePrefix <= FailurePrefix + message
  {
    assert (FailurePrefix + message)[..|FailurePrefix|] == FailurePrefix;
  }

  /** Every failure reaches the caller as one error whose message is the
      prefix followed by the first error's message: the fetch error's, "Pin
      data not found. URL: " and the final URL, "No usable media found in
      Pin data", or the TypeError's. */
  lemma FailureMessages(cause: Cause)
    ensures FailurePrefix <= Failed(cause).Message()
    ensures cause.FetchError? ==> Failed(cause).Message() == FailurePrefix + cause.message
    ensures cause.PinDataNotFound? ==>
              Failed(cause).Message() == FailurePrefix + "Pin data not found. URL: " + cause.responseUrl
    ensures cause == NoUsableMedia ==>
              Failed(cause).Message() == FailurePrefix + "No usable media found in Pin data"
    ensures cause.TypeFault? ==> Failed(cause).Message() == FailurePrefix + FaultMessage(cause.fault)
  {
    PrefixOf(CauseMessage(cause));
  }

  /** The call fails with "Pin data not found" exactly when neither
      strategy yields a truthy pin object. */
  lemma PinNotFound(page: Page, parse: Parser)
    ensures LocatePin(page.dataBlock, page.scripts, parse).None? <==>
              Resolve(Fetched(page), parse) == Failed(PinDataNotFound(page.responseUrl))
  {
  }

  /** A pin whose only media is `videos.video_list.V_720P.url`, an HLS
      playlist, resolves to that video with format "m3u8" and no poster. */
  lemma HlsVideoExample()
    ensures var url := Str("https://x/video.m3u8");
            var pin := Obj([("videos", Obj([("video_list", Obj([("V_720P", Obj([("url", url)]))]))]))]);
            SelectMedia(pin) == Chosen(Video("m3u8", url, None))
  {
    var url := Str("https://x/video.m3u8");
    var pin := Obj([("videos", Obj([("video_list", Obj([("V_720P", Obj([("url", url)]))]))]))]);
    var rendition := Obj([("url", url)]);
    var videoList := Obj([("V_720P", rendition)]);
    assert Get(Some(pin), "videos") == Some(Obj([("video_list", videoList)]));
    assert GetPath(Some(pin), ["videos", "video_list"]) == Some(videoList);
    assert StandardVideoEntered(pin);
    assert StandardVideoList(pin) == Some(videoList);
    assert StandardRenditions(Some(videoList))[0] == Some(rendition);
    OrAllPicksFirstTruthy(StandardRenditions(Some(videoList)));
    assert IsFirstTruthy(StandardRenditions(Some(videoList)), 0);
    assert GetPath(Some(pin), ["images", "orig", "url"]) == None;
    assert StandardVideo(pin) == Pick(Some(url), None);
    assert VideoChoice(pin) == Found(url, None);
    assert url.s[15..20] == HlsExtension;
    assert JsString.OccursAt(url.s, HlsExtension, 15);
    assert FormatOf(url) == Success("m3u8");
  }

  /** A pin whose only media is `images.orig.url` resolves to that image with
      format "jpg". */
  lemma OriginalImageExample()
    ensures var url := Str("https://x/i.jpg");
            var pin := Obj([("images", Obj([("orig", Obj([("url", url)]))]))]);
            SelectMedia(pin) == Chosen(Image("jpg", Some(url)))
  {
    var url := Str("https://x/i.jpg");
    var pin := Obj([("images", Obj([("orig", Obj([("url", url)]))]))]);
    OrAllPicksFirstTruthy(ImageCandidates(pin));
    assert IsFirstTruthy(ImageCandidates(pin), 0);
  }

  /** Resolution depends on the page only through the pin object: a page
      without the data block whose relay script carries the same pin as
      another page's data block resolves to the same media. */
  lemma SameMediaEitherStrategy(withBlock: Page, withoutBlock: Page, parse: Parser)
    ensures && Truthy(PinFromDataBlock(withBlock.dataBlock, parse))
            && withoutBlock.dataBlock.None?
            && FirstRelayHit(withoutBlock.scripts, parse) == PinFromDataBlock(withBlock.dataBlock, parse)
            ==> && Resolve(Fetched(withBlock), parse) == Resolve(Fetched(withoutBlock), parse)
                && (Resolve(Fetched(withBlock), parse).Resolved? ==>
                      Resolve(Fetched(withBlock), parse).media ==
                        SelectMedia(PinFromDataBlock(withBlock.dataBlock, parse).value).media)
  {
  }
}
