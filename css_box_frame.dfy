/**
 * The iframe box of the HTML renderer (`CssBoxFrame`): the choice of an
 * oEmbed endpoint for the frame's URL, the handling of the oEmbed answer and
 * of the loaded thumbnail, and the state flags the painter reads.
 *
 * Network access, JSON parsing, URI parsing, escaping and painting are not
 * modelled: a parsed URI is a record of the parts that are used, an endpoint
 * is the pair (template, URL) that `string.Format(template,
 * Uri.EscapeDataString(url))` would combine, and a JSON document is a map
 * from property names to values of three kinds.
 */
module IFrame {
  import opened Wrappers
  import opened Ascii

  /** The parts of an absolute `System.Uri` that are used: `Host`, `AbsolutePath` and `ToString()`. */
  datatype Uri = Uri(host: string, absolutePath: string, text: string)

  /** The endpoint `string.Format(template, Uri.EscapeDataString(url))`. */
  datatype Endpoint = Endpoint(template: string, url: string)

  /** The known oEmbed providers, in declaration order: host key and endpoint template. */
  const OEmbedProviders: seq<(string, string)> := [
    ("youtube.com", "https://www.youtube.com/oembed?url={0}&format=json"),
    ("youtu.be", "https://www.youtube.com/oembed?url={0}&format=json"),
    ("twitter.com", "https://publish.twitter.com/oembed?url={0}&format=json"),
    ("x.com", "https://publish.twitter.com/oembed?url={0}&format=json"),
    ("instagram.com", "https://api.instagram.com/oembed?url={0}&format=json"),
    ("reddit.com", "https://www.reddit.com/oembed?url={0}&format=json"),
    ("bsky.app", "https://bsky.app/oembed?url={0}&format=json"),
    ("threads.net", "https://www.threads.net/oembed?url={0}&format=json"),
    ("tiktok.com", "https://www.tiktok.com/oembed?url={0}")
  ]

  /** The template of "youtube.com", the first entry, which the rewrite uses. */
  const YouTubeTemplate := OEmbedProviders[0].1
  const EmbedPrefix := "/embed/"
  const WatchPrefix := "https://www.youtube.com/watch?v="

  /** `s.Contains(t)`: `t` occurs in `s` at some position (the empty string occurs everywhere). */
  predicate Contains(s: string, t: string) {
    StartsWith(s, t) || (|s| > 0 && Contains(s[1..], t))
  }

  /** The condition of the partial-match search: either string contains the other. */
  predicate Related(host: string, key: string) {
    Contains(host, key) || Contains(key, host)
  }

  /** The host after lower-casing and removing one leading "www.". */
  function NormalizedHost(host: string): string {
    var h := ToLower(host);
    if StartsWith(h, "www.") then h[4..] else h
  }

  /** The YouTube rewrite applies: a YouTube host and a path under "/embed/". */
  predicate IsYouTubeEmbed(host: string, path: string) {
    (host == "youtube.com" || host == "www.youtube.com") && StartsWith(path, EmbedPrefix)
  }

  /** The index of the entry whose key is `key`, if any. */
  function IndexOfKey(table: seq<(string, string)>, key: string): (r: Option<nat>)
    ensures r.Some? ==> r.value < |table| && table[r.value].0 == key
    ensures r.Some? ==> forall j :: 0 <= j < r.value ==> table[j].0 != key
    ensures r.None? ==> forall j :: 0 <= j < |table| ==> table[j].0 != key
  {
    if table == [] then None
    else if table[0].0 == key then Some(0)
    else match IndexOfKey(table[1..], key)
      case None => None
      case Some(j) => Some(j + 1)
  }

  /** The index of the first entry whose key is related to `host`, if any. */
  function FirstRelated(table: seq<(string, string)>, host: string): (r: Option<nat>)
    ensures r.Some? ==> r.value < |table| && Related(host, table[r.value].0)
    ensures r.Some? ==> forall j :: 0 <= j < r.value ==> !Related(host, table[j].0)
    ensures r.None? ==> forall j :: 0 <= j < |table| ==> !Related(host, table[j].0)
  {
    if table == [] then None
    else if Related(host, table[0].0) then Some(0)
    else match FirstRelated(table[1..], host)
      case None => None
      case Some(j) => Some(j + 1)
  }

  /**
   * The endpoint `GetKnownProviderEndpoint` chooses: the YouTube watch-URL
   * rewrite, else the provider whose key is the host, else the first
   * provider whose key and the host contain one another, else none.
   */
  function KnownProviderEndpoint(uri: Uri): Option<Endpoint> {
    var host := NormalizedHost(uri.host);
    if IsYouTubeEmbed(host, uri.absolutePath) then
      Some(Endpoint(YouTubeTemplate, WatchPrefix + uri.absolutePath[|EmbedPrefix|..]))
    else match IndexOfKey(OEmbedProviders, host)
      case Some(j) => Some(Endpoint(OEmbedProviders[j].1, uri.text))
      case None =>
        match FirstRelated(OEmbedProviders, host)
        case Some(j) => Some(Endpoint(OEmbedProviders[j].1, uri.text))
        case None => None
  }

  /** Finds the oEmbed endpoint of a known provider for `uri`; `None` plays the part of `null`. */
  method GetKnownProviderEndpoint(uri: Uri) returns (endpoint: Option<Endpoint>)
    ensures endpoint == KnownProviderEndpoint(uri)
  {
    var host := ToLower(uri.host);
    if StartsWith(host, "www.") {
      host := host[4..];
    }
    if (host == "youtube.com" || host == "www.youtube.com") && StartsWith(uri.absolutePath, EmbedPrefix) {
      var videoId := uri.absolutePath[|EmbedPrefix|..];
      var watchUrl := WatchPrefix + videoId;
      return Some(Endpoint(YouTubeTemplate, watchUrl));
    }
    var exact := IndexOfKey(OEmbedProviders, host);
    if exact.Some? {
      return Some(Endpoint(OEmbedProviders[exact.value].1, uri.text));
    }
    var partial := FindRelated(OEmbedProviders, host);
    if partial.Some? {
      return Some(Endpoint(OEmbedProviders[partial.value].1, uri.text));
    }
    return None;
  }

  /** The partial-match loop: the first entry of `table` whose key and `host` contain one another. */
  method FindRelated(table: seq<(string, string)>, host: string) returns (r: Option<nat>)
    ensures r == FirstRelated(table, host)
  {
    for i := 0 to |table|
      invariant forall j :: 0 <= j < i ==> !Related(host, table[j].0)
    {
      var key := table[i].0;
      if Contains(host, key) || Contains(key, host) {
        FirstRelatedIsTheFirst(table, host, i);
        return Some(i);
      }
    }
    return None;
  }

  /** The first related entry is fixed by "related, and no earlier entry is". */
  lemma FirstRelatedIsTheFirst(table: seq<(string, string)>, host: string, i: nat)
    requires i < |table| && Related(host, table[i].0)
    requires forall j :: 0 <= j < i ==> !Related(host, table[j].0)
    ensures FirstRelated(table, host) == Some(i)
  {
    var r := FirstRelated(table, host);
    assert r.Some?;
  }

  lemma {:induction false} ContainsItself(s: string)
    ensures Contains(s, s)
  {
    assert s[..|s|] == s;
  }

  lemma {:induction false} ContainsSuffix(s: string, t: string)
    requires |t| <= |s| && s[|s| - |t|..] == t
    ensures Contains(s, t)
    decreases |s|
  {
    if |s| == |t| {
      assert s[..|t|] == s;
    } else {
      assert s[1..][|s[1..]| - |t|..] == t;
      ContainsSuffix(s[1..], t);
    }
  }

  /**
   * Only one leading "www." is removed, so the "www.youtube.com" case of
   * the rewrite is taken only for a host that reads "www.www.youtube.com".
   */
  lemma WwwYouTubeNeedsDoubleWww(host: string)
    ensures NormalizedHost(host) == "www.youtube.com" <==> ToLower(host) == "www.www.youtube.com"
  {
    var h := ToLower(host);
    if StartsWith(h, "www.") {
      if h[4..] == "www.youtube.com" {
        assert h == h[..4] + h[4..];
      }
    }
  }

  /** A YouTube embed link becomes a watch link for the video id after "/embed/". */
  lemma YouTubeEmbedRewrite(uri: Uri)
    requires NormalizedHost(uri.host) == "youtube.com" && StartsWith(uri.absolutePath, "/embed/")
    ensures KnownProviderEndpoint(uri) ==
      Some(Endpoint(OEmbedProviders[0].1, "https://www.youtube.com/watch?v=" + uri.absolutePath[7..]))
  {
  }

  /** A host that is a provider key gets that provider's template applied to the whole URI. */
  lemma ExactHostMatch(uri: Uri, j: nat)
    requires j < |OEmbedProviders| && NormalizedHost(uri.host) == OEmbedProviders[j].0
    requires !IsYouTubeEmbed(NormalizedHost(uri.host), uri.absolutePath)
    ensures KnownProviderEndpoint(uri) == Some(Endpoint(OEmbedProviders[j].1, uri.text))
  {
    assert IndexOfKey(OEmbedProviders, OEmbedProviders[j].0).Some?;
  }

  /**
   * Otherwise the first provider whose key contains the host, or is
   * contained in it, is taken, and there is no endpoint exactly when no key
   * is related to the host in either direction.
   */
  lemma PartialHostMatch(uri: Uri)
    requires !IsYouTubeEmbed(NormalizedHost(uri.host), uri.absolutePath)
    requires forall j :: 0 <= j < |OEmbedProviders| ==> OEmbedProviders[j].0 != NormalizedHost(uri.host)
    ensures KnownProviderEndpoint(uri).Some? ==>
      exists j :: 0 <= j < |OEmbedProviders| && Related(NormalizedHost(uri.host), OEmbedProviders[j].0)
        && (forall k :: 0 <= k < j ==> !Related(NormalizedHost(uri.host), OEmbedProviders[k].0))
        && KnownProviderEndpoint(uri) == Some(Endpoint(OEmbedProviders[j].1, uri.text))
  {
    var r := FirstRelated(OEmbedProviders, NormalizedHost(uri.host));
    if r.Some? {
      assert KnownProviderEndpoint(uri) == Some(Endpoint(OEmbedProviders[r.value].1, uri.text));
    }
  }

  /** There is no known endpoint exactly when no provider key is related to the normalized host. */
  lemma NoEndpointIffNoRelatedKey(uri: Uri)
    ensures KnownProviderEndpoint(uri).None? <==>
      forall j :: 0 <= j < |OEmbedProviders| ==> !Related(NormalizedHost(uri.host), OEmbedProviders[j].0)
  {
    var host := NormalizedHost(uri.host);
    if IsYouTubeEmbed(host, uri.absolutePath) {
      if host == "youtube.com" {
        ContainsItself(host);
      } else {
        ContainsSuffix(host, "youtube.com");
      }
      assert Related(host, OEmbedProviders[0].0);
    } else if IndexOfKey(OEmbedProviders, host).Some? {
      ContainsItself(host);
      assert Related(host, OEmbedProviders[IndexOfKey(OEmbedProviders, host).value].0);
    }
  }

  /** The empty string is related to every key, so an empty host gets the first provider, YouTube. */
  lemma EmptyHostGetsFirstProvider(uri: Uri)
    requires NormalizedHost(uri.host) == ""
    ensures KnownProviderEndpoint(uri) == Some(Endpoint(OEmbedProviders[0].1, uri.text))
  {
    assert StartsWith(OEmbedProviders[0].0, "");
    assert Related("", OEmbedProviders[0].0);
  }

  /** The partial match at entry `j`, when nothing before it matches. */
  lemma PartialMatchAt(uri: Uri, j: nat)
    requires j < |OEmbedProviders|
    requires !IsYouTubeEmbed(NormalizedHost(uri.host), uri.absolutePath)
    requires forall k :: 0 <= k < |OEmbedProviders| ==> OEmbedProviders[k].0 != NormalizedHost(uri.host)
    requires Related(NormalizedHost(uri.host), OEmbedProviders[j].0)
    requires forall k :: 0 <= k < j ==> !Related(NormalizedHost(uri.host), OEmbedProviders[k].0)
    ensures KnownProviderEndpoint(uri) == Some(Endpoint(OEmbedProviders[j].1, uri.text))
  {
    FirstRelatedIsTheFirst(OEmbedProviders, NormalizedHost(uri.host), j);
  }

  // ---------------------------------------------------------------------------
  // The oEmbed answer, the thumbnail, and the frame's state

  /** A JSON value as `JsonElement.GetString()` sees it: a string, a null, or any other kind (which throws). */
  datatype JsonValue = JString(s: string) | JNull | JOther

  /** The oEmbed answer: not a JSON object at all (parsing or property lookup throws), or an object's properties. */
  datatype OEmbedResponse = NotAnObject | JsonObject(properties: map<string, JsonValue>)

  /** `GetString()` of a value that does not throw. */
  function StringOf(v: JsonValue): Option<string>
    requires !v.JOther?
  {
    if v.JString? then Some(v.s) else None
  }

  /** The answer is of type "video" or "rich", the only ones whose fields are read. */
  predicate Accepted(response: OEmbedResponse) {
    && response.JsonObject?
    && "type" in response.properties
    && response.properties["type"] in {JString("video"), JString("rich")}
  }

  /** Reading `key` does not throw. */
  predicate Readable(properties: map<string, JsonValue>, key: string) {
    key in properties ==> !properties[key].JOther?
  }

  /** The property that supplies the link: "provider_url" when present, else "url". */
  function LinkKey(properties: map<string, JsonValue>): string {
    if "provider_url" in properties then "provider_url" else "url"
  }

  /** None of the field reads of an accepted answer throws. */
  predicate WellTyped(properties: map<string, JsonValue>) {
    Readable(properties, "title") && Readable(properties, "thumbnail_url") && Readable(properties, LinkKey(properties))
  }

  /** The field after reading `key`: its string (or null) when present, else the previous value. */
  function Read(properties: map<string, JsonValue>, key: string, current: Option<string>): Option<string>
    requires Readable(properties, key)
  {
    if key in properties then StringOf(properties[key]) else current
  }

  predicate NonEmpty(s: Option<string>) {
    s.Some? && s.value != ""
  }

  datatype CssUnit = Pixels | OtherUnit
  /** A parsed CSS length (`CssLength`): its number and unit. */
  datatype CssLength = CssLength(number: real, unit: CssUnit)

  /** The size is not fixed unless both width and height are a positive number of pixels. */
  function IsLayoutRequired(width: CssLength, height: CssLength): (r: bool)
    ensures !r <==> width.number > 0.0 && width.unit == Pixels && height.number > 0.0 && height.unit == Pixels
  {
    (width.number <= 0.0 || width.unit != Pixels) || (height.number <= 0.0 || height.unit != Pixels)
  }

  datatype BorderSide = BorderSide(style: string, width: string, color: string)
  datatype Borders = Borders(top: BorderSide, right: BorderSide, bottom: BorderSide, left: BorderSide)

  /** The error border: solid, 2px, grey, with a lighter right and bottom edge. */
  const ErrorBorders := Borders(
    BorderSide("solid", "2px", "#A0A0A0"),
    BorderSide("solid", "2px", "#E3E3E3"),
    BorderSide("solid", "2px", "#E3E3E3"),
    BorderSide("solid", "2px", "#A0A0A0"))

  /** A loaded image (`RImage`); its contents are not modelled. */
  datatype RImage = RImage(id: nat)
  datatype RRect = RRect(x: real, y: real, width: real, height: real)

  /** An oEmbed endpoint: one a page announced, or one of a known provider. */
  datatype OEmbedEndpoint = Discovered(url: string) | Known(endpoint: Endpoint)

  class CssBoxFrame {
    /** The value `GetAttribute("src")` gives. */
    const src: string
    /** The source is an absolute URI; only then is embed data loaded. */
    const hasEmbed: bool
    const width: CssLength
    const height: CssLength
    var videoTitle: Option<string>
    var videoImageUrl: Option<string>
    var videoLinkUrl: Option<string>
    /**
     * The source handed to the image load handler, by `ProcessOEmbedResponse`
     * or by the first paint; `None` while there is no handler.
     */
    var imageLoadSource: Option<string>
    /** The image word's image and source rectangle. */
    var image: Option<RImage>
    var imageRectangle: RRect
    var imageLoadingComplete: bool
    var wordsSizeMeasured: bool
    var borders: Borders

    /**
     * A frame without an embed shows the error border, and so does one whose
     * loading has finished without an image.
     */
    ghost predicate Valid()
      reads this
    {
      && (!hasEmbed ==> borders == ErrorBorders)
      && (imageLoadingComplete && image.None? ==> borders == ErrorBorders)
    }

    /**
     * `srcUri` is the result of `Uri.TryCreate(src, UriKind.Absolute, ...)`.
     * Starting the asynchronous embed load is not modelled; its steps are
     * `ResolveEndpoint`, `ProcessOEmbedResponse` and `FailEmbedLoad`.
     */
    constructor (src: string, srcUri: Option<Uri>, width: CssLength, height: CssLength, borders: Borders)
      ensures Valid()
      ensures this.src == src && this.width == width && this.height == height
      ensures hasEmbed == srcUri.Some?
      ensures this.borders == if hasEmbed then borders else ErrorBorders
      ensures videoTitle.None? && videoImageUrl.None? && videoLinkUrl.None? && imageLoadSource.None?
      ensures image.None? && !imageLoadingComplete && !wordsSizeMeasured
    {
      this.src := src;
      this.width := width;
      this.height := height;
      this.hasEmbed := srcUri.Some?;
      this.borders := borders;
      videoTitle, videoImageUrl, videoLinkUrl, imageLoadSource := None, None, None, None;
      image, imageRectangle := None, RRect(0.0, 0.0, 0.0, 0.0);
      imageLoadingComplete, wordsSizeMeasured := false, false;
      new;
      if !hasEmbed {
        SetErrorBorder();
      }
    }

    /** The link of the frame: the video's link when the oEmbed answer gave one, else the source. */
    function HrefLink(): (r: string)
      reads this
      ensures videoLinkUrl.Some? ==> r == videoLinkUrl.value
      ensures videoLinkUrl.None? ==> r == src
    {
      videoLinkUrl.GetOr(src)
    }

    method SetErrorBorder()
      modifies this`borders
      ensures borders == ErrorBorders
    {
      borders := ErrorBorders;
    }

    /** What every failed step of the embed load does: loading is over and the error border is shown. */
    method FailEmbedLoad()
      requires Valid()
      modifies this`imageLoadingComplete, this`borders
      ensures Valid()
      ensures imageLoadingComplete && borders == ErrorBorders
    {
      imageLoadingComplete := true;
      SetErrorBorder();
    }

    /**
     * The first step of the embed load, once discovery has answered
     * (`discovered`, where `None` stands for null or for a failed
     * discovery): an announced endpoint is used; otherwise a known
     * provider's; without either, loading fails.
     */
    method ResolveEndpoint(uri: Uri, discovered: Option<string>) returns (endpoint: Option<OEmbedEndpoint>)
      requires Valid()
      modifies this`imageLoadingComplete, this`borders
      ensures Valid()
      ensures NonEmpty(discovered) ==> endpoint == Some(Discovered(discovered.value))
      ensures !NonEmpty(discovered) && KnownProviderEndpoint(uri).Some? ==> endpoint == Some(Known(KnownProviderEndpoint(uri).value))
      ensures endpoint.Some? ==> imageLoadingComplete == old(imageLoadingComplete) && borders == old(borders)
      ensures endpoint.None? <==> !NonEmpty(discovered) && KnownProviderEndpoint(uri).None?
      ensures endpoint.None? ==> imageLoadingComplete && borders == ErrorBorders
    {
      if NonEmpty(discovered) {
        return Some(Discovered(discovered.value));
      }
      var known := GetKnownProviderEndpoint(uri);
      if known.None? {
        FailEmbedLoad();
        return None;
      }
      return Some(Known(known.value));
    }

    /**
     * Reads the oEmbed answer: for a "video" or "rich" answer the title, the
     * thumbnail and the link (from "provider_url", else "url"), then starts
     * loading the thumbnail if there is one; anything else ends loading with
     * the error border.
     */
    method ProcessOEmbedResponse(response: OEmbedResponse)
      requires Valid()
      modifies this`videoTitle, this`videoImageUrl, this`videoLinkUrl, this`imageLoadSource, this`imageLoadingComplete, this`borders
      ensures Valid()
      // any other answer: no field is read
      ensures !Accepted(response) ==>
        && imageLoadingComplete && borders == ErrorBorders
        && videoTitle == old(videoTitle) && videoImageUrl == old(videoImageUrl) && videoLinkUrl == old(videoLinkUrl)
        && imageLoadSource == old(imageLoadSource)
      // an accepted answer whose reads all succeed
      ensures Accepted(response) && WellTyped(response.properties) ==>
        && var props := response.properties;
        && videoTitle == Read(props, "title", old(videoTitle))
        && videoImageUrl == Read(props, "thumbnail_url", old(videoImageUrl))
        && videoLinkUrl == Read(props, LinkKey(props), old(videoLinkUrl))
        && (NonEmpty(videoImageUrl) ==>
              imageLoadSource == videoImageUrl
              && imageLoadingComplete == old(imageLoadingComplete) && borders == old(borders))
        && (!NonEmpty(videoImageUrl) ==>
              imageLoadSource == old(imageLoadSource) && imageLoadingComplete && borders == ErrorBorders)
      // an accepted answer with a field that is neither a string nor null: the read throws
      ensures Accepted(response) && !WellTyped(response.properties) ==>
        && var props := response.properties;
        && imageLoadingComplete && borders == ErrorBorders && imageLoadSource == old(imageLoadSource)
        && videoTitle == (if Readable(props, "title") then Read(props, "title", old(videoTitle)) else old(videoTitle))
        && videoImageUrl == (if Readable(props, "title") && Readable(props, "thumbnail_url")
                             then Read(props, "thumbnail_url", old(videoImageUrl)) else old(videoImageUrl))
        && videoLinkUrl == old(videoLinkUrl)
    {
      // an answer that is not an object, whose "type" throws on reading, or
      // whose type is neither "video" nor "rich" all end the same way
      if !Accepted(response) {
        FailEmbedLoad();
        return;
      }
      ReadVideoFields(response.properties);
    }

    /** The "video" or "rich" branch of `ProcessOEmbedResponse`. */
    method ReadVideoFields(root: map<string, JsonValue>)
      requires Valid()
      modifies this`videoTitle, this`videoImageUrl, this`videoLinkUrl, this`imageLoadSource, this`imageLoadingComplete, this`borders
      ensures Valid()
      ensures WellTyped(root) ==>
        && videoTitle == Read(root, "title", old(videoTitle))
        && videoImageUrl == Read(root, "thumbnail_url", old(videoImageUrl))
        && videoLinkUrl == Read(root, LinkKey(root), old(videoLinkUrl))
        && (NonEmpty(videoImageUrl) ==>
              imageLoadSource == videoImageUrl
              && imageLoadingComplete == old(imageLoadingComplete) && borders == old(borders))
        && (!NonEmpty(videoImageUrl) ==>
              imageLoadSource == old(imageLoadSource) && imageLoadingComplete && borders == ErrorBorders)
      // a read that throws ends loading; the reads before it keep what they assigned
      ensures !WellTyped(root) ==>
        && imageLoadingComplete && borders == ErrorBorders && imageLoadSource == old(imageLoadSource)
        && videoTitle == (if Readable(root, "title") then Read(root, "title", old(videoTitle)) else old(videoTitle))
        && videoImageUrl == (if Readable(root, "title") && Readable(root, "thumbnail_url")
                             then Read(root, "thumbnail_url", old(videoImageUrl)) else old(videoImageUrl))
        && videoLinkUrl == old(videoLinkUrl)
    {
      if "title" in root {
        if root["title"].JOther? {
          FailEmbedLoad();
          return;
        }
        videoTitle := StringOf(root["title"]);
      }
      if "thumbnail_url" in root {
        if root["thumbnail_url"].JOther? {
          FailEmbedLoad();
          return;
        }
        videoImageUrl := StringOf(root["thumbnail_url"]);
      }
      var linkKey := LinkKey(root);
      if linkKey in root {
        if root[linkKey].JOther? {
          FailEmbedLoad();
          return;
        }
        videoLinkUrl := StringOf(root[linkKey]);
      }
      if NonEmpty(videoImageUrl) {
        imageLoadSource := videoImageUrl;
      } else {
        FailEmbedLoad();
      }
    }

    /**
     * The first step of painting: when there is a thumbnail URL (even an
     * empty one) and no image load handler yet, a handler is made for it.
     */
    method StartImageLoadOnPaint()
      modifies this`imageLoadSource
      ensures imageLoadSource == if old(videoImageUrl).Some? && old(imageLoadSource).None? then old(videoImageUrl) else old(imageLoadSource)
    {
      if videoImageUrl.Some? && imageLoadSource.None? {
        imageLoadSource := videoImageUrl;
      }
    }

    /**
     * The image load handler's callback: the image (`None` when loading
     * failed) and its source rectangle are stored, loading is over, the
     * words must be measured again, and a missing image shows the error
     * border.  An asynchronous callback answers the refresh request it makes
     * (`Some(layout needed)`); a synchronous one makes none.
     */
    method OnLoadImageComplete(img: Option<RImage>, rectangle: RRect, async: bool) returns (refresh: Option<bool>)
      requires Valid()
      modifies this`image, this`imageRectangle, this`imageLoadingComplete, this`wordsSizeMeasured, this`borders
      ensures Valid()
      ensures image == img && imageRectangle == rectangle
      ensures imageLoadingComplete && !wordsSizeMeasured
      ensures borders == if img.None? then ErrorBorders else old(borders)
      ensures refresh == if async then Some(IsLayoutRequired(width, height)) else None
    {
      image := img;
      imageRectangle := rectangle;
      imageLoadingComplete := true;
      wordsSizeMeasured := false;
      if imageLoadingComplete && img.None? {
        SetErrorBorder();
      }
      refresh := None;
      if async {
        refresh := Some(IsLayoutRequired(width, height));
      }
    }
  }
}
