/**
 * The image downloader (`ImageDownloader`): requests for the same cache
 * file are coalesced so the file is downloaded once, and when the download
 * ends every callback registered for that file is called with the outcome.
 *
 * The HTTP transfer, the temporary file, the file move and the lock are not
 * modelled: what they produce (the response's content type, the transfer's
 * error, whether it was cancelled, the error of the move) is handed to the
 * completion step as parameters.
 */
module Downloads {
  import opened Wrappers
  import opened Ascii

  /** A `DownloadFileAsyncCallback` delegate, known by identity. */
  datatype Callback = Callback(id: nat)

  /** An exception, known by its message. */
  datatype Failure = Failure(message: string)

  /** One call `callback(imageUri, filePath, error, canceled)`. */
  datatype Invocation = Invocation(callback: Callback, imageUri: string, filePath: Option<string>, error: Option<Failure>, canceled: bool)

  /** A download that `DownloadImage` starts: from `imageUri` to `filePath`, synchronously or not. */
  datatype Download = Download(imageUri: string, filePath: string, async: bool)

  /** A result, or the exception that a call throws instead. */
  datatype Outcome<T> = Ok(value: T) | ArgumentNull(paramName: string) | KeyNotFound(key: string)

  type Callbacks = map<string, seq<Callback>>

  const NotImageMessage := "Failed to load image, not image content type: "

  /** The response is an image: its media type is present and starts with "image", ignoring case. */
  predicate IsImageContentType(contentType: Option<string>) {
    contentType.Some? && StartsWithIgnoreCase(contentType.value, "image")
  }

  /**
   * The error reported for a finished download: a cancelled one keeps the
   * error it came with; otherwise the transfer's error, else a content type
   * that is not an image, else the error of moving the file into place.
   */
  function CompletionError(cancelled: bool, error: Option<Failure>, contentType: Option<string>, moveError: Option<Failure>): Option<Failure> {
    if cancelled || error.Some? then error
    else if !IsImageContentType(contentType) then Some(Failure(NotImageMessage + contentType.GetOr("")))
    else moveError
  }

  /** The path handed to the callbacks: the file only when there is no error and no cancellation. */
  function DeliveredPath(filePath: string, error: Option<Failure>, cancelled: bool): (r: Option<string>)
    ensures r.Some? <==> error.None? && !cancelled
    ensures r.Some? ==> r.value == filePath
  {
    if error.None? && !cancelled then Some(filePath) else None
  }

  /** The file is handed over exactly when the download was not cancelled and every step succeeded. */
  lemma FileDeliveredOnlyOnSuccess(filePath: string, cancelled: bool, error: Option<Failure>, contentType: Option<string>, moveError: Option<Failure>)
    ensures DeliveredPath(filePath, CompletionError(cancelled, error, contentType, moveError), cancelled).Some?
      <==> !cancelled && error.None? && IsImageContentType(contentType) && moveError.None?
  {
  }

  /** A response that is not an image becomes an error naming its content type, unless an error came first. */
  lemma NonImageIsAnError(cancelled: bool, error: Option<Failure>, contentType: Option<string>, moveError: Option<Failure>)
    requires !cancelled && !IsImageContentType(contentType)
    ensures error.Some? ==> CompletionError(cancelled, error, contentType, moveError) == error
    ensures error.None? ==>
      CompletionError(cancelled, error, contentType, moveError) == Some(Failure(NotImageMessage + contentType.GetOr("")))
  {
  }

  /** The content type test ignores the case of "image" and anything after it. */
  lemma ImageContentTypeIgnoresCase(mediaType: string)
    requires |mediaType| >= 5
    requires forall i :: 0 <= i < 5 ==> LowerChar(mediaType[i]) == "image"[i]
    ensures IsImageContentType(Some(mediaType))
  {
    assert ToLower(mediaType[..5]) == "image";
  }

  /** Adds `callback` to the list for `filePath`, starting the list when there is none. */
  function Register(table: Callbacks, filePath: string, callback: Callback): (r: Callbacks)
    ensures r.Keys == table.Keys + {filePath}
    ensures r[filePath] == (if filePath in table then table[filePath] else []) + [callback]
    ensures forall p :: p in table && p != filePath ==> r[p] == table[p]
  {
    if filePath in table then table[filePath := table[filePath] + [callback]]
    else table[filePath := [callback]]
  }

  /** The callbacks of `requests` that are for `filePath`, in order. */
  function CallbacksFor(requests: seq<(string, Callback)>, filePath: string): seq<Callback> {
    if requests == [] then []
    else
      var last := requests[|requests| - 1];
      CallbacksFor(requests[..|requests| - 1], filePath) + (if last.0 == filePath then [last.1] else [])
  }

  /**
   * A run of `DownloadImage` requests (path, callback): the table they leave
   * and the paths whose download they start, in order.
   */
  function Serve(table: Callbacks, requests: seq<(string, Callback)>): (Callbacks, seq<string>)
  {
    if requests == [] then (table, [])
    else
      var (path, callback) := requests[|requests| - 1];
      var (before, started) := Serve(table, requests[..|requests| - 1]);
      (Register(before, path, callback), started + (if path in before then [] else [path]))
  }

  /** After a run of requests a path is pending when it was before or was requested, with those callbacks in order. */
  lemma {:induction false} ServeTable(table: Callbacks, requests: seq<(string, Callback)>)
    ensures var after := Serve(table, requests).0;
      && (forall p :: p in after <==> p in table || CallbacksFor(requests, p) != [])
      && (forall p :: p in after ==> after[p] == (if p in table then table[p] else []) + CallbacksFor(requests, p))
  {
    if requests != [] {
      var init := requests[..|requests| - 1];
      var (path, callback) := requests[|requests| - 1];
      ServeTable(table, init);
      var before := Serve(table, init).0;
      var after := Serve(table, requests).0;
      assert after == Register(before, path, callback);
      forall p | p in after
        ensures after[p] == (if p in table then table[p] else []) + CallbacksFor(requests, p)
      {
        if p == path && path !in before {
          assert p !in table && CallbacksFor(init, p) == [];
        }
      }
    }
  }

  /** A download starts for exactly the requested paths that were not pending, once each. */
  lemma {:induction false} ServeStarts(table: Callbacks, requests: seq<(string, Callback)>)
    ensures var started := Serve(table, requests).1;
      && (forall p :: p in started <==> p !in table && CallbacksFor(requests, p) != [])
      && (forall i, j :: 0 <= i < j < |started| ==> started[i] != started[j])
  {
    if requests != [] {
      var init := requests[..|requests| - 1];
      var (path, callback) := requests[|requests| - 1];
      ServeStarts(table, init);
      ServeTable(table, init);
      var (before, started) := Serve(table, init);
      var started' := Serve(table, requests).1;
      assert started' == started + (if path in before then [] else [path]);
      forall p ensures p in started' <==> p !in table && CallbacksFor(requests, p) != [] {
        if p == path {
          assert CallbacksFor(requests, p) != [];
        }
      }
    }
  }

  /**
   * Coalescing: each path not already pending is downloaded exactly once,
   * a pending one never again, and each path's list holds its pending
   * callbacks followed by the new ones, in request order.
   */
  lemma RequestsCoalesce(table: Callbacks, requests: seq<(string, Callback)>)
    ensures var (after, started) := Serve(table, requests);
      && (forall i, j :: 0 <= i < j < |started| ==> started[i] != started[j])
      && (forall p :: p in started <==> p !in table && CallbacksFor(requests, p) != [])
      && after.Keys == table.Keys + (set p | p in started)
      && (forall p :: p in after ==> after[p] == (if p in table then table[p] else []) + CallbacksFor(requests, p))
  {
    ServeTable(table, requests);
    ServeStarts(table, requests);
  }

  class ImageDownloader {
    /** `_imageDownloadCallbacks`: the callbacks waiting for each cache file being downloaded. */
    var imageDownloadCallbacks: Callbacks

    /** A file is pending only while someone is waiting for it. */
    ghost predicate Valid()
      reads this
    {
      forall p :: p in imageDownloadCallbacks ==> imageDownloadCallbacks[p] != []
    }

    constructor ()
      ensures Valid() && imageDownloadCallbacks == map[]
    {
      imageDownloadCallbacks := map[];
    }

    /**
     * Registers `cachedFileCallback` for `filePath` and, when no download of
     * that file is pending, starts one (`Ok(Some(download))`); otherwise the
     * request joins the pending one (`Ok(None)`).  `None` arguments are nulls.
     */
    method DownloadImage(imageUri: Option<string>, filePath: Option<string>, async: bool, cachedFileCallback: Option<Callback>)
      returns (r: Outcome<Option<Download>>)
      requires Valid()
      modifies this
      ensures Valid()
      ensures imageUri.None? ==> r == ArgumentNull("imageUri")
      ensures imageUri.Some? && cachedFileCallback.None? ==> r == ArgumentNull("cachedFileCallback")
      // `ContainsKey(null)` throws
      ensures imageUri.Some? && cachedFileCallback.Some? && filePath.None? ==> r == ArgumentNull("key")
      ensures !r.Ok? ==> imageDownloadCallbacks == old(imageDownloadCallbacks)
      ensures imageUri.Some? && cachedFileCallback.Some? && filePath.Some? ==>
        && imageDownloadCallbacks == Register(old(imageDownloadCallbacks), filePath.value, cachedFileCallback.value)
        && r == Ok(if filePath.value in old(imageDownloadCallbacks) then None
                   else Some(Download(imageUri.value, filePath.value, async)))
    {
      if imageUri.None? {
        return ArgumentNull("imageUri");
      }
      if cachedFileCallback.None? {
        return ArgumentNull("cachedFileCallback");
      }
      if filePath.None? {
        return ArgumentNull("key");
      }
      var path := filePath.value;
      var download := true;
      if path in imageDownloadCallbacks {
        download := false;
        imageDownloadCallbacks := imageDownloadCallbacks[path := imageDownloadCallbacks[path] + [cachedFileCallback.value]];
      } else {
        imageDownloadCallbacks := imageDownloadCallbacks[path := [cachedFileCallback.value]];
      }
      if download {
        return Ok(Some(Download(imageUri.value, path, async)));
      }
      return Ok(None);
    }

    /**
     * The end of the download of `filePath`: works out the error, takes the
     * file's callbacks off the table and calls each of them, in registration
     * order, with the same outcome.  A file with no pending entry makes the
     * dictionary lookup throw.
     */
    method OnDownloadImageCompleted(imageUri: string, filePath: string, error: Option<Failure>, cancelled: bool,
                                    contentType: Option<string>, moveError: Option<Failure>)
      returns (r: Outcome<seq<Invocation>>)
      requires Valid()
      modifies this
      ensures Valid()
      ensures filePath !in old(imageDownloadCallbacks) ==>
        r == KeyNotFound(filePath) && imageDownloadCallbacks == old(imageDownloadCallbacks)
      ensures filePath in old(imageDownloadCallbacks) ==>
        && imageDownloadCallbacks == old(imageDownloadCallbacks) - {filePath}
        // a pending file always has someone waiting for it
        && r.Ok? && |r.value| >= 1
        && var e := CompletionError(cancelled, error, contentType, moveError);
        && r.Ok? && |r.value| == |old(imageDownloadCallbacks)[filePath]|
        && forall i :: 0 <= i < |r.value| ==>
             r.value[i] == Invocation(old(imageDownloadCallbacks)[filePath][i], imageUri, DeliveredPath(filePath, e, cancelled), e, cancelled)
    {
      var err := error;
      if !cancelled {
        if err.None? {
          if !IsImageContentType(contentType) {
            err := Some(Failure(NotImageMessage + contentType.GetOr("")));
          }
        }
        if err.None? {
          err := moveError;
        }
      }
      if filePath !in imageDownloadCallbacks {
        return KeyNotFound(filePath);
      }
      var callbacksList := imageDownloadCallbacks[filePath];
      imageDownloadCallbacks := imageDownloadCallbacks - {filePath};
      var delivered := if err.None? && !cancelled then Some(filePath) else None;
      var calls: seq<Invocation> := [];
      for i := 0 to |callbacksList|
        invariant |calls| == i
        invariant forall k :: 0 <= k < i ==> calls[k] == Invocation(callbacksList[k], imageUri, delivered, err, cancelled)
      {
        calls := calls + [Invocation(callbacksList[i], imageUri, delivered, err, cancelled)];
      }
      return Ok(calls);
    }
  }

  /**
   * Two images of one page that share a cache file: one download, and its
   * completion answers both callbacks, in request order, with the file.
   */
  method SharedFileScenario() returns (first: Outcome<Option<Download>>, second: Outcome<Option<Download>>,
                                       calls: Outcome<seq<Invocation>>, pending: Callbacks)
    ensures first == Ok(Some(Download("http://a/i.png", "c/i.png", true)))
    ensures second == Ok(None)
    ensures calls == Ok([Invocation(Callback(1), "http://a/i.png", Some("c/i.png"), None, false),
                         Invocation(Callback(2), "http://a/i.png", Some("c/i.png"), None, false)])
    ensures pending == map[]
  {
    var d := new ImageDownloader();
    first := d.DownloadImage(Some("http://a/i.png"), Some("c/i.png"), true, Some(Callback(1)));
    second := d.DownloadImage(Some("http://a/i.png"), Some("c/i.png"), true, Some(Callback(2)));
    assert d.imageDownloadCallbacks["c/i.png"] == [Callback(1), Callback(2)];
    assert IsImageContentType(Some("image/png")) by {
      assert ToLower("image/png"[..5]) == "image";
    }
    calls := d.OnDownloadImageCompleted("http://a/i.png", "c/i.png", None, false, Some("image/png"), None);
    assert CompletionError(false, None, Some("image/png"), None) == None;
    assert calls.Ok? && |calls.value| == 2;
    assert calls.value[0] == Invocation(Callback(1), "http://a/i.png", Some("c/i.png"), None, false);
    assert calls.value[1] == Invocation(Callback(2), "http://a/i.png", Some("c/i.png"), None, false);
    assert calls.value == [calls.value[0], calls.value[1]];
    pending := d.imageDownloadCallbacks;
  }
}
