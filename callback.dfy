/** `handleCallBack`: the callback URL on the target's own domain serves only the files on
    the domain allow-list, which holds just `inject.js`. Everything else is URL_NOT_FOUND. */
module Callback {
  import opened Wrappers
  import opened JavaStrings
  import opened AssetTemplates

  /** The only files that may be served on the target's domain. */
  const DomainFileAllowList: seq<string> := ["inject.js"]
  const TargetDirectory: string := "target"
  const JsContentType: string := "application/javascript; charset=UTF-8"

  /** What `handleCallBack` reads from the message: the request URI, its escaped path
      (None when the URI has no path) and the escaped Referer header, if any. */
  datatype CallbackRequest = CallbackRequest(uri: string, escapedPath: Option<string>, escapedReferrer: Option<string>)

  /** The response body and the content type of the response header. */
  datatype CallbackResponse = CallbackResponse(body: string, contentType: string)

  /** The part of the path after its last '/' (the whole path when it has none). */
  function LastSegment(path: string): (r: string)
    ensures |r| <= |path| && path[|path| - |r|..] == r
    ensures |r| < |path| ==> path[|path| - |r| - 1] == '/'
  {
    path[LastIndexOf(path, '/') + 1..]
  }

  /** The last segment holds no '/'. */
  lemma LastSegmentHasNoSlash(path: string)
    ensures '/' !in LastSegment(path)
  {
    var k := LastIndexOf(path, '/');
    var r := LastSegment(path);
    forall j | 0 <= j < |r| ensures r[j] != '/' {
      assert r[j] == path[k + 1 + j];
    }
  }

  /** The allow-listed name, under the target directory, is the inject.js asset. */
  lemma ServedPath()
    ensures TargetDirectory + "/" + DomainFileAllowList[0] == InjectFile
  {
  }

  /** The result `handleCallBack` produces, with the target directory's `inject.js`
      source in `src`. */
  function CallbackResult(settings: HudSettings, req: CallbackRequest, src: AssetSource): (r: Result<CallbackResponse, Exception>)
    ensures r.Err? ==> r.error == UrlNotFound(req.uri)
    ensures r.Ok? <==> req.escapedPath.Some? && LastSegment(req.escapedPath.value) in DomainFileAllowList
                       && GetFileSpec(settings, InjectFile, FileRequest(req.uri, req.escapedReferrer), src).Some?
    ensures r.Ok? ==> r.value == CallbackResponse(GetFileSpec(settings, InjectFile, FileRequest(req.uri, req.escapedReferrer), src).value, JsContentType)
  {
    if req.escapedPath.None? then Err(UrlNotFound(req.uri))
    else
      var fileName := LastSegment(req.escapedPath.value);
      if fileName in DomainFileAllowList then
        ServedPath();
        match GetFileSpec(settings, TargetDirectory + "/" + fileName, FileRequest(req.uri, req.escapedReferrer), src)
        case None => Err(UrlNotFound(req.uri))
        case Some(body) => Ok(CallbackResponse(body, JsContentType))
      else Err(UrlNotFound(req.uri))
  }

  /** `handleCallBack`. */
  method HandleCallBack(settings: HudSettings, req: CallbackRequest, src: AssetSource)
      returns (r: Result<CallbackResponse, Exception>)
    ensures r == CallbackResult(settings, req, src)
  {
    if req.escapedPath.None? {
      return Err(UrlNotFound(req.uri));
    }
    var path := req.escapedPath.value;
    var lastSlash := LastIndexOf(path, '/');
    var fileName := path[lastSlash + 1..];
    assert fileName == LastSegment(path);
    if fileName in DomainFileAllowList {
      ServedPath();
      var body := GetFile(settings, TargetDirectory + "/" + fileName, FileRequest(req.uri, req.escapedReferrer), src);
      if body.Some? {
        return Ok(CallbackResponse(body.value, JsContentType));
      }
    }
    return Err(UrlNotFound(req.uri));
  }

  /** A path whose last segment is `seg` is a directory part ending in '/' (or nothing)
      followed by `seg`. */
  lemma SegmentSplit(path: string, seg: string)
    requires LastSegment(path) == seg
    ensures exists pre :: path == pre + seg && (pre == [] || pre[|pre| - 1] == '/')
  {
    var n := |path| - |seg|;
    var pre := path[..n];
    assert path[n..] == seg;
    assert path == pre + seg;
    assert pre == [] || pre[|pre| - 1] == '/' by {
      if pre != [] { assert pre[n - 1] == path[n - 1]; }
    }
  }

  /** A body is served only for a path that ends in the segment "inject.js", and it is
      the target directory's `inject.js` as `getFile` renders it. */
  lemma ServesOnlyInject(settings: HudSettings, req: CallbackRequest, src: AssetSource)
    requires CallbackResult(settings, req, src).Ok?
    ensures req.escapedPath.Some?
    ensures exists pre :: req.escapedPath.value == pre + "inject.js" && (pre == [] || pre[|pre| - 1] == '/')
    ensures CallbackResult(settings, req, src).value.body
         == GetFileSpec(settings, "target/inject.js", FileRequest(req.uri, req.escapedReferrer), src).value
  {
    SegmentSplit(req.escapedPath.value, "inject.js");
  }

  /** Putting a directory in front of a segment without '/' does not change the last
      segment. */
  lemma LastSegmentUnderDirectory(dir: string, seg: string)
    requires '/' !in seg
    ensures LastSegment(dir + "/" + seg) == seg
  {
    var p := dir + "/" + seg;
    var k := LastIndexOf(p, '/');
    assert p[|dir|] == '/';
    assert k == |dir|;
    assert p[k + 1..] == seg;
  }

  /** The directory part of the path plays no role: two paths with the same last
      segment give the same answer. */
  lemma DirectoryIgnored(settings: HudSettings, req: CallbackRequest, dir: string, src: AssetSource)
    requires req.escapedPath.Some?
    ensures CallbackResult(settings, req.(escapedPath := Some(dir + "/" + LastSegment(req.escapedPath.value))), src)
         == CallbackResult(settings, req, src)
  {
    var seg := LastSegment(req.escapedPath.value);
    LastSegmentHasNoSlash(req.escapedPath.value);
    LastSegmentUnderDirectory(dir, seg);
  }

  /** Files other than `inject.js`, such as the HUD's own `management.js`, are never
      served on the target's domain, whatever the settings and sources. */
  lemma ManagementRefused(settings: HudSettings, uri: string, dir: string, referrer: Option<string>, src: AssetSource)
    ensures CallbackResult(settings, CallbackRequest(uri, Some(dir + "/management.js"), referrer), src)
         == Err(UrlNotFound(uri))
  {
    var p := dir + "/management.js";
    var seg := LastSegment(p);
    assert p[|p| - 9] == 'g';
  }

  /** A request without a path is refused. */
  lemma NoPathRefused(settings: HudSettings, uri: string, referrer: Option<string>, src: AssetSource)
    ensures CallbackResult(settings, CallbackRequest(uri, None, referrer), src) == Err(UrlNotFound(uri))
  {
  }
}
