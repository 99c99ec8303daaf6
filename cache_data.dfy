/**
 * `HttpCacheData` of src/cache/mod.rs: the record every state writes into.  It holds the
 * original request and the response attributes discovered so far; `None` means "not known".
 */
module CacheData {
  import opened Wrappers
  import opened Http

  /**
   * Why a step of the machine gives up.  Each is a panic in the Rust code: `expect` on the
   * request clone and on the client call, `unwrap` on a header that is not text and on a
   * length that is not a number.
   */
  datatype Fault = CloneFailed | RequestFailed | HeaderNotText | LengthNotNumber

  /** The record's contents as a value: what an interrupt condition reads through `&HttpCacheData`. */
  datatype Data = Data(request: Request, version: Option<Version>, headers: Option<HeaderMap>,
                       statusCode: Option<StatusCode>, contentLength: Option<U64>,
                       contentType: Option<string>, body: Option<string>)

  /** The record `HttpCacheData::new` builds: the request and nothing known. */
  function Empty(request: Request): Data
  {
    Data(request, None, None, None, None, None, None)
  }

  /** Header `name` read as text (`get(name).map(|s| s.to_str().unwrap())`). */
  function HeaderText(h: HeaderMap, name: string): Result<Option<string>, Fault>
  {
    if name !in h then Ok(None)
    else match ToStr(h[name])
      case None => Err(HeaderNotText)
      case Some(v) => Ok(Some(v))
  }

  /** The content-length header read as a number (`... .parse::<u64>().unwrap()`). */
  function HeaderLength(h: HeaderMap): Result<Option<U64>, Fault>
  {
    match HeaderText(h, ContentLengthName)
    case Err(f) => Err(f)
    case Ok(None) => Ok(None)
    case Ok(Some(v)) =>
      match ParseU64(v)
      case None => Err(LengthNotNumber)
      case Some(n) => Ok(Some(n))
  }

  /** A response whose content-type and content-length headers `populate` can read without panicking. */
  predicate Readable(resp: Response)
  {
    HeaderText(resp.headers, ContentTypeName).Ok? && HeaderLength(resp.headers).Ok?
  }

  /** The body text `populate` keeps: read successfully and not empty. */
  predicate HasText(text: Option<string>)
  {
    text.Some? && text.value != []
  }

  /** The record after `populate`, and the panic that cut it short, if any. */
  datatype Written = Written(data: Data, fault: Option<Fault>)

  /**
   * What `populate` leaves, field by field in the order the Rust method writes them: status,
   * transport length, headers and version; then content type and content length from the
   * headers (each may panic, leaving the fields written before it); then the body.
   */
  function Populated(d: Data, resp: Response): Written
  {
    var d1 := d.(statusCode := Some(resp.status), contentLength := resp.contentLength,
                 headers := Some(resp.headers), version := Some(resp.version));
    match HeaderText(resp.headers, ContentTypeName)
    case Err(f) => Written(d1, Some(f))
    case Ok(ct) =>
      var d2 := d1.(contentType := ct);
      match HeaderLength(resp.headers)
      case Err(f) => Written(d2, Some(f))
      case Ok(cl) =>
        var d3 := d2.(contentLength := cl);
        Written(if HasText(resp.text) then d3.(body := resp.text) else d3, None)
  }

  class HttpCacheData {
    const request: Request
    var version: Option<Version>
    var headers: Option<HeaderMap>
    var statusCode: Option<StatusCode>
    var contentLength: Option<U64>
    var contentType: Option<string>
    var body: Option<string>

    /** The record as a value. */
    function View(): Data
      reads this
    {
      Data(request, version, headers, statusCode, contentLength, contentType, body)
    }

    /** `HttpCacheData::new`. */
    constructor (request: Request)
      ensures View() == Empty(request)
    {
      this.request := request;
      version, headers, statusCode := None, None, None;
      contentLength, contentType, body := None, None, None;
    }

    /** `request_clone`: a copy of the stored request, unless its body is a stream. */
    function RequestClone(): (r: Option<Request>)
      ensures r.Some? <==> !(request.body.Some? && request.body.value.Stream?)
      ensures r.Some? ==> r.value == request
    {
      TryClone(request)
    }

    /** `populate`: write the attributes of `response` into the record. */
    method Populate(response: Response) returns (fault: Option<Fault>)
      modifies this
      ensures Written(View(), fault) == Populated(old(View()), response)
    {
      statusCode := Some(response.status);
      contentLength := response.contentLength;
      headers := Some(response.headers);
      version := Some(response.version);
      // `if let Some(header) = self.headers` always matches: `headers` was just set.
      var ct := HeaderText(headers.value, ContentTypeName);
      if ct.Err? {
        return Some(ct.error);
      }
      contentType := ct.value;
      var cl := HeaderLength(headers.value);
      if cl.Err? {
        return Some(cl.error);
      }
      contentLength := cl.value;
      if response.text.Some? && response.text.value != [] {
        body := response.text;
      }
      return None;
    }
  }

  /** Status, headers and version are always written, even when a later header read panics. */
  lemma PopulateSetsMetadata(d: Data, resp: Response)
    ensures var w := Populated(d, resp).data;
            && w.statusCode == Some(resp.status)
            && w.headers == Some(resp.headers)
            && w.version == Some(resp.version)
            && w.request == d.request
  {
  }

  /** `populate` panics exactly when a content-type or content-length header is present but cannot be read. */
  lemma PopulateFaults(d: Data, resp: Response)
    ensures Populated(d, resp).fault.None? <==> Readable(resp)
    ensures var h := resp.headers;
            Populated(d, resp).fault == Some(HeaderNotText) <==>
              || (ContentTypeName in h && ToStr(h[ContentTypeName]).None?)
              || (ContentLengthName in h && ToStr(h[ContentLengthName]).None?)
    ensures var h := resp.headers;
            Populated(d, resp).fault == Some(LengthNotNumber) <==>
              && (ContentTypeName in h ==> ToStr(h[ContentTypeName]).Some?)
              && ContentLengthName in h && ToStr(h[ContentLengthName]).Some?
              && ParseU64(h[ContentLengthName]).None?
  {
  }

  /**
   * Content type and content length come from the headers alone: a header that is absent
   * makes the field `None`, whatever the record held and whatever length the transport reported.
   */
  lemma PopulateHeaderFields(d: Data, resp: Response)
    requires Readable(resp)
    ensures var w := Populated(d, resp).data;
            var h := resp.headers;
            && (w.contentType.Some? <==> ContentTypeName in h)
            && (w.contentType.Some? ==> w.contentType.value == h[ContentTypeName])
            && (w.contentLength.Some? <==> ContentLengthName in h)
            && (w.contentLength.Some? ==> Some(w.contentLength.value) == ParseU64(h[ContentLengthName]))
  {
  }

  /** The body is replaced only by text that was read and is not empty; otherwise the old body stays. */
  lemma PopulateBody(d: Data, resp: Response)
    ensures var w := Populated(d, resp);
            w.data.body == if w.fault.None? && HasText(resp.text) then resp.text else d.body
  {
  }

  /** An empty body never becomes a value: absent stays absent, and no empty text is stored. */
  lemma PopulateNeverStoresEmptyBody(d: Data, resp: Response)
    ensures d.body != Some([]) ==> Populated(d, resp).data.body != Some([])
  {
  }

  /** Status, headers, version and body, once known, stay known. */
  lemma PopulateKeepsKnown(d: Data, resp: Response)
    ensures var w := Populated(d, resp).data;
            && (d.body.Some? ==> w.body.Some?)
            && w.statusCode.Some? && w.headers.Some? && w.version.Some?
  {
  }

  /** A length the transport reported, or one stored before, is dropped when the response has no content-length header. */
  lemma PopulateForgetsLength(d: Data, resp: Response)
    requires Readable(resp) && ContentLengthName !in resp.headers
    ensures Populated(d, resp).data.contentLength == None
  {
  }

  /** Populating twice from the same response changes nothing the first time did not. */
  lemma PopulateIdempotent(d: Data, resp: Response)
    ensures Populated(Populated(d, resp).data, resp) == Populated(d, resp)
  {
  }
}
