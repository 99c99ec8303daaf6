/**
 * The HTTP surface the cache touches, as values, and the network as an oracle.
 *
 * Requests, responses, header values and the client belong to the `http` and `reqwest`
 * crates; only what the cache reads of them is kept.  Header names are the lower-case
 * names `HeaderMap` normalises to, and a header map keeps the first value stored under a
 * name, which is what `HeaderMap::get` returns.
 */
module Http {
  import opened Wrappers

  datatype Method = Get | Head | Post | Put | Delete | Connect | Options | Trace | Patch
                  | Extension(name: string)

  datatype Version = Http09 | Http10 | Http11 | Http2 | Http3

  /** `http::StatusCode`: a three-digit code. */
  type StatusCode = c: int | 100 <= c <= 999 witness 200

  /** `StatusCode::is_success`: the 2xx codes. */
  predicate IsSuccess(c: StatusCode)
  {
    200 <= c <= 299
  }

  type U64 = n: int | 0 <= n < 0x1_0000_0000_0000_0000

  /** Lower-case header name to the first value stored under it. */
  type HeaderMap = map<string, string>

  const ContentTypeName: string := "content-type"
  const ContentLengthName: string := "content-length"

  /** A request body: buffered bytes can be copied, a stream cannot. */
  datatype RequestBody = Bytes(content: seq<bv8>) | Stream

  /** An outbound request; `verb` is its method (`Request::method`). */
  datatype Request = Request(verb: Method, url: string, headers: HeaderMap, body: Option<RequestBody>)

  /** `Request::try_clone`: an exact copy, unless the body is a stream. */
  function TryClone(r: Request): Option<Request>
  {
    if r.body.Some? && r.body.value.Stream? then None else Some(r)
  }

  /**
   * What the client hands back: status, version, headers, the length the transport
   * reports (`Response::content_length`), and the body read as text (`None` when
   * `Response::text` fails).
   */
  datatype Response = Response(status: StatusCode, version: Version, headers: HeaderMap,
                               contentLength: Option<U64>, text: Option<string>)

  /** The outcome of `Client::execute`. */
  datatype Fetch = Delivered(response: Response) | Failed

  /** A character `HeaderValue::to_str` accepts: visible ASCII or a tab. */
  predicate Visible(c: char)
  {
    c == '\t' || (' ' <= c <= '~')
  }

  /** `HeaderValue::to_str`: the value as text, when every character of it is visible. */
  function ToStr(v: string): Option<string>
  {
    if forall i :: 0 <= i < |v| ==> Visible(v[i]) then Some(v) else None
  }

  predicate IsDigit(c: char)
  {
    '0' <= c <= '9'
  }

  /** The number a string of decimal digits spells. */
  function DigitsValue(s: string): nat
    requires forall i :: 0 <= i < |s| ==> IsDigit(s[i])
  {
    if s == [] then 0
    else
      assert IsDigit(s[|s| - 1]);
      DigitsValue(s[..|s| - 1]) * 10 + (s[|s| - 1] as int - '0' as int)
  }

  /**
   * `str::parse::<u64>`: an optional `+`, then at least one decimal digit, and a value that
   * fits in 64 bits.
   */
  function ParseU64(s: string): Option<U64>
  {
    var digits := if |s| > 0 && s[0] == '+' then s[1..] else s;
    if digits == [] || exists i :: 0 <= i < |digits| && !IsDigit(digits[i]) then None
    else
      var v := DigitsValue(digits);
      if v < 0x1_0000_0000_0000_0000 then Some(v) else None
  }

  /**
   * The network.  `respond` is the server's answer to the `n`-th request issued; `sent` is
   * every request issued so far, in order.
   */
  class Transport {
    const respond: (Request, nat) -> Fetch
    var sent: seq<Request>

    constructor (respond: (Request, nat) -> Fetch)
      ensures this.respond == respond && sent == []
    {
      this.respond := respond;
      sent := [];
    }

    /** `Client::execute`: issue one request and wait for the answer. */
    method Execute(request: Request) returns (f: Fetch)
      modifies this
      ensures sent == old(sent) + [request]
      ensures f == respond(request, |old(sent)|)
    {
      f := respond(request, |sent|);
      sent := sent + [request];
    }
  }
}
