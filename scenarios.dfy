/**
 * The behaviour the tests of src/lib.rs and the demonstration in src/main.rs expect, proved
 * for every response a server could give: a well-behaved server answers the HEAD probe
 * without a body and the full fetch with one.
 */
module Scenarios {
  import opened Wrappers
  import opened Http
  import opened CacheData
  import opened States
  import opened Cache
  import opened CacheProperties

  /** main.rs: stop when the status is known and not 2xx. */
  predicate StatusNotSuccess(d: Data)
  {
    d.statusCode.Some? && !IsSuccess(d.statusCode.value)
  }

  /** main.rs: stop when the content type is `application/pdf`. */
  predicate IsPdf(d: Data)
  {
    d.contentType == Some("application/pdf")
  }

  /** main.rs and lib.rs: stop when the caller's request is a HEAD. */
  predicate MethodIsHead(d: Data)
  {
    d.request.verb == Head
  }

  /** A server that answers the first request with `probe` and every later one with `full`. */
  function Server(probe: Response, full: Response): (Request, nat) -> Fetch
  {
    (q: Request, n: nat) => if n == 0 then Delivered(probe) else Delivered(full)
  }

  /** A plain request for `url` with method `verb`. */
  function Plain(verb: Method, url: string): Request
  {
    Request(verb, url, map[], None)
  }

  /**
   * lib.rs `test_http_cache`: on a fresh GET façade with no conditions, `version()` is
   * answered by the HEAD probe alone and leaves the façade unlocked; `body()` then runs the
   * full GET and leaves it locked.
   */
  lemma FreshGetResolvesLazily(url: string, probe: Response, full: Response)
    requires Readable(probe) && Readable(full) && !HasText(probe.text) && HasText(full.text)
    ensures var m0 := Fresh(Plain(Get, url), []);
            var (m1, v) := Pull(VersionOf, m0, Server(probe, full));
            var (m2, b) := Pull(BodyOf, m1, Server(probe, full));
            && v == Ok(Some(probe.version)) && !m1.locked && m1.sent == [Plain(Head, url)]
            && b == Ok(full.text) && m2.locked && m2.sent == [Plain(Head, url), Plain(Get, url)]
  {
    var respond := Server(probe, full);
    var m0 := Fresh(Plain(Get, url), []);
    PopulateFaults(Empty(Plain(Get, url)), probe);
    var (m1, o1) := Advance(m0, respond);
    assert o1 == Ok(()) && !m1.locked && m1.data.version == Some(probe.version);
    PopulateFaults(m1.data, full);
    var (m2, o2) := Advance(m1, respond);
    assert o2 == Ok(()) && m2.locked && m2.data.body == full.text;
  }

  /**
   * lib.rs `test_http_cache_interupt_conditions_met`: a HEAD façade whose condition is
   * "the request is a HEAD" locks after the probe alone; `body()` answers `None`.
   */
  lemma HeadProbeInterrupted(url: string, probe: Response, full: Response)
    requires Readable(probe) && !HasText(probe.text)
    ensures var m0 := Fresh(Plain(Head, url), []).(conds := [MethodIsHead]);
            var (m1, b) := Pull(BodyOf, m0, Server(probe, full));
            b == Ok(None) && m1.locked && m1.sent == [Plain(Head, url)]
  {
    var respond := Server(probe, full);
    var m0 := Fresh(Plain(Head, url), []).(conds := [MethodIsHead]);
    PopulateFaults(Empty(Plain(Head, url)), probe);
    var (m1, o1) := Advance(m0, respond);
    assert MethodIsHead(m1.data);
    assert o1 == Ok(()) && m1.locked;
  }

  /**
   * lib.rs `test_http_cache_interupt_conditions_not_met`: a GET façade whose condition is
   * "the request is a HEAD" is not locked by the probe; `body()` then runs the full GET,
   * answers its body and locks.
   */
  lemma GetProbeNotInterrupted(url: string, probe: Response, full: Response)
    requires Readable(probe) && Readable(full) && !HasText(probe.text) && HasText(full.text)
    ensures var m0 := Fresh(Plain(Get, url), []).(conds := [MethodIsHead]);
            var (m1, b) := Pull(BodyOf, m0, Server(probe, full));
            b == Ok(full.text) && m1.locked && m1.sent == [Plain(Head, url), Plain(Get, url)]
  {
    var respond := Server(probe, full);
    var m0 := Fresh(Plain(Get, url), []).(conds := [MethodIsHead]);
    PopulateFaults(Empty(Plain(Get, url)), probe);
    var (m1, o1) := Advance(m0, respond);
    assert !MethodIsHead(m1.data);
    assert o1 == Ok(()) && !m1.locked && m1.data.body == None;
    assert Pull(BodyOf, m0, respond) == Pull(BodyOf, m1, respond);
    PopulateFaults(m1.data, full);
    var (m2, o2) := Advance(m1, respond);
    assert o2 == Ok(()) && m2.locked && m2.data.body == full.text;
    assert Pull(BodyOf, m1, respond) == Pull(BodyOf, m2, respond);
  }

  /**
   * main.rs: a GET façade with its three demonstration conditions.  When the probe reports a failure
   * status or a PDF, the façade locks after the probe and `body()` answers `None`;
   * otherwise the full fetch runs and the body is resolved.
   */
  lemma GetWithDemoConditions(url: string, probe: Response, full: Response)
    requires Readable(probe) && Readable(full) && !HasText(probe.text) && HasText(full.text)
    ensures var m0 := Fresh(Plain(Get, url), []).(conds := [StatusNotSuccess, IsPdf, MethodIsHead]);
            var (m1, b) := Pull(BodyOf, m0, Server(probe, full));
            var stops := || !IsSuccess(probe.status)
                         || (ContentTypeName in probe.headers && probe.headers[ContentTypeName] == "application/pdf");
            && m1.locked
            && (stops ==> b == Ok(None) && m1.sent == [Plain(Head, url)])
            && (!stops ==> b == Ok(full.text) && m1.sent == [Plain(Head, url), Plain(Get, url)])
  {
    var respond := Server(probe, full);
    var conds := [StatusNotSuccess, IsPdf, MethodIsHead];
    var m0 := Fresh(Plain(Get, url), []).(conds := conds);
    PopulateFaults(Empty(Plain(Get, url)), probe);
    PopulateHeaderFields(Empty(Plain(Get, url)), probe);
    var (m1, o1) := Advance(m0, respond);
    assert o1 == Ok(()) && m1.data == Populated(Empty(Plain(Get, url)), probe).data;
    var stops := || !IsSuccess(probe.status)
                 || (ContentTypeName in probe.headers && probe.headers[ContentTypeName] == "application/pdf");
    assert StatusNotSuccess(m1.data) <==> !IsSuccess(probe.status);
    assert IsPdf(m1.data) <==> ContentTypeName in probe.headers && probe.headers[ContentTypeName] == "application/pdf";
    assert !MethodIsHead(m1.data);
    assert AnyHolds(conds, m1.data) <==> StatusNotSuccess(m1.data) || IsPdf(m1.data) || MethodIsHead(m1.data);
    assert m1.locked == stops;
    assert m1.data.body == None;
    assert Pull(BodyOf, m0, respond) == Pull(BodyOf, m1, respond);
    if !stops {
      PopulateFaults(m1.data, full);
      var (m2, o2) := Advance(m1, respond);
      assert o2 == Ok(()) && m2.locked && m2.data.body == full.text;
      assert Pull(BodyOf, m1, respond) == Pull(BodyOf, m2, respond);
    }
  }

  /** The first test of lib.rs, replayed as a client of the class `HttpCache`. */
  method ClientFreshGet(url: string, probe: Response, full: Response)
    returns (version: Result<Option<Version>, Fault>, lockedAfterVersion: bool,
             body: Result<Option<string>, Fault>, lockedAtEnd: bool)
    requires Readable(probe) && Readable(full) && !HasText(probe.text) && HasText(full.text)
    ensures version == Ok(Some(probe.version)) && !lockedAfterVersion
    ensures body == Ok(full.text) && lockedAtEnd
  {
    var net := new Transport(Server(probe, full));
    var cache := new HttpCache(Plain(Get, url));
    FreshGetResolvesLazily(url, probe, full);
    version := cache.Version(net);
    lockedAfterVersion := cache.FsmIsLocked();
    body := cache.Body(net);
    lockedAtEnd := cache.FsmIsLocked();
  }
}
