/**
 * `AssetsDownloadReverse.request`: build the target of the download, run one pass of the tier
 * cascade, and classify what it raised. Configuration, the header builder, each tier's network
 * outcome and the end of the `record_fail` call are inputs.
 */
module AssetsDownload {
  import opened Wrappers
  import opened Exceptions
  import opened Envelope
  import opened RequestTarget
  import opened Transport
  import opened Classifier

  /** The configuration keys `request` reads; an absent key is None. */
  datatype Config = Config(
    baseProxyUrl: Option<string>,
    assetProxyUrl: Option<string>,
    browser: Option<string>,
    downloadTimeout: Option<real>)

  /** The arguments of `build_headers(cookie_token, content_type, origin, referer)`. */
  datatype HeaderArgs = HeaderArgs(cookieToken: string, contentType: Option<string>, origin: string, referer: string)

  const Origin: string := "https://assets.grok.com"
  const Referer: string := "https://grok.com/"

  /** The header-builder call `request` makes for a path. */
  function HeaderArgsFor(token: string, filePath: string): (args: HeaderArgs)
    ensures args.contentType == ContentTypeHint(NormalizePath(filePath))
    ensures args.cookieToken == token && args.origin == Origin && args.referer == Referer
  {
    HeaderArgs(token, ContentTypeHint(NormalizePath(filePath)), Origin, Referer)
  }

  /** What the body of the `try` in `request` returns or raises: the header builder's exception, or the pass's outcome. */
  function TryResult(token: string, filePath: string, buildHeaders: HeaderArgs -> Result<map<string, string>, Exc>,
                     outcomes: TierOutcomes): (r: Result<Response, Exc>)
    ensures buildHeaders(HeaderArgsFor(token, filePath)).Failure? ==> r == Failure(buildHeaders(HeaderArgsFor(token, filePath)).error)
    ensures buildHeaders(HeaderArgsFor(token, filePath)).Success? ==> r == PassResult(outcomes)
  {
    var built := buildHeaders(HeaderArgsFor(token, filePath));
    if built.Failure? then Failure(built.error) else PassResult(outcomes)
  }

  /** What `request` hands to every tier: the URL, the aligned headers, the configured timeout and profile, the proxies. */
  function TargetFor(filePath: string, config: Config, built: map<string, string>): (t: Target)
    ensures t.url == TargetUrl(filePath) && NavigationAligned(built, t.headers)
    ensures t.timeout == config.downloadTimeout && t.browser == config.browser
    ensures t.proxies == Proxies(config.baseProxyUrl, config.assetProxyUrl)
  {
    Target(TargetUrl(filePath), Aligned(built), config.downloadTimeout, Proxies(config.baseProxyUrl, config.assetProxyUrl), config.browser)
  }

  /**
   * The calls of a pass, as `request` sets them up from the path, the configuration and what the
   * header builder gave: none when it raised; otherwise tier 1 with impersonation and proxy, tier 2
   * with neither, then urllib, all to the target URL with the aligned headers and the configured timeout.
   */
  predicate CallsSetUp(calls: seq<Call>, filePath: string, config: Config, built: Result<map<string, string>, Exc>) {
    && |calls| <= 3
    && (built.Failure? ==> calls == [])
    && (built.Success? ==>
          var t := TargetFor(filePath, config, built.value);
          && calls != []
          && (forall i :: 0 <= i < |calls| ==> calls[i].url == t.url && calls[i].SentHeaders() == t.headers)
          && calls[0].SessionGet? && KwargsFor(calls[0].kwargs, t, true, true)
          && (|calls| >= 2 ==> calls[1].SessionGet? && KwargsFor(calls[1].kwargs, t, false, false))
          && (|calls| == 3 ==> calls[2] == UrlOpen(t.url, t.headers, config.downloadTimeout)))
    && (calls != [] ==> calls[0].SessionGet? && calls[0].kwargs.proxies == Proxies(config.baseProxyUrl, config.assetProxyUrl))
  }

  /** Once the header builder has answered: the navigation headers laid over its headers and one pass run. */
  method Dispatch(filePath: string, config: Config, built: map<string, string>, outcomes: TierOutcomes)
    returns (r: Result<Response, Exc>, calls: seq<Call>, warnings: seq<Exc>)
    ensures r == PassResult(outcomes)
    ensures |calls| == TiersTried(outcomes) && |warnings| == |calls| - 1
    ensures CallsSetUp(calls, filePath, config, Success(built))
    ensures |warnings| >= 1 ==> warnings[0] == SessionResult(outcomes.primary).error
    ensures |warnings| == 2 ==> warnings[1] == SessionResult(outcomes.direct).error
  {
    var proxies := Proxies(config.baseProxyUrl, config.assetProxyUrl);
    var headers := AlignNavigationHeaders(built);
    var target := Target(TargetUrl(filePath), headers, config.downloadTimeout, proxies, config.browser);
    assert target == TargetFor(filePath, config, built);
    r, calls, warnings := DoRequest(target, outcomes);
    assert proxies.Some? ==> ProxiesSet(proxies) by {
      if proxies.Some? { assert "http" in proxies.value; }
    }
    assert calls[0].kwargs.proxies == proxies;
  }

  /**
   * The body of the `try` in `request`: the target is built, the header builder called and one pass of
   * the cascade run. What it raises is left to the classifier.
   */
  method TryDownload(token: string, filePath: string, config: Config,
                     buildHeaders: HeaderArgs -> Result<map<string, string>, Exc>, outcomes: TierOutcomes)
    returns (r: Result<Response, Exc>, calls: seq<Call>, warnings: seq<Exc>)
    ensures r == TryResult(token, filePath, buildHeaders, outcomes)
    ensures |calls| == if buildHeaders(HeaderArgsFor(token, filePath)).Failure? then 0 else TiersTried(outcomes)
    ensures |warnings| == if calls == [] then 0 else |calls| - 1
    ensures CallsSetUp(calls, filePath, config, buildHeaders(HeaderArgsFor(token, filePath)))
    ensures |warnings| >= 1 ==> warnings[0] == SessionResult(outcomes.primary).error
    ensures |warnings| == 2 ==> warnings[1] == SessionResult(outcomes.direct).error
  {
    var path := NormalizePath(filePath);
    var contentType := ContentTypeHint(path);
    var built := buildHeaders(HeaderArgs(token, contentType, Origin, Referer));
    if built.Failure? {
      r, calls, warnings := Failure(built.error), [], [];
    } else {
      r, calls, warnings := Dispatch(filePath, config, built.value, outcomes);
    }
  }

  /**
   * `request`: one download, with the calls made, the warnings logged on escalation, the reports
   * filed with the token service, and the response returned or the exception raised.
   */
  method Request(token: string, filePath: string, config: Config,
                 buildHeaders: HeaderArgs -> Result<map<string, string>, Exc>,
                 outcomes: TierOutcomes, notice: Notice)
    returns (outcome: Result<Response, Exc>, calls: seq<Call>, warnings: seq<Exc>, reports: seq<FailReport>)
    ensures Classified(outcome, reports) == Classify(TryResult(token, filePath, buildHeaders, outcomes), token, notice)
    ensures outcome.Success? ==> outcome.value.statusCode == 200 && reports == []
    ensures outcome.Failure? ==> outcome.error.UpstreamException? || outcome.error.BaseException?
    ensures |reports| <= 1
    ensures reports != [] ==> reports[0] == FailReport(token, 401, AuthFailedReason) && outcome.Failure?
    ensures !NoticeEscapes(notice) ==> (|reports| == 1 <==> outcome.Failure? && IsAuthFailure(outcome.error))
    ensures |calls| == if buildHeaders(HeaderArgsFor(token, filePath)).Failure? then 0 else TiersTried(outcomes)
    ensures |warnings| == if calls == [] then 0 else |calls| - 1
    ensures CallsSetUp(calls, filePath, config, buildHeaders(HeaderArgsFor(token, filePath)))
    ensures |warnings| >= 1 ==> warnings[0] == SessionResult(outcomes.primary).error
    ensures |warnings| == 2 ==> warnings[1] == SessionResult(outcomes.direct).error
  {
    var r;
    r, calls, warnings := TryDownload(token, filePath, config, buildHeaders, outcomes);
    var c := Classify(r, token, notice);
    outcome, reports := c.outcome, c.reports;
  }

  /** A 200 from the first tier is what `request` returns, with no report filed. */
  lemma RequestPrimaryOk(token: string, filePath: string, buildHeaders: HeaderArgs -> Result<map<string, string>, Exc>,
                         outcomes: TierOutcomes, notice: Notice)
    requires buildHeaders(HeaderArgsFor(token, filePath)).Success?
    requires outcomes.primary.Returned? && outcomes.primary.response.statusCode == 200
    ensures Classify(TryResult(token, filePath, buildHeaders, outcomes), token, notice)
      == Classified(Success(outcomes.primary.response), [])
  {
    PrimaryOkShortCircuits(outcomes);
  }

  /**
   * When all three tiers answer 401 and the urllib tier reads that answer as a response, `request`
   * reports the token once and raises an upstream failure with status 401, unless that report itself
   * raised a `BaseException`. The default opener never delivers a 401 this way
   * (`RequestThreeUnauthorized`); this is what the status check of the urllib tier is written for.
   */
  lemma RequestAuthFailureReported(token: string, filePath: string, buildHeaders: HeaderArgs -> Result<map<string, string>, Exc>,
                                   outcomes: TierOutcomes, notice: Notice)
    requires buildHeaders(HeaderArgsFor(token, filePath)).Success?
    requires outcomes.primary.Returned? && outcomes.primary.response.statusCode == 401
    requires outcomes.direct.Returned? && outcomes.direct.response.statusCode == 401
    requires outcomes.fallback.Read? && UrllibStatus(outcomes.fallback.reply.status) == 401
    requires !NoticeEscapes(notice)
    ensures var c := Classify(TryResult(token, filePath, buildHeaders, outcomes), token, notice);
      && c.reports == [FailReport(token, 401, AuthFailedReason)]
      && c.outcome.Failure? && c.outcome.error.UpstreamException? && StatusOf(c.outcome.error) == VInt(401)
  {
    AllTiersRefuse(outcomes);
  }

  /**
   * An ordinary exception raised by the urllib call, after both curl tiers failed, is not wrapped
   * inside the cascade; `request` then raises it as an upstream failure with status 502 and its text.
   */
  lemma RequestFallbackErrorWrapped(token: string, filePath: string, buildHeaders: HeaderArgs -> Result<map<string, string>, Exc>,
                                    outcomes: TierOutcomes, notice: Notice)
    requires buildHeaders(HeaderArgsFor(token, filePath)).Success?
    requires Escalates(SessionResult(outcomes.primary)) && Escalates(SessionResult(outcomes.direct))
    requires outcomes.fallback.Failed? && outcomes.fallback.error.OtherException?
    ensures PassResult(outcomes) == Failure(outcomes.fallback.error)
    ensures Classify(TryResult(token, filePath, buildHeaders, outcomes), token, notice)
      == Classified(Failure(Wrapped(outcomes.fallback.error.text)), [])
  {
  }

  /**
   * All three tiers answer 401, with the default opener: both curl tiers escalate, `urlopen` raises
   * `HTTPError`, which leaves the cascade unwrapped, and `request` raises a 502 without reporting the token.
   */
  lemma RequestThreeUnauthorized(token: string, filePath: string, buildHeaders: HeaderArgs -> Result<map<string, string>, Exc>,
                                 outcomes: TierOutcomes, answer: Answer, notice: Notice)
    requires buildHeaders(HeaderArgsFor(token, filePath)).Success?
    requires outcomes.primary.Returned? && outcomes.primary.response.statusCode == 401
    requires outcomes.direct.Returned? && outcomes.direct.response.statusCode == 401
    requires answer.code == 401 && outcomes.fallback == DefaultUrlopen(answer)
    ensures Classify(TryResult(token, filePath, buildHeaders, outcomes), token, notice)
      == Classified(Failure(Wrapped(HttpErrorText(401, answer.reason))), [])
  {
    DefaultUrlopenRefusal(answer);
  }

  /**
   * With the default opener, a pass never ends in an upstream 401, so once the header builder has
   * answered, `request` files no report whatever the tiers answer.
   */
  lemma DefaultOpenerFilesNoReport(token: string, filePath: string, buildHeaders: HeaderArgs -> Result<map<string, string>, Exc>,
                                   outcomes: TierOutcomes, answer: Answer, notice: Notice)
    requires buildHeaders(HeaderArgsFor(token, filePath)).Success?
    requires outcomes.fallback == DefaultUrlopen(answer)
    ensures Classify(TryResult(token, filePath, buildHeaders, outcomes), token, notice).reports == []
  {
    DefaultUrlopenRefusal(answer);
  }
}
