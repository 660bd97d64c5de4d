/**
 * The three-tier transport of one download pass: the primary client with browser impersonation
 * and the proxy, the same client direct, and a last-resort urllib GET. The network is not modelled:
 * what each tier's call would produce is an input, and each method reports the call it makes.
 */
module Transport {
  import opened Wrappers
  import opened PyText
  import opened Exceptions
  import opened Envelope

  /** Everything a pass needs that `request` computed beforehand. */
  datatype Target = Target(
    url: string,
    headers: map<string, string>,
    timeout: Option<real>,
    proxies: Option<map<string, string>>,
    browser: Option<string>)

  /** The keyword arguments of `session.get`; an absent optional key is None. */
  datatype GetKwargs = GetKwargs(
    headers: map<string, string>,
    timeout: Option<real>,
    allowRedirects: bool,
    stream: bool,
    proxies: Option<map<string, string>>,
    impersonate: Option<string>)

  datatype Call =
    | SessionGet(url: string, kwargs: GetKwargs)
    | UrlOpen(url: string, headers: map<string, string>, timeout: Option<real>)
  {
    /** The request headers the call sends. */
    function SentHeaders(): map<string, string> {
      match this
      case SessionGet(_, kwargs) => kwargs.headers
      case UrlOpen(_, headers, _) => headers
    }
  }

  /** What `session.get` produced: a response, or an exception. */
  datatype Attempt = Returned(response: Response) | Raised(error: Exc)

  /** What `urlopen` produced: the response's `status` attribute, header items and body, or an exception. */
  datatype Opened = Opened(status: Option<int>, headerItems: seq<(string, string)>, body: seq<byte>)
  datatype UrlopenAttempt = Read(reply: Opened) | Failed(error: Exc)

  /** What the server answered the urllib request, after any redirects the opener followed. */
  datatype Answer = Answer(code: int, reason: string, headerItems: seq<(string, string)>, body: seq<byte>)

  /** `str(e)` for an `HTTPError` with this code and reason. */
  function HttpErrorText(code: int, reason: string): string {
    "HTTP Error " + IntToDecimal(code) + ": " + reason
  }

  /**
   * `urlopen` with the default opener: its `HTTPErrorProcessor` passes a 2xx answer on as the
   * response, and any other answer goes to `HTTPDefaultErrorHandler`, which raises `HTTPError`.
   */
  function DefaultUrlopen(a: Answer): (f: UrlopenAttempt)
    ensures f.Read? <==> 200 <= a.code < 300
    ensures f.Read? ==> f.reply == Opened(Some(a.code), a.headerItems, a.body)
    ensures f.Failed? ==> f.error == OtherException("HTTPError", HttpErrorText(a.code, a.reason))
  {
    if 200 <= a.code < 300 then Read(Opened(Some(a.code), a.headerItems, a.body))
    else Failed(OtherException("HTTPError", HttpErrorText(a.code, a.reason)))
  }

  /** The outcome each tier's call would have in this pass. */
  datatype TierOutcomes = TierOutcomes(primary: Attempt, direct: Attempt, fallback: UrlopenAttempt)

  /** Truthiness of the configured impersonation profile. */
  predicate BrowserSet(browser: Option<string>) {
    browser.Some? && browser.value != ""
  }

  /** Truthiness of the `proxies` mapping. */
  predicate ProxiesSet(proxies: Option<map<string, string>>) {
    proxies.Some? && proxies.value != map[]
  }

  /**
   * The arguments `_single_get(use_impersonate, use_proxy)` passes: always the headers, the timeout,
   * redirects and streaming; `proxies` only when asked for and set; `impersonate` only when asked
   * for and a profile is configured.
   */
  predicate KwargsFor(kwargs: GetKwargs, t: Target, useImpersonate: bool, useProxy: bool) {
    && kwargs.headers == t.headers
    && kwargs.timeout == t.timeout
    && kwargs.allowRedirects
    && kwargs.stream
    && (kwargs.proxies.Some? <==> useProxy && ProxiesSet(t.proxies))
    && (kwargs.proxies.Some? ==> kwargs.proxies == t.proxies)
    && (kwargs.impersonate.Some? <==> useImpersonate && BrowserSet(t.browser))
    && (kwargs.impersonate.Some? ==> kwargs.impersonate == t.browser)
  }

  /** A pass succeeds only on status 200; any other status becomes the upstream failure for it. */
  function RequireOk(response: Response): (r: Result<Response, Exc>)
    ensures r.Success? <==> response.statusCode == 200
    ensures r.Success? ==> r.value == response
    ensures r.Failure? ==> r.error.UpstreamException? && StatusOf(r.error) == VInt(response.statusCode)
  {
    if response.statusCode != 200 then Failure(DownloadFailed(response.statusCode)) else Success(response)
  }

  /** The outcome of `_single_get` for what `session.get` produced. */
  function SessionResult(a: Attempt): (r: Result<Response, Exc>)
    ensures r.Success? <==> a.Returned? && a.response.statusCode == 200
    ensures r.Success? ==> r.value == a.response
    ensures a.Raised? ==> r == Failure(a.error)
    ensures a.Returned? && r.Failure? ==> r.error.UpstreamException? && StatusOf(r.error) == VInt(a.response.statusCode)
  {
    match a
    case Raised(e) => Failure(e)
    case Returned(response) => RequireOk(response)
  }

  /** `_single_get`: the call it makes, and what it returns or raises. */
  method SingleGet(t: Target, useImpersonate: bool, useProxy: bool, session: Attempt) returns (call: Call, r: Result<Response, Exc>)
    ensures call.SessionGet? && call.url == t.url && KwargsFor(call.kwargs, t, useImpersonate, useProxy)
    ensures r == SessionResult(session)
  {
    var kwargs := GetKwargs(t.headers, t.timeout, true, true, None, None);
    if useProxy && ProxiesSet(t.proxies) {
      kwargs := kwargs.(proxies := t.proxies);
    }
    if useImpersonate && BrowserSet(t.browser) {
      kwargs := kwargs.(impersonate := t.browser);
    }
    call := SessionGet(t.url, kwargs);
    match session
    case Raised(e) =>
      r := Failure(e);
    case Returned(response) =>
      if response.statusCode != 200 {
        r := Failure(DownloadFailed(response.statusCode));
      } else {
        r := Success(response);
      }
  }

  /** `int(getattr(resp, "status", 200) or 200)`: an absent or zero status reads as 200. */
  function UrllibStatus(status: Option<int>): (s: int)
    ensures s != 0
    ensures status.None? || status.value == 0 ==> s == 200
    ensures status.Some? && status.value != 0 ==> s == status.value
  {
    if status.None? || status.value == 0 then 200 else status.value
  }

  /** The names of the first `n` entries. */
  function Names(entries: seq<(string, string)>, n: nat): set<string>
    requires n <= |entries|
  {
    set i | 0 <= i < n :: entries[i].0
  }

  /** The lower-cased forms of a set of names. */
  function LowerAll(names: set<string>): set<string> {
    set k | k in names :: Lower(k)
  }

  /** The first entry at or after `i` named `k`, or -1. */
  function FindKey(d: seq<(string, string)>, k: string, i: nat): (at: int)
    requires i <= |d|
    ensures at == -1 || (i <= at < |d| && d[at].0 == k)
    ensures forall j :: i <= j < |d| && (at == -1 || j < at) ==> d[j].0 != k
    decreases |d| - i
  {
    if i == |d| then -1 else if d[i].0 == k then i else FindKey(d, k, i + 1)
  }

  /** `FindKey` is the first entry with that name, and -1 exactly when there is none. */
  lemma FindKeyIs(d: seq<(string, string)>, k: string, at: int)
    requires at == -1 || (0 <= at < |d| && d[at].0 == k)
    requires forall j :: 0 <= j < |d| && (at == -1 || j < at) ==> d[j].0 != k
    ensures FindKey(d, k, 0) == at
  {
    var found := FindKey(d, k, 0);
    assert found != -1 ==> d[found].0 == k;
    assert at != -1 ==> d[at].0 == k;
  }

  /**
   * The entries of `dict(items)`, for the first `n` items: each name once, in the order of its
   * first occurrence, with the value of its last occurrence.
   */
  function DictUpTo(items: seq<(string, string)>, n: nat): seq<(string, string)>
    requires n <= |items|
  {
    if n == 0 then []
    else
      var d := DictUpTo(items, n - 1);
      var at := FindKey(d, items[n - 1].0, 0);
      if at >= 0 then d[at := items[n - 1]] else d + [items[n - 1]]
  }

  /** `dict(resp.headers.items()).items()`. */
  function DictItems(items: seq<(string, string)>): seq<(string, string)> {
    DictUpTo(items, |items|)
  }

  lemma NamesStep(s: seq<(string, string)>, n: nat)
    requires 0 < n <= |s|
    ensures Names(s, n) == Names(s, n - 1) + {s[n - 1].0}
  {
    forall x | x in Names(s, n) ensures x in Names(s, n - 1) + {s[n - 1].0} {
      var i :| 0 <= i < n && x == s[i].0;
    }
  }

  lemma NamesSameKeys(d: seq<(string, string)>, e: seq<(string, string)>, n: nat)
    requires n <= |d| && n <= |e|
    requires forall j :: 0 <= j < n ==> d[j].0 == e[j].0
    ensures Names(d, n) == Names(e, n)
  {
    forall x | x in Names(d, n) ensures x in Names(e, n) {
      var i :| 0 <= i < n && x == d[i].0;
      assert x == e[i].0;
    }
    forall x | x in Names(e, n) ensures x in Names(d, n) {
      var i :| 0 <= i < n && x == e[i].0;
      assert x == d[i].0;
    }
  }

  /** The dictionary has an entry for every name among the items, and for nothing else. */
  lemma {:induction false} DictUpToNames(items: seq<(string, string)>, n: nat)
    requires n <= |items|
    ensures Names(DictUpTo(items, n), |DictUpTo(items, n)|) == Names(items, n)
  {
    if n > 0 {
      DictUpToNames(items, n - 1);
      var d := DictUpTo(items, n - 1);
      var d' := DictUpTo(items, n);
      var item := items[n - 1];
      var at := FindKey(d, item.0, 0);
      NamesStep(items, n);
      if at >= 0 {
        NamesSameKeys(d', d, |d|);
      } else {
        assert d' == d + [item];
        NamesStep(d', |d'|);
        NamesSameKeys(d', d, |d|);
      }
    }
  }

  /** No name appears twice in the dictionary. */
  lemma {:induction false} DictUpToUnique(items: seq<(string, string)>, n: nat)
    requires n <= |items|
    ensures forall p, q :: 0 <= p < q < |DictUpTo(items, n)| ==> DictUpTo(items, n)[p].0 != DictUpTo(items, n)[q].0
  {
    if n > 0 {
      DictUpToUnique(items, n - 1);
      var d := DictUpTo(items, n - 1);
      var d' := DictUpTo(items, n);
      var item := items[n - 1];
      var at := FindKey(d, item.0, 0);
      forall p, q | 0 <= p < q < |d'| ensures d'[p].0 != d'[q].0 {
        if at >= 0 {
          assert d'[p].0 == d[p].0 && d'[q].0 == d[q].0;
          assert d[p].0 != d[q].0;
        } else if q < |d| {
          assert d'[p] == d[p] && d'[q] == d[q];
          assert d[p].0 != d[q].0;
        } else {
          assert d'[p] == d[p] && d'[q] == item;
          assert d[p].0 != item.0;
        }
      }
    }
  }

  /** The value a name ends up with is that of its last occurrence among the items. */
  lemma {:induction false} DictUpToLastValue(items: seq<(string, string)>, n: nat, i: nat)
    requires i < n <= |items|
    requires forall j :: i < j < n ==> items[j].0 != items[i].0
    ensures var d := DictUpTo(items, n);
      var p := FindKey(d, items[i].0, 0);
      p >= 0 && d[p] == items[i]
  {
    var k := items[i].0;
    var d := DictUpTo(items, n - 1);
    var d' := DictUpTo(items, n);
    var at := FindKey(d, items[n - 1].0, 0);
    if at >= 0 {
      assert forall j :: 0 <= j < |d| ==> d'[j].0 == d[j].0;
    } else {
      assert forall j :: 0 <= j < |d| ==> d'[j] == d[j];
    }
    if i == n - 1 {
      FindKeyIs(d', k, if at >= 0 then at else |d|);
    } else {
      DictUpToLastValue(items, n - 1, i);
      var p := FindKey(d, k, 0);
      assert p != at && d'[p] == d[p];
      assert forall j :: 0 <= j < p ==> d'[j].0 == d[j].0 != k;
      FindKeyIs(d', k, p);
    }
  }

  /** The header dictionary the loop of `_do_get` builds from the dictionary's entries: each lower-cased name to its value. */
  function LowerKeys(entries: seq<(string, string)>): map<string, string>
    decreases |entries|
  {
    if entries == [] then map[]
    else
      var last := entries[|entries| - 1];
      LowerKeys(entries[..|entries| - 1])[Lower(last.0) := last.1]
  }

  /** The keys are exactly the lower-cased names of the entries. */
  lemma {:induction false} LowerKeysDomain(entries: seq<(string, string)>)
    ensures LowerKeys(entries).Keys == LowerAll(Names(entries, |entries|))
    decreases |entries|
  {
    if entries != [] {
      var init := entries[..|entries| - 1];
      LowerKeysDomain(init);
      var last := entries[|entries| - 1];
      assert Names(entries, |entries|) == Names(init, |init|) + {last.0} by {
        forall x | x in Names(entries, |entries|) ensures x in Names(init, |init|) + {last.0} {
          var i :| 0 <= i < |entries| && x == entries[i].0;
          if i < |init| { assert init[i] == entries[i]; }
        }
        forall x | x in Names(init, |init|) ensures x in Names(entries, |entries|) {
          var i :| 0 <= i < |init| && x == init[i].0;
          assert init[i] == entries[i];
        }
      }
    }
  }

  /** Every key is in lower case. */
  lemma {:induction false} LowerKeysLowercase(entries: seq<(string, string)>)
    ensures forall key :: key in LowerKeys(entries) ==> Lower(key) == key
    decreases |entries|
  {
    if entries != [] {
      LowerKeysLowercase(entries[..|entries| - 1]);
      LowerIdempotent(entries[|entries| - 1].0);
    }
  }

  /** A key's value is that of the last entry whose name lowers to it. */
  lemma {:induction false} LowerKeysLastWins(entries: seq<(string, string)>, i: nat)
    requires i < |entries|
    requires forall j :: i < j < |entries| ==> Lower(entries[j].0) != Lower(entries[i].0)
    ensures Lower(entries[i].0) in LowerKeys(entries) && LowerKeys(entries)[Lower(entries[i].0)] == entries[i].1
    decreases |entries|
  {
    if i < |entries| - 1 {
      var init := entries[..|entries| - 1];
      assert init[i] == entries[i];
      forall j | i < j < |init| ensures Lower(init[j].0) != Lower(init[i].0) {
        assert init[j] == entries[j];
      }
      LowerKeysLastWins(init, i);
    }
  }

  /**
   * A header the response spells in one way only is read with the value of its last occurrence.
   * (Spelt two ways, say "ETag" then "Etag", the name of the later first occurrence wins instead.)
   */
  lemma HeaderLastOccurrenceWins(items: seq<(string, string)>, i: nat)
    requires i < |items|
    requires forall j :: i < j < |items| ==> items[j].0 != items[i].0
    requires forall j :: 0 <= j < |items| && Lower(items[j].0) == Lower(items[i].0) ==> items[j].0 == items[i].0
    ensures Lower(items[i].0) in LowerKeys(DictItems(items))
    ensures LowerKeys(DictItems(items))[Lower(items[i].0)] == items[i].1
  {
    var d := DictItems(items);
    DictUpToLastValue(items, |items|, i);
    DictUpToNames(items, |items|);
    DictUpToUnique(items, |items|);
    var p := FindKey(d, items[i].0, 0);
    forall q | p < q < |d| ensures Lower(d[q].0) != Lower(d[p].0) {
      assert d[q].0 in Names(items, |items|);
      var j :| 0 <= j < |items| && items[j].0 == d[q].0;
    }
    LowerKeysLastWins(d, p);
  }

  /** The loop of `_do_get` over the entries of `dict(resp.headers.items())`. */
  method LowerHeaderKeys(items: seq<(string, string)>) returns (raw: map<string, string>)
    ensures raw == LowerKeys(DictItems(items))
    ensures raw.Keys == LowerAll(Names(items, |items|))
    ensures forall key :: key in raw ==> Lower(key) == key
  {
    var entries := DictItems(items);
    raw := map[];
    var i := 0;
    while i < |entries|
      invariant 0 <= i <= |entries|
      invariant raw == LowerKeys(entries[..i])
    {
      assert entries[..i + 1][..i] == entries[..i];
      raw := raw[Lower(entries[i].0) := entries[i].1];
      i := i + 1;
    }
    assert entries[..|entries|] == entries;
    LowerKeysLowercase(entries);
    LowerKeysDomain(entries);
    DictUpToNames(items, |items|);
  }

  /** `_urllib_get`: the call it makes and the `_SimpleResponse` it builds, or the exception urlopen raised. */
  method UrllibGet(t: Target, fallback: UrlopenAttempt) returns (call: Call, r: Result<Response, Exc>)
    ensures call == UrlOpen(t.url, t.headers, t.timeout)
    ensures r.Failure? <==> fallback.Failed?
    ensures fallback.Failed? ==> r.error == fallback.error
    ensures fallback.Read? ==> r.value == Simple(UrllibStatus(fallback.reply.status),
                                            LowerKeys(DictItems(fallback.reply.headerItems)),
                                            Some(fallback.reply.body))
  {
    call := UrlOpen(t.url, t.headers, t.timeout);
    match fallback
    case Failed(e) =>
      r := Failure(e);
    case Read(reply) =>
      var raw := LowerHeaderKeys(reply.headerItems);
      r := Success(Simple(UrllibStatus(reply.status), raw, Some(reply.body)));
  }

  /** Caught by `except Exception`, so the cascade moves on to the next tier. */
  predicate Escalates(r: Result<Response, Exc>) {
    r.Failure? && IsException(r.error)
  }

  /** What the urllib tier contributes to a pass: its response on 200, an upstream failure otherwise. */
  function FallbackResult(fallback: UrlopenAttempt): (r: Result<Response, Exc>)
    ensures fallback.Failed? ==> r == Failure(fallback.error)
    ensures r.Success? <==> fallback.Read? && UrllibStatus(fallback.reply.status) == 200
    ensures fallback.Read? && r.Failure? ==>
      r.error.UpstreamException? && StatusOf(r.error) == VInt(UrllibStatus(fallback.reply.status))
    ensures r.Success? ==>
      (r.value.Simple? && r.value.statusCode == 200
       && r.value.headers == LowerKeys(DictItems(fallback.reply.headerItems))
       && r.value.content == Some(fallback.reply.body))
  {
    match fallback
    case Failed(e) => Failure(e)
    case Read(o) => RequireOk(Simple(UrllibStatus(o.status), LowerKeys(DictItems(o.headerItems)), Some(o.body)))
  }

  /** How many tiers one pass tries: the next one only after an `Exception` or a status other than 200. */
  function TiersTried(o: TierOutcomes): (n: nat)
    ensures 1 <= n <= 3
    ensures n == 1 <==> !Escalates(SessionResult(o.primary))
    ensures n == 3 <==> Escalates(SessionResult(o.primary)) && Escalates(SessionResult(o.direct))
  {
    if !Escalates(SessionResult(o.primary)) then 1
    else if !Escalates(SessionResult(o.direct)) then 2
    else 3
  }

  /**
   * What one pass of the cascade returns or raises: the first curl tier that does not escalate
   * decides, and after both have escalated the urllib tier does.
   */
  function PassResult(o: TierOutcomes): (r: Result<Response, Exc>)
    ensures r.Success? ==> r.value.statusCode == 200
    ensures r.Failure? && IsException(r.error) ==> TiersTried(o) == 3
    ensures TiersTried(o) == 1 ==> r == SessionResult(o.primary)
    ensures TiersTried(o) == 2 ==> r == SessionResult(o.direct)
    ensures TiersTried(o) == 3 ==> r == FallbackResult(o.fallback)
  {
    var r1 := SessionResult(o.primary);
    if !Escalates(r1) then r1
    else
      var r2 := SessionResult(o.direct);
      if !Escalates(r2) then r2 else FallbackResult(o.fallback)
  }

  /** A 200 from the first tier is returned, and neither fallback is tried. */
  lemma PrimaryOkShortCircuits(o: TierOutcomes)
    requires o.primary.Returned? && o.primary.response.statusCode == 200
    ensures PassResult(o) == Success(o.primary.response) && TiersTried(o) == 1
  {
  }

  /** When the first tier fails and the direct tier answers 200, that answer is returned and urllib is not tried. */
  lemma DirectOkAfterPrimaryFails(o: TierOutcomes)
    requires Escalates(SessionResult(o.primary))
    requires o.direct.Returned? && o.direct.response.statusCode == 200
    ensures PassResult(o) == Success(o.direct.response) && TiersTried(o) == 2
  {
  }

  /** When every tier answers with a status other than 200, the pass raises an upstream failure with the urllib status. */
  lemma AllTiersRefuse(o: TierOutcomes)
    requires o.primary.Returned? && o.primary.response.statusCode != 200
    requires o.direct.Returned? && o.direct.response.statusCode != 200
    requires o.fallback.Read? && UrllibStatus(o.fallback.reply.status) != 200
    ensures TiersTried(o) == 3
    ensures PassResult(o).Failure? && PassResult(o).error.UpstreamException?
    ensures StatusOf(PassResult(o).error) == VInt(UrllibStatus(o.fallback.reply.status))
  {
  }

  /**
   * With the default opener, the urllib tier's status check only ever sees a 2xx answer: an upstream
   * failure out of it carries a status from 201 to 299, and any other answer arrives as `HTTPError`.
   */
  lemma DefaultUrlopenRefusal(a: Answer)
    ensures FallbackResult(DefaultUrlopen(a)).Failure? && FallbackResult(DefaultUrlopen(a)).error.UpstreamException? ==>
      200 < a.code < 300 && StatusOf(FallbackResult(DefaultUrlopen(a)).error) == VInt(a.code)
    ensures !(200 <= a.code < 300) ==>
      FallbackResult(DefaultUrlopen(a)) == Failure(OtherException("HTTPError", HttpErrorText(a.code, a.reason)))
  {
  }

  /**
   * `_do_request`: one pass of the cascade. A tier whose call raises an `Exception` or answers with a
   * status other than 200 hands over to the next, with a warning carrying that exception; a
   * `BaseException` ends the pass at once. The urllib tier's own exceptions propagate as they are.
   */
  method DoRequest(t: Target, outcomes: TierOutcomes) returns (r: Result<Response, Exc>, calls: seq<Call>, warnings: seq<Exc>)
    ensures r == PassResult(outcomes)
    ensures |calls| == TiersTried(outcomes) && |warnings| == |calls| - 1
    ensures forall i :: 0 <= i < |calls| ==> calls[i].url == t.url && calls[i].SentHeaders() == t.headers
    ensures calls[0].SessionGet? && KwargsFor(calls[0].kwargs, t, true, true)
    ensures |calls| >= 2 ==> calls[1].SessionGet? && KwargsFor(calls[1].kwargs, t, false, false)
    ensures |calls| == 3 ==> calls[2] == UrlOpen(t.url, t.headers, t.timeout)
    ensures |warnings| >= 1 ==> warnings[0] == SessionResult(outcomes.primary).error
    ensures |warnings| == 2 ==> warnings[1] == SessionResult(outcomes.direct).error
  {
    var c1, r1 := SingleGet(t, true, true, outcomes.primary);
    if !Escalates(r1) {
      r, calls, warnings := r1, [c1], [];
    } else {
      var c2, r2 := SingleGet(t, false, false, outcomes.direct);
      if !Escalates(r2) {
        r, calls, warnings := r2, [c1, c2], [r1.error];
      } else {
        var c3, r3 := UrllibGet(t, outcomes.fallback);
        calls, warnings := [c1, c2, c3], [r1.error, r2.error];
        if r3.Failure? {
          r := r3;
        } else {
          r := RequireOk(r3.value);
        }
      }
    }
  }
}
