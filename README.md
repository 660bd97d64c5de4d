# Asset download adapter — a Dafny model

This project models the decision logic of `AssetsDownloadReverse`, the adapter that
downloads a stored asset (an image or a video) from `https://assets.grok.com`. The model covers:

- **Request target.** The file path gets a leading `/`, and the URL is the asset host followed by that path.
- **Proxy.** The asset proxy wins over the base proxy. Both are stripped first, and one that is blank after stripping counts as absent.
- **Content-type hint.** It comes from the lower-cased extension of the URL path's last component, looked up in the closed table of six extensions.
- **Navigation headers.** Six fixed values are laid over whatever the header builder returned.
- **One download pass, a three-tier cascade:**
  - tier 1 is the primary client with impersonation and the proxy;
  - tier 2 is the same client, direct;
  - tier 3 is a urllib GET.

  A tier that raises an `Exception`, or answers with a status other than 200, hands over to the next tier. A status other than 200 read at the last tier becomes an `UpstreamException` carrying that status. An exception raised by the urllib call itself propagates as it is. With urllib's default opener, `urlopen` raises `HTTPError` for every non-2xx answer, so on that path only a 2xx status other than 200 reaches the status check; the `HTTPError` is wrapped as a 502 by the outer handler (see "## Findings").
- **urllib response.** Its status defaults to 200 when it is absent or 0. Its header names are taken through `dict(...)` and lower-cased in a loop.
- **Chunking.** A buffered response's `aiter_content` generator slices the body into chunks.
- **Outer exception handler.** An upstream failure is re-raised unchanged. A 401 is reported to the token service first, and an `Exception` raised by that report is swallowed. Any other `Exception` becomes an upstream failure with status 502 that carries its text.

Python semantics are written out where they matter:

- `range` with step 0 raises `ValueError`, and a negative step yields nothing.
- `str.strip()` uses the full `str.isspace` set.
- `except Exception` does not catch a `BaseException` such as task cancellation.
- An empty `details` dict is falsy.
- `dict(items)` keeps each name's first position and its last value.
- `urlparse`, unlike `urlsplit`, cuts `;params` off the last path segment, so `/a/b.jpg;v=1` is hinted as `image/jpeg`.

Because the dict is taken before lower-casing, a name spelled two ways does not always keep its last value. For example, `A: 1, a: 2, A: 3` becomes `{"a": "2"}`. `Transport.HeaderLastOccurrenceWins` states the "last occurrence wins" property under the condition that each name has a single spelling.

Every networked or configured collaborator is an input:

- what each tier's call produces (`TierOutcomes`);
- the configuration values (`Config`);
- the header builder (a function from its arguments to headers or an exception);
- how the `record_fail` call ends (`Notice`).

Each method also returns the calls it makes, the warnings it logs on escalation and the reports it files, so the contracts can say which tiers were attempted and with what.

Modules, one per file:

| module | file | covers |
|---|---|---|
| `Wrappers` | `wrappers.dfy` | `Option`, `Result` |
| `PyText` | `pytext.dfy` | Python string operations |
| `Exceptions` | `exceptions.dfy` | the exceptions and status extraction |
| `Envelope` | `envelope.dfy` | the response and `aiter_content` |
| `RequestTarget` | `target.dfy` | path, URL, proxy, content type, headers |
| `Transport` | `transport.dfy` | `_single_get`, `_urllib_get`, `_do_request` |
| `Classifier` | `classifier.dfy` | the outer `except` |
| `AssetsDownload` | `assets_download.dfy` | `request` |

## Model

`Classifier.IsAuthFailure` (the upstream-401 test at lines 173 and 180) and `Transport.Escalates` (the `except Exception` at lines 139 and 147) are predicates with no contract of their own. They are the vocabulary of the `Classify`, `TiersTried` and `PassResult` rows.

| member | source | states |
|---|---|---|
| PyText.Strip | app/services/reverse/assets_download.py:86-87 | the stripped proxy value is no longer than the input and has no whitespace at either end |
| PyText.StripIsInfix | app/services/reverse/assets_download.py:86-87 | the stripped value is a contiguous slice of the input, and everything removed before and after it is whitespace |
| PyText.StripEmptyIff | app/services/reverse/assets_download.py:86-88 | a value strips to the empty (falsy) string exactly when it is all whitespace |
| PyText.StripIdempotent | app/services/reverse/assets_download.py:86-87 | stripping twice gives the same as stripping once |
| PyText.StartsWith | app/services/reverse/assets_download.py:81 | `file_path.startswith(prefix)`: the prefix is no longer than the string and equals its first characters |
| PyText.Lower | app/services/reverse/assets_download.py:92 | `str.lower()` on ASCII: the result has the same length and no upper-case ASCII letter (Unicode case mapping is left out) |
| PyText.LowerIdempotent | app/services/reverse/assets_download.py:57 | lower-casing a lower-cased string changes nothing |
| PyText.LowerSlice | app/services/reverse/assets_download.py:92 | lower-casing commutes with slicing, so the suffix of the lower-cased name is the lower-cased suffix |
| PyText.IntToDecimal | app/services/reverse/assets_download.py:131 | `str(status)` inside the failure message, with a leading `-` for a negative status |
| Exceptions.StatusOf | app/services/reverse/assets_download.py:174-178 | the status is `details["status"]` when present, otherwise the `status_code` attribute |
| Exceptions.DownloadFailed | app/services/reverse/assets_download.py:130-133 | the exception for a non-200 answer is an `UpstreamException` whose details are exactly `{"status": s}` and whose message starts with the failure prefix |
| Envelope.CollectChunks | app/services/reverse/assets_download.py:42-44 | the generator loop yields exactly the chunk sequence `Chunks(data, chunkSize)` |
| Envelope.AiterContent | app/services/reverse/assets_download.py:41-44 | chunk size 0 raises `ValueError`, a negative one yields nothing, and a positive one yields chunks that concatenate back to the body, number ceil(N/C), are each non-empty and at most C long, and are none for empty or `None` content |
| Envelope.ChunksRoundTrip | app/services/reverse/assets_download.py:42-44 | concatenating the chunks gives back the body |
| Envelope.ChunksSized | app/services/reverse/assets_download.py:43-44 | every chunk is non-empty and at most `chunk_size` long, and all but the last are exactly `chunk_size` |
| Envelope.ChunksCount | app/services/reverse/assets_download.py:43 | there are ceil(len(data) / chunk_size) chunks |
| Envelope.Body | app/services/reverse/assets_download.py:42 | `self.content or b""`: the content, or no bytes when it is `None` |
| Envelope.Chunks | app/services/reverse/assets_download.py:43-44 | the slices `data[i:i + chunk_size]` for `i` in `range(0, len(data), chunk_size)`; its properties are `ChunksRoundTrip`, `ChunksSized` and `ChunksCount` |
| Envelope.AiterContentDefault | app/services/reverse/assets_download.py:41 | with the default chunk size of 64 KiB the chunks concatenate back to the body, number ceil(N/65536), and are each at most 64 KiB |
| RequestTarget.NormalizePath | app/services/reverse/assets_download.py:81-82 | the path starts with `/`; it is the input when that already starts with `/`, else `/` plus the input |
| RequestTarget.NormalizePathIdempotent | app/services/reverse/assets_download.py:81-82 | normalising twice gives the same as normalising once |
| RequestTarget.NormalizePathAddsSlash | app/services/reverse/assets_download.py:81-82 | a path without a leading `/` is treated exactly as the same path with one |
| RequestTarget.TargetUrl | app/services/reverse/assets_download.py:83 | the URL is `DOWNLOAD_API` followed by exactly the normalised path |
| RequestTarget.OrEmpty | app/services/reverse/assets_download.py:86-87 | `get_config(key) or ""`: the configured value, or the empty string when it is absent |
| RequestTarget.BlankIffAllSpace | app/services/reverse/assets_download.py:86-88 | a proxy setting counts as unset exactly when it is absent, empty or all whitespace |
| RequestTarget.ProxyUrl | app/services/reverse/assets_download.py:86-88 | the stripped asset proxy when it is not blank, else the stripped base proxy; empty exactly when both are blank |
| RequestTarget.Proxies | app/services/reverse/assets_download.py:89 | `None` exactly when both proxies are blank; otherwise the keys are `http` and `https`, both mapped to the chosen URL |
| RequestTarget.SplitPath | app/services/reverse/assets_download.py:92 | the `urlsplit` path that `urlparse` starts from: what precedes the first `?` or `#`, less a `//host` prefix; no `?` or `#` in it |
| RequestTarget.UrlPath | app/services/reverse/assets_download.py:92 | `urlparse(file_path).path`: no `?` or `#` in it, and no `;` in its last segment |
| RequestTarget.StripParams | app/services/reverse/assets_download.py:92 | `urlparse` cuts the path at the first `;` after its last `/`; the result is a prefix of the path that keeps every earlier segment |
| RequestTarget.PathName | app/services/reverse/assets_download.py:92 | `Path(...).name`: the last component that is not empty or `.`; it contains no `/` and is never `.` |
| RequestTarget.Suffix | app/services/reverse/assets_download.py:92 | `Path(...).suffix`: empty, or a dot followed by at least one other character and no further dot, at the end of the name and not the whole of it |
| RequestTarget.Extension | app/services/reverse/assets_download.py:92 | the lower-cased suffix that is looked up: empty, or a dot followed by at least one character |
| RequestTarget.ContentTypeHint | app/services/reverse/assets_download.py:92 | the hint is present exactly when the lower-cased extension is one of the six keys, and it is that key's content type |
| RequestTarget.ContentTypeHintIgnoresCase | app/services/reverse/assets_download.py:92 | lower-casing the path does not change the hint, so `.JPG` is looked up as `.jpg` |
| RequestTarget.ContentTypeHintIgnoresQuery | app/services/reverse/assets_download.py:92 | a query or fragment appended to the path does not change the hint |
| RequestTarget.ContentTypeHintOfFileName | app/services/reverse/assets_download.py:22-29 | for any directory, stem and extension `.xyz` with no `?`, `#` or `;`, the hint is the table's entry for the lower-cased extension, or `None` when it has none; `ContentTypeHintIgnoresQuery` and `ContentTypeHintIgnoresParams` extend it to paths with query or parameters |
| RequestTarget.ContentTypeHintHiddenFile | app/services/reverse/assets_download.py:92 | a name whose only dot is its first character, such as `.png`, has no suffix and so no hint |
| RequestTarget.UrlPathNoQuery | app/services/reverse/assets_download.py:92 | a path with no `?`, `#` or `;` and no leading `//` is its own URL path |
| RequestTarget.UrlPathDropsQuery | app/services/reverse/assets_download.py:92 | the URL path stops at the first `?` or `#` |
| RequestTarget.UrlPathDropsParams | app/services/reverse/assets_download.py:92 | parameters after a `;` in the last segment do not reach the path: `/a/b.jpg;v=1` has the path `/a/b.jpg`, and `/a;b.jpg` has the path `/a` |
| RequestTarget.ContentTypeHintIgnoresParams | app/services/reverse/assets_download.py:92 | `;params` in the last segment do not change the hint |
| RequestTarget.PathNameLastComponent | app/services/reverse/assets_download.py:92 | the name of `dir/name` is `name`, whatever the directory |
| RequestTarget.ExtensionIsNameSuffix | app/services/reverse/assets_download.py:92 | for a path with no `?`, `#` or `;`, the extension looked up is the lower-cased suffix of its last component |
| RequestTarget.SuffixOfStemExt | app/services/reverse/assets_download.py:92 | the suffix of a stem followed by `.xyz` with no further dot is `.xyz` |
| RequestTarget.SuffixOfHiddenName | app/services/reverse/assets_download.py:92 | a name whose only dot is its first character has an empty suffix |
| RequestTarget.AlignNavigationHeaders | app/services/reverse/assets_download.py:102-107 | the six navigation headers hold their fixed values, every other header the builder produced is unchanged, and nothing else is added |
| RequestTarget.Aligned | app/services/reverse/assets_download.py:102-107 | the headers after the six assignments: the navigation headers hold their fixed values, every other header the builder produced is unchanged, and nothing else is added |
| Transport.RequireOk | app/services/reverse/assets_download.py:125-134 | success exactly when the status is 200, returning the response; otherwise an `UpstreamException` whose status is the response's |
| Transport.SessionResult | app/services/reverse/assets_download.py:124-134 | success exactly when `session.get` returned a 200 response; a raised exception passes through unchanged; any other status becomes an upstream failure with that status |
| Transport.SingleGet | app/services/reverse/assets_download.py:113-134 | always passes the headers, timeout, redirects and streaming; passes `proxies` exactly when asked for and the mapping is truthy, and `impersonate` exactly when asked for and a browser is configured |
| Transport.KwargsFor | app/services/reverse/assets_download.py:114-123 | the arguments of `session.get`: always the headers, timeout, redirects and streaming; `proxies` exactly when asked for and truthy; `impersonate` exactly when asked for and a browser is configured |
| Transport.UrllibStatus | app/services/reverse/assets_download.py:53 | an absent or zero status reads as 200; any other status is kept |
| Transport.FindKeyIs | app/services/reverse/assets_download.py:56 | the dictionary lookup finds the first entry with the name, and reports a miss exactly when there is none |
| Transport.DictUpToNames | app/services/reverse/assets_download.py:56 | `dict(items)` has an entry for every name among the items and for nothing else |
| Transport.DictUpToUnique | app/services/reverse/assets_download.py:56 | no name appears twice among the entries of `dict(items)` |
| Transport.DictUpToLastValue | app/services/reverse/assets_download.py:56 | in `dict(items)`, each name carries the value of its last occurrence |
| Transport.DictItems | app/services/reverse/assets_download.py:56 | the entries of `dict(resp.headers.items())`; its properties are `DictUpToNames`, `DictUpToUnique` and `DictUpToLastValue` |
| Transport.LowerKeys | app/services/reverse/assets_download.py:55-57 | the `raw_headers` the loop builds from those entries; its properties are `LowerKeysDomain`, `LowerKeysLowercase` and `LowerKeysLastWins` |
| Transport.LowerKeysDomain | app/services/reverse/assets_download.py:55-57 | the keys of `raw_headers` are exactly the lower-cased header names |
| Transport.LowerKeysLowercase | app/services/reverse/assets_download.py:57 | every key of `raw_headers` is lower case |
| Transport.LowerKeysLastWins | app/services/reverse/assets_download.py:56-57 | a key of `raw_headers` holds the value of the last entry whose name lowers to it |
| Transport.HeaderLastOccurrenceWins | app/services/reverse/assets_download.py:55-57 | when each header name has a single spelling, its lower-cased key holds the value of its last occurrence |
| Transport.LowerHeaderKeys | app/services/reverse/assets_download.py:55-57 | the loop builds `LowerKeys(DictItems(items))`; its keys are exactly the lower-cased names, all in lower case |
| Transport.UrllibGet | app/services/reverse/assets_download.py:47-65 | opens the URL with the same headers and timeout; fails exactly when `urlopen` raised, with that exception; otherwise returns a buffered response with the defaulted status, lower-cased headers and the body |
| Transport.FallbackResult | app/services/reverse/assets_download.py:153-167 | the urllib tier's exception passes through unwrapped; success exactly when its status is 200; otherwise an `UpstreamException` carrying that status |
| Transport.TiersTried | app/services/reverse/assets_download.py:136-167 | one to three tiers: only tier 1 when it does not escalate, all three exactly when both curl tiers escalate |
| Transport.PassResult | app/services/reverse/assets_download.py:136-167 | the pass's outcome: a success has status 200; an `Exception` raised out of the pass means all three tiers were tried; the tier the pass stops at decides the outcome |
| Transport.PrimaryOkShortCircuits | app/services/reverse/assets_download.py:137-138 | a 200 from tier 1 is returned, and tiers 2 and 3 are not tried |
| Transport.DirectOkAfterPrimaryFails | app/services/reverse/assets_download.py:139-146 | after tier 1 escalates, a 200 from tier 2 is returned and urllib is not tried |
| Transport.AllTiersRefuse | app/services/reverse/assets_download.py:158-166 | when every tier answers with a status other than 200, all three are tried and the pass raises an upstream failure with the urllib status; with the default opener the urllib tier reaches this branch only for a 2xx status other than 200 (`DefaultUrlopenRefusal`) |
| Transport.DefaultUrlopen | app/services/reverse/assets_download.py:52 | urllib's default opener returns the answer exactly when its code is 2xx, with that code, the headers and the body; any other code raises `HTTPError` whose text is `HTTP Error <code>: <reason>` |
| Transport.DefaultUrlopenRefusal | app/services/reverse/assets_download.py:153-166 | with the default opener, the urllib tier's upstream failure can only carry a 2xx status other than 200; a non-2xx answer leaves the tier as the `HTTPError` itself, not as an `UpstreamException` |
| Transport.DoRequest | app/services/reverse/assets_download.py:136-167 | the pass returns exactly `PassResult` and makes `TiersTried` calls: tier 1 with impersonation and proxy, tier 2 with neither, then urllib, all with the same URL and headers; each escalation logs the error of the tier it leaves |
| Classifier.Wrapped | app/services/reverse/assets_download.py:192-195 | the replacement exception is an `UpstreamException` with details exactly `{"status": 502, "error": str(e)}` and message prefix plus `str(e)` |
| Classifier.Classify | app/services/reverse/assets_download.py:171-195 | a success is returned with no report; one token-service report is filed exactly when the failure is an upstream 401; an upstream failure is re-raised unchanged, except that a `BaseException` raised by the 401 report replaces it; any other `Exception` is wrapped as 502; a `BaseException` passes through |
| Classifier.RecordFailErrorSwallowed | app/services/reverse/assets_download.py:181-184 | whether `record_fail` returned normally or raised an `Exception` makes no difference to the result |
| AssetsDownload.HeaderArgsFor | app/services/reverse/assets_download.py:92-100 | the header builder gets the token, the content-type hint of the normalised path, and the fixed origin and referer |
| AssetsDownload.TryResult | app/services/reverse/assets_download.py:79-169 | the body of the `try`: the header builder's exception when it raised, else the pass's outcome |
| AssetsDownload.TargetFor | app/services/reverse/assets_download.py:81-111 | the target of every tier: the download URL of the path, the builder's headers with the navigation headers laid over them, the configured timeout and browser, and the selected proxies |
| AssetsDownload.Dispatch | app/services/reverse/assets_download.py:102-167 | the pass's outcome is exactly `PassResult` with `TiersTried` calls; tier 1 is a session GET with the `_single_get` arguments for impersonation and proxy, tier 2 a session GET with neither, tier 3 a urllib GET with the same URL, headers and timeout; each escalation warning carries the error of the tier it leaves |
| AssetsDownload.TryDownload | app/services/reverse/assets_download.py:79-169 | the result is exactly `TryResult`: a header-builder failure is raised before any call, otherwise the pass makes exactly the calls and warnings of `Dispatch` over `TargetFor` |
| AssetsDownload.Request | app/services/reverse/assets_download.py:68-195 | the outcome and the reports are exactly `Classify` of `TryResult`: a 200 response or an upstream failure (or a `BaseException`), with one 401 report exactly when the raised error is an upstream 401; no call after a header-builder failure, otherwise exactly `TiersTried` calls set up as in `Dispatch`, with the same warnings |
| AssetsDownload.RequestPrimaryOk | app/services/reverse/assets_download.py:137-138 | a 200 from tier 1 is what `request` returns, with no report |
| AssetsDownload.RequestAuthFailureReported | app/services/reverse/assets_download.py:180-185 | when all three tiers read a 401 answer as a response (an opener that returns error answers), the token is reported once and an upstream 401 is raised |
| AssetsDownload.RequestThreeUnauthorized | app/services/reverse/assets_download.py:153-195 | with the default opener, when all three tiers answer 401 the urllib `HTTPError` is wrapped as a 502 carrying its text and no report is filed |
| AssetsDownload.DefaultOpenerFilesNoReport | app/services/reverse/assets_download.py:180-184 | with the default opener no outcome of one pass ever files a token report |
| AssetsDownload.RequestFallbackErrorWrapped | app/services/reverse/assets_download.py:153-157 | an ordinary exception from the urllib call leaves the cascade unwrapped, and `request` raises it as an upstream 502 with its text |

## Left out

- Network work is not modelled:
  - `session.get` (curl_cffi), `urllib.request.urlopen`, and TLS and impersonation behaviour are foreign network calls, so each tier's outcome is an input;
  - a streaming response's body is never read here.
- `asyncio.to_thread` and all async scheduling: the model is sequential.
- `retry_on_status` comes from `app/services/reverse/utils/retry.py`, which is not part of this model. `request` is modelled as one pass of `_do_request`, and the retry policy is not captured. With the default opener one pass never raises an upstream 401 (`AssetsDownload.DefaultOpenerFilesNoReport`), so the 401 branch at line 180 can then be reached only through an `UpstreamException` raised outside the pass, for instance by the retry policy.
- `build_headers`, `get_config`, `TokenService.record_fail` and `logger` are external collaborators with their code not part of this model:
  - the header builder is a function input, and the configuration is an input record;
  - the end of `record_fail` is an input, and the report it receives is returned;
  - the two escalation warnings (lines 141-144 and 149-152) are returned as the list of errors they print, without the message text;
  - the error-level logs at lines 126-129, 159-162 and 188-191 are not modelled.
- `app/core/exceptions.py` is not part of this model. The `status_code` attribute that `UpstreamException` may set is left unset (`VNone`). For the exceptions raised here `StatusOf` reads `details["status"]` and never reaches the attribute.
- PyText.Lower: lower-cases ASCII letters only; Python's Unicode case mapping is not modelled.
- RequestTarget.UrlPath models `urlparse(...).path` for the paths this adapter builds: it cuts the string at the first `?` or `#`, drops a `//netloc` prefix, and cuts the last segment at its first `;`. It does not model the removal of tab, CR and LF, the stripping of leading control characters and spaces, scheme detection, or the `ValueError` for a malformed IPv6 netloc. A normalised path starts with `/`, so it never has a scheme or leading spaces.
- The `headers` dict is mutated in place and shared by all tiers. It is modelled as a map value that every call receives identically; aliasing is not modelled.
- `raw_headers` is modelled as a map, so the insertion order of its keys is not captured.
- Transport.HeaderLastOccurrenceWins: "the last occurrence wins" is stated only for names with a single spelling. With mixed spellings, a key holds the value of the latest entry of `dict(...)` whose name lowers to it. That entry need not be the latest item, and `LowerKeysLastWins` states the general rule.
- A urllib `HTTPError` raised for a non-2xx answer is one of the urllib tier's exception outcomes. The outer handler then wraps it as a 502. `Transport.DefaultUrlopen` gives the default opener's answer-to-outcome rule; the redirects it follows are not modelled, and `Answer` is the final answer.
- `Path(...)` is taken as `PurePosixPath`, the POSIX host's path flavour: only `/` separates components. On Windows `\` would also separate them.

## Findings

| source | as written | input that shows it | evidently intended | confidence | as-written member | corrected member |
|---|---|---|---|---|---|---|
| app/services/reverse/assets_download.py:153-166 | `urlopen` with the default opener raises `HTTPError` for every non-2xx answer, so the status check at line 158 only ever sees a 2xx status. A 401 from the urllib tier leaves the cascade as an ordinary exception, the handler wraps it as a 502, and the 401 branch at line 180 never runs for it | tiers 1 and 2 answer 401 and the urllib answer is also 401: `request` raises an upstream 502 with text `HTTP Error 401: <reason>` and files no `record_fail` | a non-200 answer at the urllib tier raises an `UpstreamException` with that status (lines 163-166), so three 401 answers end in one token report and an upstream 401 | medium, not executed | AssetsDownload.RequestThreeUnauthorized | AssetsDownload.RequestAuthFailureReported |
