# ThousandEyes API wrapper: a Dafny model

This project models the deterministic core of `te_wrapper`, a small Python
client for the ThousandEyes REST API (v7). The model has three parts.

- **Credential** (`te_wrapper/auth.py`). Module `Authentication` covers which
  bearer token is chosen: a truthy explicit token wins, else the value of
  `TE_API_TOKEN`, else a configuration error. It also covers the fixed
  two-entry header set built from that token.
- **API client** (`te_wrapper/api.py`). Module `Api` models `_request`:
  - URL resolution against `https://api.thousandeyes.com/v7`;
  - the choice between a JSON body (POST) and query parameters (any other
    verb);
  - response classification, in this order: unparseable body, then status
    400 reported as "Rate limit exceeded", then other 4xx/5xx, then success.

  It also models `list_tests`, `test_exists`, `create_test` and
  `get_first_agent_id`. The transport is a function from the call
  (`HttpCall`) to the `Response` it returns, so every operation is a pure
  function of its inputs. The Python exceptions each path raises are
  modelled as the `Exc` datatype, along with their message text.
- **Result model** (`te_wrapper/models.py`). Module `Models` models
  `TestResult.from_dict` as an ordered chain of fallible steps joined with
  `:-`. The steps are: the payload is a dict; it has a non-empty results
  list (from `results`, else `testResults`); the first entry is a dict; there
  is a `test` section; the test id is present; `int` accepts the id; the test
  name is truthy. After these checks the first entry is normalised into
  status, timestamp and the known metrics.

Supporting modules:

- `JsonValues`: the parsed-JSON value, Python truthiness, type names,
  `dict.get` and `int(...)`.
- `Numerals`: Python's `int(str)` and `str(int)`.
- `PyText`: `repr(str)`, ASCII `upper()` and `startswith`.
- `Wrappers`: `Option` and `Result`.

`from_dict`, `get_headers` and every client operation except `test_exists` are
Dafny functions of their inputs. `test_exists` is a method, and its
postcondition fixes its result uniquely for given inputs. So "the same input
gives the same record or the same error" and "repeated `get_headers` calls
return identical maps" hold for all of them. No separate lemma states them.

Details of the code's behaviour that the model follows:

- `raise_for_status` raises only for statuses from 400 to 599. A response
  with a status of 600 or more and a parseable body is returned as success.
- Status 400 with a parseable body is always the "Rate limit exceeded"
  `RequestException`, never the generic `HTTPError`. This is kept as written,
  although the vendor's rate-limit status is more likely 429.
- `from_dict` checks only that the test name is truthy. Any truthy JSON value
  (a number, a list) is accepted as the name, so `testName` is a JSON value
  in the record.
- `int(True) == 1`, so a boolean test id or agent id is accepted.
- The results list is taken by truthiness. A non-empty dict or string under
  `results` is chosen and then rejected as "no test results".

## Model

| member | source | states |
|---|---|---|
| Authentication.NewAuth | te_wrapper/auth.py:20-24 | a truthy explicit token is used even when the environment holds one; a falsy one (None or "") falls back to the environment value; construction fails with the configuration error exactly when neither is a non-empty string; a built credential never has an empty token |
| Authentication.GetHeaders | te_wrapper/auth.py:33-36 | exactly two entries, `Content-Type: application/hal+json` and an `Authorization` value starting with `Bearer ` |
| Authentication.HeadersCarryToken | te_wrapper/auth.py:26-36 | the authorization value is `Bearer ` followed by exactly the token (the token is read back from it), so two credentials give equal headers iff they hold the same token |
| Authentication.ExplicitTokenWins | te_wrapper/auth.py:20 | with any environment value, a non-empty explicit token yields a credential whose headers carry that token |
| Models.ResultsOf | te_wrapper/models.py:36 | the results value is `results` when truthy, else `testResults` when truthy, else the empty list |
| Models.LatestEntry | te_wrapper/models.py:33-42 | a non-dict payload fails with the type error naming its type; success means the chosen results value is a non-empty list whose first element is the returned dict |
| Models.TestSection | te_wrapper/models.py:44-46 | succeeds iff `test` is present and a dict; otherwise the invalid-test-section error |
| Models.TestIdOf | te_wrapper/models.py:48-54 | an absent or null id is "missing"; a present id that `int` refuses is "invalid", carrying the raw value; otherwise the converted integer |
| Models.TestNameOf | te_wrapper/models.py:56-58 | succeeds iff `testName` is present and truthy (absent, null, "" fail with the missing-name error) |
| Models.MetricsOf | te_wrapper/models.py:63-66 | the metric keys are exactly those of `avgLatency`, `jitter`, `loss` present in the entry, each with its value unchanged |
| Models.FromDict | te_wrapper/models.py:19-74 | a non-dict input fails with the type error before any other check; every accepted payload yields a record with a truthy name, no null status or timestamp and only known metric keys |
| Models.CheckOrder | te_wrapper/models.py:33-58 | for each of the six checks, its error is reported iff every earlier check passes and it fails; the payload is accepted iff all pass |
| Models.AcceptedFields | te_wrapper/models.py:60-74 | an accepted record's id is `int` of the test section's id, its name that section's name, status and timestamp the first entry's `status` and `date` (None when absent or null), metrics exactly its known metric keys |
| Models.LaterResultsIgnored | te_wrapper/models.py:36-40 | replacing the `results` entries after the first changes neither the record nor the error |
| Models.FallbackLaterResultsIgnored | te_wrapper/models.py:36-40 | when `results` is absent or falsy and the list is read from `testResults`, replacing its entries after the first changes neither the record nor the error |
| Models.PayloadRoundTrip | te_wrapper/models.py:19-74 | every record of the shape `from_dict` builds is rebuilt exactly from its canonical payload |
| Models.ErrorExamples | te_wrapper/test_wrapper.py:116-129 | the table-driven error payloads fail with missing id, missing name, invalid test section, no results and malformed latest entry |
| Models.InvalidIdExample | te_wrapper/test_wrapper.py:119 | a test id of "x" fails with the invalid-id error, distinct from the missing-id one |
| Models.ExtractionExample | te_wrapper/test_wrapper.py:105-114 | the extraction payload yields id 2, name "X", status "s" and its date; its unknown key `metric` is ignored, so the metrics are empty |
| Models.KnownMetricExample | te_wrapper/models.py:60-66 | a first entry holding `avgLatency` yields exactly that metric with its value, next to its status and date |
| Api.ResolveUrl | te_wrapper/api.py:43 | an endpoint starting with "http" is used verbatim, anything else becomes base URL + "/" + endpoint; the result always starts with "http" |
| Api.ResolveIdempotent | te_wrapper/api.py:43 | resolving a resolved URL changes nothing |
| PyText.PostSpellings | te_wrapper/api.py:44 | the POST branch is taken exactly for the four-letter spellings of "post" in any letter case |
| Api.Prepare | te_wrapper/api.py:43-51 | the call uses the resolved URL and the credential's headers; POST sends the params as JSON body with no query, every other verb sends them as query with no body |
| Api.Classify | te_wrapper/api.py:52-65 | an unparseable body gives the parse error with the status whatever the status; otherwise 400 gives the rate-limit error; otherwise 400-599 give the HTTP error; success exactly for a parsed body outside 400-599, returning the body unchanged |
| Api.Send | te_wrapper/api.py:25-65 | `_request` hands the prepared call to the transport once; it succeeds exactly for a parsed body with a status outside 400-599, returning that body, and otherwise fails with the parse, rate-limit or HTTP error of that response |
| Api.RateLimitIsNotHttpError | te_wrapper/api.py:59-64 | with a parsed body, status 400 is exactly the rate-limit case, the HTTP error never has status 400, and the two errors are of different classes |
| Api.StatusMessageRoundTrip | te_wrapper/api.py:55-61 | the "(status N): repr(text)" message shape gives back both the status and the raw text exactly |
| Api.ClassifiedMessagesCarryResponse | te_wrapper/api.py:52-62 | the parse-error and rate-limit messages carry the response's status code and body text |
| Api.Message | te_wrapper/api.py:55-61 | the "Error parsing JSON" and "Rate limit exceeded" messages give back the status and body text of the error they render |
| Api.WrappedMessageReadBack | te_wrapper/api.py:148-149 | the message of a wrapped error is "Failed to fetch agents: " followed by the whole message of the error it wraps, which can be read back |
| PyText.ReprRoundTrip | te_wrapper/api.py:55-57 | the `!r` rendering of the body text in a message loses nothing |
| Numerals.ParseFormatRoundTrip | te_wrapper/models.py:52 | `int` of the decimal text of an integer is that integer |
| JsonValues.ToIntDecimalText | te_wrapper/models.py:52 | `int` gives the same integer for a number and for its decimal string |
| Api.TestsOf | te_wrapper/api.py:81 | a dict body yields its `tests` value or the empty list when absent; a non-dict body raises the AttributeError of `.get` |
| Api.ListTestsFrom | te_wrapper/api.py:75-82 | a non-dict body raises the AttributeError of `.get`; a body without `tests` lists nothing; a `tests` list is listed by the comprehension over its items |
| Api.ListTests | te_wrapper/api.py:67-82 | a `GET tests` that fails propagates its error unchanged; otherwise the listing is built from the response body |
| Api.LinksOf | te_wrapper/api.py:79 | links default to [] when `_links` is absent or has no `testResults`; exactly a present non-dict `_links` fails, with the AttributeError of `.get` on its type |
| Api.EntryOf | te_wrapper/api.py:77-80 | an item gives an entry iff it is a dict with `testId` that `int` accepts, with `testName`, and with links that resolve; its key is `int` of the id and its summary keeps the name and those links |
| Api.ListingOutcome | te_wrapper/api.py:76-82 | the listing succeeds iff every item is well formed; otherwise it raises the error of the first malformed item |
| Api.ListingKeys | te_wrapper/api.py:76-82 | the listing's keys are exactly the integer ids of the items |
| Api.ListingLastWins | te_wrapper/api.py:76-82 | each id maps to the summary of the last item carrying it (a later duplicate wins) |
| Api.ListingExamples | te_wrapper/test_wrapper.py:93-101 | a missing or empty `tests` array lists nothing; the one-item example maps 10 to name "T" and no links |
| Api.TestExists | te_wrapper/api.py:98-112 | neither name nor id is a usage error (before any request); a failed listing propagates; otherwise true iff the id is a key or some entry's name equals the name |
| Api.CreateTestCall | te_wrapper/api.py:125 | `create_test` sends verb "POST" (taking the POST branch) to base URL + "/tests/http-server" with the config as JSON body, no query, and the credential's headers |
| Api.CreateTest | te_wrapper/api.py:125 | the result is the parsed response body, unchanged, exactly when that one call's response is parseable and not an error status |
| Api.FirstElement | te_wrapper/api.py:141 | on a non-empty list `agents[0]` is its first element; only lists and strings can be indexed by 0 |
| Api.FirstAgentOf | te_wrapper/api.py:138-147 | a missing or falsy `agents` value is the "no agents" error; a success is `int` of the `agentId` of a dict first entry of a truthy `agents` value |
| Api.GetFirstAgentId | te_wrapper/api.py:137-149 | every failure of the request or of the extraction is re-raised once as a RuntimeError whose message is "Failed to fetch agents: " followed by the original message; successes pass through |
| Api.AgentLookup | te_wrapper/api.py:138-147 | the `try` block: a `GET agents` that fails propagates its error unchanged; otherwise the id is read from the response body |
| Api.FirstAgentDecides | te_wrapper/api.py:139-147 | for a non-empty agents list the first entry's `agentId` alone decides the result; an empty or missing list is the wrapped "no agents" error |

## Left out

- The HTTP transport (`requests.request`, connection and timeout errors) and JSON decoding of raw bytes. A response is a record with an optional parsed body. A transport that raises instead of returning is not modelled, so the wrapping of such exceptions in `get_first_agent_id` is not covered.
- `os.getenv("TE_API_TOKEN")`: its value is a parameter of `NewAuth`.
- The `print` in `get_first_agent_id` (only its `agent.get` lookup, which raises for a non-dict agent, is kept) and `TestResult.__str__`.
- `te_wrapper/__init__.py`, `test.py` and `setup.py`: a delegating constructor, a demo script and packaging metadata.
- JSON floats: the value type has no float, so `int` truncating a float id is not modelled.
- JsonValues.ToInt: Python's `int` also accepts non-ASCII Unicode digits; here only ASCII digits (with whitespace, sign and single underscores) are accepted.
- JsonValues.ToInt: CPython 3.11 refuses decimal text of more than 4300 digits by default (`sys.set_int_max_str_digits`) with a ValueError. The model has no such limit, so a `testId` or `agentId` string that long is accepted instead of reported as invalid, and Numerals.ParseFormatRoundTrip and JsonValues.ToIntDecimalText hold for every integer rather than only those within the limit.
- Api.Message: CPython formats the invalid-literal message with `%.200R`, cutting the repr of the text at 200 characters. The model embeds the full repr, which also reaches the "Failed to fetch agents: " message.
- PyText.Upper: only ASCII letters are upper-cased. Python also maps, for example, `ſ` to `S`, so a verb such as "poſt" would take the POST branch in Python but not here.
- PyText.ReprStr: non-printable non-ASCII characters, which Python escapes as `\x..`/`\u....`, are written unescaped.
- Models.FromDict: its errors are variants carrying the offending type name or raw id. The message text, which for an invalid id includes Python's `repr` of an arbitrary JSON value, is not rendered.
- Api.Iterate: iterating a non-empty `tests` dict fails at its first key with the string-index error. The keys themselves are not enumerated, because JSON key order is not part of the model.
- Exception messages follow the wording of CPython 3.11 and requests 2.x, apart from the two `int` details above. The string-index TypeError text differs in older Pythons.
