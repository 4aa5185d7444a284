/** The API client (`ThousandEyesAPI`) with the transport taken out: a call
    is described by the arguments `_request` hands to `requests.request`, and
    the transport is a function from such a call to the response it gets
    back. Every operation is then a pure function of the client, its
    arguments and the transport. */
module Api {
  import opened Wrappers
  import opened JsonValues
  import Numerals
  import PyText
  import Authentication

  const BaseUrl := "https://api.thousandeyes.com/v7"

  /** A client holds the credential it reads headers from. */
  datatype Client = Client(auth: Authentication.Auth)

  /** The arguments of one `requests.request` call. `json` is the JSON body
      and `query` the query parameters; `None` means Python's `None` (no body,
      no query). JSON `null` is Python's `None` as well, so `Some(JNull)`
      also stands for an absent body or query: `requests` sends nothing for
      either. The `Dict` type of the source's parameters keeps `null` out of
      typed callers. */
  datatype HttpCall = HttpCall(
    verb: string,
    url: string,
    headers: map<string, string>,
    json: Option<Value>,
    query: Option<Value>)

  /** What the transport reports: status code, reason phrase, the final URL,
      the body as `resp.json()` parses it (`None` when that raises) and the
      raw body text. */
  datatype Response = Response(
    status: int,
    reason: string,
    url: string,
    body: Option<Value>,
    text: string)

  type Transport = HttpCall -> Response

  /** A per-test entry of the listing. */
  datatype Summary = Summary(testName: Value, resultLinks: Value)

  /** The exceptions the client's operations raise. */
  datatype Exc =
    | JsonParseError(status: int, text: string)                 // RuntimeError
    | RateLimitExceeded(status: int, text: string)              // requests.RequestException
    | HttpStatusError(status: int, reason: string, url: string) // requests.HTTPError
    | AttributeError(typeName: string, attr: string)            // `x.get` on a non-dict
    | NotSubscriptable(typeName: string)                        // TypeError: `x[k]` on a scalar
    | ListIndexedByStr                                          // TypeError: `list["k"]`
    | StrIndexedByStr                                           // TypeError: `str["k"]`
    | NotIterable(typeName: string)                             // TypeError: `for x in scalar`
    | MissingKey(key: string)                                   // KeyError("k")
    | MissingIndex(index: int)                                  // KeyError(0) on a dict
    | IntConversion(refusal: IntError)                          // TypeError or ValueError of int()
    | MissingSelector                                           // ValueError of test_exists
    | NoAgents                                                  // RuntimeError
    | FetchAgentsFailed(inner: Exc)                             // RuntimeError

  /** The Python class of an exception. */
  function ClassName(e: Exc): string {
    match e
    case JsonParseError(_, _) => "RuntimeError"
    case RateLimitExceeded(_, _) => "RequestException"
    case HttpStatusError(_, _, _) => "HTTPError"
    case AttributeError(_, _) => "AttributeError"
    case MissingKey(_) => "KeyError"
    case MissingIndex(_) => "KeyError"
    case IntConversion(InvalidLiteral(_)) => "ValueError"
    case MissingSelector => "ValueError"
    case NoAgents => "RuntimeError"
    case FetchAgentsFailed(_) => "RuntimeError"
    case _ => "TypeError"
  }

  /** `"<title> (status <code>): <repr of text>"`, the shape of the parse and
      rate-limit messages. */
  function StatusMessage(title: string, status: int, text: string): string {
    title + " (status " + Numerals.IntToDecimal(status) + "): " + PyText.ReprStr(text)
  }

  /** The text `get_first_agent_id` puts before the message it wraps. */
  const FetchAgentsPrefix := "Failed to fetch agents: "

  /** `str(e)`, in the wording of CPython 3.11 and requests 2.x. The status
      and body text of a parse or rate-limit error can be read back from it. */
  function Message(e: Exc): (m: string)
    ensures e.JsonParseError? ==> ReadStatusMessage("Error parsing JSON", m) == Some((e.status, e.text))
    ensures e.RateLimitExceeded? ==> ReadStatusMessage("Rate limit exceeded", m) == Some((e.status, e.text))
  {
    match e
    case JsonParseError(status, text) =>
      StatusMessageRoundTrip("Error parsing JSON", status, text);
      StatusMessage("Error parsing JSON", status, text)
    case RateLimitExceeded(status, text) =>
      StatusMessageRoundTrip("Rate limit exceeded", status, text);
      StatusMessage("Rate limit exceeded", status, text)
    case HttpStatusError(status, reason, url) =>
      Numerals.IntToDecimal(status)
      + (if status < 500 then " Client Error: " else " Server Error: ")
      + reason + " for url: " + url
    case AttributeError(t, attr) => "'" + t + "' object has no attribute '" + attr + "'"
    case NotSubscriptable(t) => "'" + t + "' object is not subscriptable"
    case ListIndexedByStr => "list indices must be integers or slices, not str"
    case StrIndexedByStr => "string indices must be integers, not 'str'"
    case NotIterable(t) => "'" + t + "' object is not iterable"
    case MissingKey(k) => PyText.ReprStr(k)
    case MissingIndex(i) => Numerals.IntToDecimal(i)
    case IntConversion(IntArgType(t)) =>
      "int() argument must be a string, a bytes-like object or a real number, not '" + t + "'"
    case IntConversion(InvalidLiteral(s)) =>
      "invalid literal for int() with base 10: " + PyText.ReprStr(s)
    case MissingSelector => "Either name or test_id must be provided."
    case NoAgents => "No agents found in your account."
    case FetchAgentsFailed(cause) => FetchAgentsPrefix + Message(cause)
  }

  /** The message of a wrapped error starts with the fixed prefix, and the
      wrapped error's own message can be read back whole after it. */
  lemma WrappedMessageReadBack(e: Exc)
    ensures PyText.StartsWith(Message(FetchAgentsFailed(e)), FetchAgentsPrefix)
    ensures Message(FetchAgentsFailed(e))[|FetchAgentsPrefix|..] == Message(e)
  {
    var m := Message(FetchAgentsFailed(e));
    assert m == FetchAgentsPrefix + Message(e);
    assert m[|FetchAgentsPrefix|..] == Message(e);
  }

  // ---------------------------------------------------------------------
  // _request

  /** The URL an endpoint resolves to: absolute URLs (anything starting with
      "http") are kept, everything else is joined to the base URL. */
  function ResolveUrl(endpoint: string): (url: string)
    ensures PyText.StartsWith(url, "http")
    ensures PyText.StartsWith(endpoint, "http") ==> url == endpoint
    ensures !PyText.StartsWith(endpoint, "http") ==>
              PyText.StartsWith(url, BaseUrl + "/") && url[|BaseUrl| + 1..] == endpoint
              && url == BaseUrl + "/" + endpoint
  {
    if PyText.StartsWith(endpoint, "http") then endpoint
    else
      var url := BaseUrl + "/" + endpoint;
      assert url[..|BaseUrl| + 1] == BaseUrl + "/";
      assert url[..4] == "http";
      url
  }

  /** Resolving twice is resolving once: a resolved URL is absolute. */
  lemma ResolveIdempotent(endpoint: string)
    ensures ResolveUrl(ResolveUrl(endpoint)) == ResolveUrl(endpoint)
  {
  }

  /** The call `_request(verb, endpoint, params)` makes: POST (in any letter
      case) sends `params` as the JSON body and no query; every other verb
      sends them as the query and no body. Headers come from the credential. */
  function Prepare(client: Client, verb: string, endpoint: string, params: Option<Value>): (c: HttpCall)
    ensures c.verb == verb && c.url == ResolveUrl(endpoint)
    ensures c.headers == Authentication.GetHeaders(client.auth)
    ensures PyText.IsPost(verb) ==> c.json == params && c.query == None
    ensures !PyText.IsPost(verb) ==> c.json == None && c.query == params
  {
    var url := ResolveUrl(endpoint);
    var headers := Authentication.GetHeaders(client.auth);
    if PyText.IsPost(verb) then HttpCall(verb, url, headers, params, None)
    else HttpCall(verb, url, headers, None, params)
  }

  /** `raise_for_status()` raises for 4xx and 5xx codes only. */
  predicate ErrorStatus(status: int) {
    400 <= status < 600
  }

  /** What `_request` makes of a response, in its order: an unparseable body
      first, whatever the status; then status 400 as a rate-limit error;
      then the other error statuses; otherwise the parsed body. */
  function Classify(resp: Response): (r: Result<Value, Exc>)
    ensures resp.body.None? ==> r == Failure(JsonParseError(resp.status, resp.text))
    ensures resp.body.Some? && resp.status == 400 ==> r == Failure(RateLimitExceeded(400, resp.text))
    ensures resp.body.Some? && resp.status != 400 && ErrorStatus(resp.status) ==>
              r == Failure(HttpStatusError(resp.status, resp.reason, resp.url))
    ensures r.Success? <==> resp.body.Some? && !ErrorStatus(resp.status)
    ensures r.Success? ==> r.value == resp.body.value
  {
    match resp.body
    case None => Failure(JsonParseError(resp.status, resp.text))
    case Some(data) =>
      if resp.status == 400 then Failure(RateLimitExceeded(resp.status, resp.text))
      else if ErrorStatus(resp.status) then Failure(HttpStatusError(resp.status, resp.reason, resp.url))
      else Success(data)
  }

  /** `_request(verb, endpoint, params)`: the prepared call is handed to the
      transport once, and its response is classified. */
  function Send(client: Client, verb: string, endpoint: string, params: Option<Value>, transport: Transport): (r: Result<Value, Exc>)
    ensures var resp := transport(Prepare(client, verb, endpoint, params));
            && (r.Success? <==> resp.body.Some? && !ErrorStatus(resp.status))
            && (r.Success? ==> r.value == resp.body.value)
            && (r.Failure? ==>
                  || r.error == JsonParseError(resp.status, resp.text)
                  || r.error == RateLimitExceeded(resp.status, resp.text)
                  || r.error == HttpStatusError(resp.status, resp.reason, resp.url))
  {
    Classify(transport(Prepare(client, verb, endpoint, params)))
  }

  /** Status 400 is always reported as the rate-limit error, never as the
      HTTP error every other 4xx code gets, and the two differ in class. */
  lemma RateLimitIsNotHttpError(resp: Response)
    requires resp.body.Some?
    ensures resp.status == 400 <==> Classify(resp).Failure? && Classify(resp).error.RateLimitExceeded?
    ensures Classify(resp).Failure? && Classify(resp).error.HttpStatusError? ==>
              resp.status != 400 && ErrorStatus(resp.status)
    ensures ClassName(RateLimitExceeded(400, resp.text)) != ClassName(HttpStatusError(400, resp.reason, resp.url))
  {
  }

  // ---------------------------------------------------------------------
  // Reading the status and body back out of an error message

  /** `s` split at the first occurrence of `c`. */
  function SplitAt(s: string, c: char): Option<(string, string)> {
    if s == [] then None
    else if s[0] == c then Some(([], s[1..]))
    else
      match SplitAt(s[1..], c)
      case Some((before, after)) => Some(([s[0]] + before, after))
      case None => None
  }

  lemma {:induction false} SplitAtFirst(a: string, c: char, b: string)
    requires c !in a
    ensures SplitAt(a + [c] + b, c) == Some((a, b))
  {
    if a != [] {
      assert (a + [c] + b)[1..] == a[1..] + [c] + b;
      SplitAtFirst(a[1..], c, b);
      assert [a[0]] + a[1..] == a;
    }
  }

  /** The status and text a `StatusMessage` with the given title carries. */
  function ReadStatusMessage(title: string, msg: string): Option<(int, string)> {
    var head := title + " (status ";
    if !PyText.StartsWith(msg, head) then None
    else
      match SplitAt(msg[|head|..], ')')
      case None => None
      case Some((digits, rest)) =>
        if !PyText.StartsWith(rest, ": ") then None
        else
          match (Numerals.ParseInt(digits), PyText.Unrepr(rest[2..]))
          case (Some(status), Some(text)) => Some((status, text))
          case _ => None
  }

  /** The parse and rate-limit messages carry the HTTP status and the raw
      body text without loss. */
  lemma {:induction false} StatusMessageRoundTrip(title: string, status: int, text: string)
    ensures ReadStatusMessage(title, StatusMessage(title, status, text)) == Some((status, text))
  {
    var head := title + " (status ";
    var digits := Numerals.IntToDecimal(status);
    var tail := ": " + PyText.ReprStr(text);
    var msg := StatusMessage(title, status, text);
    StatusMessageParts(title, status, text);
    Numerals.DecimalChars(status);
    assert ')' !in digits;
    SplitAtFirst(digits, ')', tail);
    assert SplitAt(msg[|head|..], ')') == Some((digits, tail));
    assert tail[2..] == PyText.ReprStr(text);
    Numerals.ParseFormatRoundTrip(status);
    PyText.ReprRoundTrip(text);
  }

  /** The three parts of a `StatusMessage`: the title head, the status
      digits up to the closing parenthesis, and the quoted text. */
  lemma StatusMessageParts(title: string, status: int, text: string)
    ensures var head := title + " (status ";
            var msg := StatusMessage(title, status, text);
            && PyText.StartsWith(msg, head)
            && msg[|head|..] == Numerals.IntToDecimal(status) + [')'] + (": " + PyText.ReprStr(text))
  {
    var head := title + " (status ";
    var digits := Numerals.IntToDecimal(status);
    var tail := ": " + PyText.ReprStr(text);
    var msg := StatusMessage(title, status, text);
    assert msg == head + (digits + [')'] + tail);
  }

  /** Every parse or rate-limit error `_request` raises names the response's
      status code and body text in its message. */
  lemma ClassifiedMessagesCarryResponse(resp: Response)
    ensures Classify(resp).Failure? && Classify(resp).error.JsonParseError? ==>
              ReadStatusMessage("Error parsing JSON", Message(Classify(resp).error)) == Some((resp.status, resp.text))
    ensures Classify(resp).Failure? && Classify(resp).error.RateLimitExceeded? ==>
              ReadStatusMessage("Rate limit exceeded", Message(Classify(resp).error)) == Some((resp.status, resp.text))
  {
    var r := Classify(resp);
    if r.Failure? && r.error.JsonParseError? {
      assert r.error == JsonParseError(resp.status, resp.text);
      assert Message(r.error) == StatusMessage("Error parsing JSON", resp.status, resp.text);
      StatusMessageRoundTrip("Error parsing JSON", resp.status, resp.text);
    } else if r.Failure? && r.error.RateLimitExceeded? {
      assert r.error == RateLimitExceeded(resp.status, resp.text);
      assert Message(r.error) == StatusMessage("Rate limit exceeded", resp.status, resp.text);
      StatusMessageRoundTrip("Rate limit exceeded", resp.status, resp.text);
    }
  }

  // ---------------------------------------------------------------------
  // list_tests

  /** `data.get("tests", [])`. */
  function TestsOf(data: Value): (r: Result<Value, Exc>)
    ensures data.JObj? ==> r == Success(GetOr(data.fields, "tests", JList([])))
    ensures !data.JObj? ==> r == Failure(AttributeError(TypeName(data), "get"))
  {
    if data.JObj? then Success(GetOr(data.fields, "tests", JList([])))
    else Failure(AttributeError(TypeName(data), "get"))
  }

  /** The items a `for` loop visits. A string yields its characters; a dict
      yields its keys, which are strings, so a non-empty dict fails on the
      first key exactly as a string item does (`str["testId"]`). */
  function Iterate(v: Value): (r: Result<seq<Value>, Exc>)
    ensures v.JList? ==> r == Success(v.items)
    ensures r.Success? <==> v.JList? || v.JStr? || v == JObj(map[])
    ensures r.Success? && !v.JList? ==> forall i :: 0 <= i < |r.value| ==> r.value[i].JStr?
  {
    match v
    case JList(items) => Success(items)
    case JStr(s) => Success(seq(|s|, i requires 0 <= i < |s| => JStr([s[i]])))
    case JObj(fields) => if fields == map[] then Success([]) else Failure(StrIndexedByStr)
    case _ => Failure(NotIterable(TypeName(v)))
  }

  /** `item[key]` with a string key. */
  function Subscript(item: Value, key: string): (r: Result<Value, Exc>)
    ensures r.Success? <==> item.JObj? && key in item.fields
    ensures r.Success? ==> r.value == item.fields[key]
  {
    match item
    case JObj(fields) => if key in fields then Success(fields[key]) else Failure(MissingKey(key))
    case JList(_) => Failure(ListIndexedByStr)
    case JStr(_) => Failure(StrIndexedByStr)
    case _ => Failure(NotSubscriptable(TypeName(item)))
  }

  /** `item.get("_links", {}).get("testResults", [])`. */
  function LinksOf(fields: map<string, Value>): (r: Result<Value, Exc>)
    ensures "_links" !in fields ==> r == Success(JList([]))
    ensures "_links" in fields && fields["_links"].JObj? ==>
              r == Success(GetOr(fields["_links"].fields, "testResults", JList([])))
    ensures r.Failure? <==> "_links" in fields && !fields["_links"].JObj?
    ensures r.Failure? ==> r.error == AttributeError(TypeName(fields["_links"]), "get")
  {
    var links := GetOr(fields, "_links", JObj(map[]));
    if links.JObj? then Success(GetOr(links.fields, "testResults", JList([])))
    else Failure(AttributeError(TypeName(links), "get"))
  }

  /** One comprehension step: the key `int(item["testId"])` is computed
      before the value `{testName, testResultsLinks}`. */
  function EntryOf(item: Value): (r: Result<(int, Summary), Exc>)
    ensures r.Success? ==> item.JObj? && "testId" in item.fields && "testName" in item.fields
    ensures r.Success? ==> Success(r.value.0) == ToInt(item.fields["testId"])
    ensures r.Success? ==> r.value.1.testName == item.fields["testName"]
    ensures r.Success? ==> LinksOf(item.fields) == Success(r.value.1.resultLinks)
    ensures (&& item.JObj? && "testId" in item.fields && ToInt(item.fields["testId"]).Success?
             && "testName" in item.fields && LinksOf(item.fields).Success?) ==> r.Success?
  {
    var rawId :- Subscript(item, "testId");
    var id :- ToInt(rawId).MapFailure(e => IntConversion(e));
    var name :- Subscript(item, "testName");
    var links :- LinksOf(item.fields);
    Success((id, Summary(name, links)))
  }

  /** The outcome of one comprehension step. */
  type Step = Result<(int, Summary), Exc>

  /** The comprehension's steps, one per item, in order. */
  function Steps(items: seq<Value>): (steps: seq<Step>)
    ensures |steps| == |items|
    ensures forall i :: 0 <= i < |items| ==> steps[i] == EntryOf(items[i])
  {
    seq(|items|, i requires 0 <= i < |items| => EntryOf(items[i]))
  }

  /** Runs the steps in order into a dict: the first failing step raises,
      and a later entry with an id seen before replaces the earlier one. */
  function Collect(steps: seq<Step>): Result<map<int, Summary>, Exc> {
    if steps == [] then Success(map[])
    else
      var earlier :- Collect(steps[..|steps| - 1]);
      var entry :- steps[|steps| - 1];
      Success(earlier[entry.0 := entry.1])
  }

  /** The dict comprehension of `list_tests` over `items`. */
  function Listing(items: seq<Value>): Result<map<int, Summary>, Exc> {
    Collect(Steps(items))
  }

  lemma {:induction false} CollectOutcome(steps: seq<Step>)
    ensures Collect(steps).Success? <==> forall i :: 0 <= i < |steps| ==> steps[i].Success?
    ensures Collect(steps).Failure? ==>
      exists i :: 0 <= i < |steps|
        && (forall j :: 0 <= j < i ==> steps[j].Success?)
        && steps[i] == Failure(Collect(steps).error)
  {
    if steps != [] {
      var n := |steps| - 1;
      var prefix := steps[..n];
      CollectOutcome(prefix);
      assert forall j :: 0 <= j < n ==> steps[j] == prefix[j];
      if Collect(prefix).Failure? {
        var i :| 0 <= i < |prefix|
          && (forall j :: 0 <= j < i ==> prefix[j].Success?)
          && prefix[i] == Failure(Collect(prefix).error);
        assert Collect(steps) == Failure(Collect(prefix).error);
        assert steps[i] == prefix[i];
      } else if steps[n].Failure? {
        assert Collect(steps) == Failure(steps[n].error);
        assert forall j :: 0 <= j < n ==> steps[j].Success?;
      } else {
        assert Collect(steps).Success?;
      }
    }
  }

  lemma {:induction false} CollectKeys(steps: seq<Step>)
    requires forall i :: 0 <= i < |steps| ==> steps[i].Success?
    ensures Collect(steps).Success?
    ensures forall k :: k in Collect(steps).value <==>
              exists i :: 0 <= i < |steps| && steps[i].value.0 == k
  {
    CollectOutcome(steps);
    if steps != [] {
      var n := |steps| - 1;
      var prefix := steps[..n];
      CollectKeys(prefix);
      var m := Collect(steps).value;
      var last := steps[n].value;
      assert m == Collect(prefix).value[last.0 := last.1];
      forall k | k in m
        ensures exists i :: 0 <= i < |steps| && steps[i].value.0 == k
      {
        if k != last.0 {
          var i :| 0 <= i < |prefix| && prefix[i].value.0 == k;
          assert steps[i] == prefix[i];
        }
      }
      forall k | exists i :: 0 <= i < |steps| && steps[i].value.0 == k
        ensures k in m
      {
        var i :| 0 <= i < |steps| && steps[i].value.0 == k;
        if i < n {
          assert prefix[i] == steps[i];
        }
      }
    }
  }

  lemma {:induction false} CollectLastWins(steps: seq<Step>, i: nat)
    requires forall j :: 0 <= j < |steps| ==> steps[j].Success?
    requires i < |steps|
    requires forall j :: i < j < |steps| ==> steps[j].value.0 != steps[i].value.0
    ensures Collect(steps).Success?
    ensures steps[i].value.0 in Collect(steps).value
    ensures Collect(steps).value[steps[i].value.0] == steps[i].value.1
  {
    CollectOutcome(steps);
    var n := |steps| - 1;
    var prefix := steps[..n];
    CollectOutcome(prefix);
    if i < n {
      assert prefix[i] == steps[i];
      CollectLastWins(prefix, i);
    }
  }

  /** A listing succeeds exactly when every item is a well-formed entry;
      otherwise it raises the error of the first malformed one. */
  lemma ListingOutcome(items: seq<Value>)
    ensures Listing(items).Success? <==> forall i :: 0 <= i < |items| ==> EntryOf(items[i]).Success?
    ensures Listing(items).Failure? ==>
      exists i :: 0 <= i < |items|
        && (forall j :: 0 <= j < i ==> EntryOf(items[j]).Success?)
        && EntryOf(items[i]) == Failure(Listing(items).error)
  {
    CollectOutcome(Steps(items));
  }

  /** The keys of a listing are exactly the ids of its items. */
  lemma ListingKeys(items: seq<Value>)
    requires forall i :: 0 <= i < |items| ==> EntryOf(items[i]).Success?
    ensures Listing(items).Success?
    ensures forall k :: k in Listing(items).value <==>
              exists i :: 0 <= i < |items| && EntryOf(items[i]).value.0 == k
  {
    CollectKeys(Steps(items));
  }

  /** Each id of a listing maps to the summary of the last item carrying it:
      on duplicate ids the later entry wins. */
  lemma ListingLastWins(items: seq<Value>, i: nat)
    requires forall j :: 0 <= j < |items| ==> EntryOf(items[j]).Success?
    requires i < |items|
    requires forall j :: i < j < |items| ==> EntryOf(items[j]).value.0 != EntryOf(items[i]).value.0
    ensures Listing(items).Success?
    ensures EntryOf(items[i]).value.0 in Listing(items).value
    ensures Listing(items).value[EntryOf(items[i]).value.0] == EntryOf(items[i]).value.1
  {
    CollectLastWins(Steps(items), i);
  }

  /** The listing built from a `GET tests` response body: the `.get` of a
      non-dict body fails, a body without `tests` lists nothing, and a
      `tests` list is listed item by item. */
  function ListTestsFrom(data: Value): (r: Result<map<int, Summary>, Exc>)
    ensures !data.JObj? ==> r == Failure(AttributeError(TypeName(data), "get"))
    ensures data.JObj? && "tests" !in data.fields ==> r == Success(map[])
    ensures data.JObj? && "tests" in data.fields && data.fields["tests"].JList? ==>
              r == Listing(data.fields["tests"].items)
  {
    var tests :- TestsOf(data);
    var items :- Iterate(tests);
    Listing(items)
  }

  /** `list_tests()`: a failed `GET tests` propagates unchanged; otherwise
      the listing is built from the body. */
  function ListTests(client: Client, transport: Transport): (r: Result<map<int, Summary>, Exc>)
    ensures var resp := transport(Prepare(client, "GET", "tests", None));
            && (resp.body.Some? && !ErrorStatus(resp.status) ==> r == ListTestsFrom(resp.body.value))
            && (!(resp.body.Some? && !ErrorStatus(resp.status)) ==>
                  r.Failure? && r.error == Send(client, "GET", "tests", None, transport).error)
  {
    var data :- Send(client, "GET", "tests", None, transport);
    ListTestsFrom(data)
  }

  /** A body without a `tests` key, or with an empty list under it, lists
      nothing; the example listing maps id 10 to its name and no links. */
  lemma ListingExamples(fields: map<string, Value>)
    requires "tests" !in fields || fields["tests"] == JList([])
    ensures ListTestsFrom(JObj(fields)) == Success(map[])
    ensures ListTestsFrom(JObj(map["tests" := JList([JObj(map[
              "testId" := JInt(10), "testName" := JStr("T"), "_links" := JObj(map[])])])]))
         == Success(map[10 := Summary(JStr("T"), JList([]))])
  {
    var item := JObj(map["testId" := JInt(10), "testName" := JStr("T"), "_links" := JObj(map[])]);
    assert [item][..0] == [];
  }

  // ---------------------------------------------------------------------
  // test_exists

  /** What `test_exists` answers for a listing: the id is a key, or some
      entry's name equals the given name. */
  ghost predicate Matches(tests: map<int, Summary>, name: Option<string>, testId: Option<int>) {
    || (testId.Some? && testId.value in tests)
    || (name.Some? && exists k :: k in tests && tests[k].testName == JStr(name.value))
  }

  /** `test_exists(name, test_id)`: a usage error when neither is given;
      otherwise one listing, then the id, then a scan of the entries. */
  method TestExists(client: Client, name: Option<string>, testId: Option<int>, transport: Transport)
    returns (r: Result<bool, Exc>)
    ensures name.None? && testId.None? ==> r == Failure(MissingSelector)
    ensures (name.Some? || testId.Some?) && ListTests(client, transport).Failure? ==>
              r == Failure(ListTests(client, transport).error)
    ensures (name.Some? || testId.Some?) && ListTests(client, transport).Success? ==>
              r == Success(Matches(ListTests(client, transport).value, name, testId))
  {
    if name.None? && testId.None? {
      return Failure(MissingSelector);
    }
    var listing := ListTests(client, transport);
    if listing.Failure? {
      return Failure(listing.error);
    }
    var tests := listing.value;
    if testId.Some? && testId.value in tests {
      return Success(true);
    }
    if name.Some? {
      var unseen := tests.Keys;
      while unseen != {}
        invariant unseen <= tests.Keys
        invariant forall k :: k in tests && k !in unseen ==> tests[k].testName != JStr(name.value)
        decreases unseen
      {
        assert exists k :: k in unseen by {
          if forall k :: k !in unseen {
            assert false;
          }
        }
        var k :| k in unseen;
        if tests[k].testName == JStr(name.value) {
          return Success(true);
        }
        unseen := unseen - {k};
      }
    }
    return Success(false);
  }

  // ---------------------------------------------------------------------
  // create_test

  /** The call `create_test(config)` makes. */
  function CreateTestCall(client: Client, config: Value): (c: HttpCall)
    ensures c.verb == "POST" && PyText.IsPost(c.verb)
    ensures c.url == BaseUrl + "/" + "tests/http-server"
    ensures c.json == Some(config) && c.query == None
    ensures c.headers == Authentication.GetHeaders(client.auth)
  {
    PyText.PostSpellings("POST");
    var endpoint := "tests/http-server";
    assert endpoint[0] != "http"[0];
    Prepare(client, "POST", endpoint, Some(config))
  }

  /** `create_test(config)`: the classified response of its one POST. */
  function CreateTest(client: Client, config: Value, transport: Transport): (r: Result<Value, Exc>)
    ensures var resp := transport(CreateTestCall(client, config));
            && (r.Success? <==> resp.body.Some? && !ErrorStatus(resp.status))
            && (r.Success? ==> r.value == resp.body.value)
  {
    Send(client, "POST", "tests/http-server", Some(config), transport)
  }

  // ---------------------------------------------------------------------
  // get_first_agent_id

  /** `v[0]` on a truthy value: the first element of a list, the first
      character of a string, a `KeyError` for a dict (its keys are strings),
      a `TypeError` for a number. */
  function FirstElement(v: Value): (r: Result<Value, Exc>)
    requires Truthy(v)
    ensures v.JList? ==> r == Success(v.items[0])
    ensures r.Success? ==> v.JList? || v.JStr?
  {
    match v
    case JList(items) => Success(items[0])
    case JStr(s) => Success(JStr([s[0]]))
    case JObj(_) => Failure(MissingIndex(0))
    case _ => Failure(NotSubscriptable(TypeName(v)))
  }

  /** The body of the `try` in `get_first_agent_id`, on a parsed body: the
      first agent's id, or the exception the body raises. */
  function FirstAgentOf(data: Value): (r: Result<int, Exc>)
    ensures data.JObj? && !Truthy(GetOr(data.fields, "agents", JList([]))) ==> r == Failure(NoAgents)
    ensures r.Success? ==>
      && data.JObj? && "agents" in data.fields
      && Truthy(data.fields["agents"])
      && FirstElement(data.fields["agents"]).Success?
      && FirstElement(data.fields["agents"]).value.JObj?
      && ToInt(GetOr(FirstElement(data.fields["agents"]).value.fields, "agentId", JNull)) == Success(r.value)
  {
    if !data.JObj? then Failure(AttributeError(TypeName(data), "get"))
    else
      var agents := GetOr(data.fields, "agents", JList([]));
      if !Truthy(agents) then Failure(NoAgents)
      else
        var agent :- FirstElement(agents);
        if !agent.JObj? then Failure(AttributeError(TypeName(agent), "get"))
        else ToInt(GetOr(agent.fields, "agentId", JNull)).MapFailure(e => IntConversion(e))
  }

  /** The `try` block of `get_first_agent_id`: a failed `GET agents`
      propagates unchanged; otherwise the id is read from the body. */
  function AgentLookup(client: Client, transport: Transport): (r: Result<int, Exc>)
    ensures var resp := transport(Prepare(client, "GET", "agents", None));
            && (resp.body.Some? && !ErrorStatus(resp.status) ==> r == FirstAgentOf(resp.body.value))
            && (!(resp.body.Some? && !ErrorStatus(resp.status)) ==>
                  r.Failure? && r.error == Send(client, "GET", "agents", None, transport).error)
  {
    var data :- Send(client, "GET", "agents", None, transport);
    FirstAgentOf(data)
  }

  /** `get_first_agent_id()`: every failure of the `try` block comes out
      wrapped once, its message behind "Failed to fetch agents: ". */
  function GetFirstAgentId(client: Client, transport: Transport): (r: Result<int, Exc>)
    ensures r.Success? <==> AgentLookup(client, transport).Success?
    ensures r.Success? ==> r.value == AgentLookup(client, transport).value
    ensures r.Failure? ==>
              && r.error == FetchAgentsFailed(AgentLookup(client, transport).error)
              && ClassName(r.error) == "RuntimeError"
              && Message(r.error) == FetchAgentsPrefix + Message(AgentLookup(client, transport).error)
  {
    AgentLookup(client, transport).MapFailure(e => FetchAgentsFailed(e))
  }

  /** The first entry of a non-empty `agents` list decides the result, and
      an empty or missing list is the "no agents" failure, wrapped. */
  lemma {:induction false} FirstAgentDecides(client: Client, transport: Transport)
    requires Send(client, "GET", "agents", None, transport).Success?
    ensures var data := Send(client, "GET", "agents", None, transport).value;
      && (data.JObj? && "agents" in data.fields && data.fields["agents"].JList?
          && data.fields["agents"].items != [] && data.fields["agents"].items[0].JObj? ==>
            GetFirstAgentId(client, transport).MapFailure(e => ()) ==
              ToInt(GetOr(data.fields["agents"].items[0].fields, "agentId", JNull)).MapFailure(e => ()))
      && (data.JObj? && ("agents" !in data.fields || data.fields["agents"] == JList([])) ==>
            GetFirstAgentId(client, transport) == Failure(FetchAgentsFailed(NoAgents)))
  {
    var data := Send(client, "GET", "agents", None, transport).value;
    if data.JObj? && "agents" in data.fields && data.fields["agents"].JList? && data.fields["agents"].items != [] {
      assert FirstElement(data.fields["agents"]) == Success(data.fields["agents"].items[0]);
    }
  }
}
