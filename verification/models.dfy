/** The test-result record and its validating constructor
    (`TestResult.from_dict`): an ordered chain of six checks over a raw
    results payload, each with its own error, followed by normalisation of
    the first result entry. */
module Models {
  import opened Wrappers
  import opened JsonValues

  /** The metric keys copied from the latest result entry. */
  const MetricKeys: set<string> := {"avgLatency", "jitter", "loss"}

  /** A validated test result. `testName`, `status` and `timestamp` keep
      whatever JSON value the payload held: the source checks only that the
      name is truthy, and `None` stands for an absent or null field. */
  datatype TestResult = TestResult(
    testId: int,
    testName: Value,
    status: Option<Value>,
    timestamp: Option<Value>,
    metrics: map<string, Value>)

  /** The exceptions `from_dict` raises, in the order it checks for them. */
  datatype ResultError =
    | NotADict(typeName: string) // TypeError "Expected dict, got '<type>'"
    | NoTestResults              // "API response contains no test results"
    | MalformedLatest            // "Latest result entry is malformed"
    | InvalidTestSection         // "Missing or invalid 'test' section"
    | MissingTestId              // "Missing 'testId' in test metadata"
    | InvalidTestId(raw: Value)  // "Invalid 'testId': <repr of raw>"
    | MissingTestName            // "Missing 'testName' in test metadata"

  /** The shape every record `from_dict` builds has. */
  predicate Valid(r: TestResult) {
    && Truthy(r.testName)
    && r.status != Some(JNull)
    && r.timestamp != Some(JNull)
    && r.metrics.Keys <= MetricKeys
  }

  // ---------------------------------------------------------------------
  // The steps of the chain

  /** `data.get("results") or data.get("testResults") or []`. */
  function ResultsOf(fields: map<string, Value>): (v: Value)
    ensures Truthy(GetOr(fields, "results", JNull)) ==> v == fields["results"]
    ensures !Truthy(GetOr(fields, "results", JNull)) && Truthy(GetOr(fields, "testResults", JNull)) ==>
              v == fields["testResults"]
    ensures !Truthy(GetOr(fields, "results", JNull)) && !Truthy(GetOr(fields, "testResults", JNull)) ==>
              v == JList([])
  {
    var primary := GetOr(fields, "results", JNull);
    if Truthy(primary) then primary
    else
      var secondary := GetOr(fields, "testResults", JNull);
      if Truthy(secondary) then secondary else JList([])
  }

  /** Checks 1 to 3: the payload is a dict whose results list is a
      non-empty list starting with a dict; yields that first entry. */
  function LatestEntry(data: Value): (r: Result<map<string, Value>, ResultError>)
    ensures !data.JObj? ==> r == Failure(NotADict(TypeName(data)))
    ensures r.Success? ==> ResultsOf(data.fields).JList? && ResultsOf(data.fields).items != []
    ensures r.Success? ==> ResultsOf(data.fields).items[0] == JObj(r.value)
  {
    if !data.JObj? then Failure(NotADict(TypeName(data)))
    else
      var results := ResultsOf(data.fields);
      if !results.JList? || results.items == [] then Failure(NoTestResults)
      else if !results.items[0].JObj? then Failure(MalformedLatest)
      else Success(results.items[0].fields)
  }

  /** Check 4: `data.get("test")` is a dict. */
  function TestSection(fields: map<string, Value>): (r: Result<map<string, Value>, ResultError>)
    ensures r.Success? <==> "test" in fields && fields["test"].JObj?
    ensures r.Success? ==> r.value == fields["test"].fields
    ensures r.Failure? ==> r.error == InvalidTestSection
  {
    var info := GetOr(fields, "test", JNull);
    if info.JObj? then Success(info.fields) else Failure(InvalidTestSection)
  }

  /** Checks 5a and 5b: the test id is present (not absent, not null) and
      `int` accepts it. */
  function TestIdOf(info: map<string, Value>): (r: Result<int, ResultError>)
    ensures ("testId" !in info || info["testId"] == JNull) ==> r == Failure(MissingTestId)
    ensures "testId" in info && info["testId"] != JNull ==>
      match ToInt(info["testId"])
      case Success(n) => r == Success(n)
      case Failure(_) => r == Failure(InvalidTestId(info["testId"]))
  {
    var raw := GetOr(info, "testId", JNull);
    if raw == JNull then Failure(MissingTestId)
    else
      match ToInt(raw)
      case Success(n) => Success(n)
      case Failure(_) => Failure(InvalidTestId(raw))
  }

  /** Check 6: the test name is truthy. */
  function TestNameOf(info: map<string, Value>): (r: Result<Value, ResultError>)
    ensures r.Success? <==> "testName" in info && Truthy(info["testName"])
    ensures r.Success? ==> r.value == info["testName"] && Truthy(r.value)
    ensures r.Failure? ==> r.error == MissingTestName
  {
    var name := GetOr(info, "testName", JNull);
    if Truthy(name) then Success(name) else Failure(MissingTestName)
  }

  /** The metrics of a result entry: exactly the known metric keys it
      holds, with their values unchanged (a `null` value included). */
  function MetricsOf(latest: map<string, Value>): (m: map<string, Value>)
    ensures m.Keys == MetricKeys * latest.Keys
    ensures forall k :: k in m ==> m[k] == latest[k]
  {
    map k | k in MetricKeys && k in latest :: latest[k]
  }

  /** `TestResult.from_dict(data)`. */
  function FromDict(data: Value): (r: Result<TestResult, ResultError>)
    ensures !data.JObj? ==> r == Failure(NotADict(TypeName(data)))
    ensures r.Success? ==> Valid(r.value)
  {
    var latest :- LatestEntry(data);
    var info :- TestSection(data.fields);
    var id :- TestIdOf(info);
    var name :- TestNameOf(info);
    Success(TestResult(id, name, GetOpt(latest, "status"), GetOpt(latest, "date"), MetricsOf(latest)))
  }

  // ---------------------------------------------------------------------
  // The checks, stated field by field

  /** The payload's results list is a non-empty list. */
  predicate HasResults(f: map<string, Value>) {
    var chosen :=
      if "results" in f && Truthy(f["results"]) then f["results"]
      else if "testResults" in f && Truthy(f["testResults"]) then f["testResults"]
      else JNull;
    chosen.JList?
  }

  /** The first entry of the results list (of a payload that has results). */
  function First(f: map<string, Value>): Value
    requires HasResults(f)
  {
    if "results" in f && Truthy(f["results"]) then f["results"].items[0]
    else f["testResults"].items[0]
  }

  predicate HasTestSection(f: map<string, Value>) {
    "test" in f && f["test"].JObj?
  }

  predicate HasTestId(info: map<string, Value>) {
    "testId" in info && info["testId"] != JNull
  }

  predicate HasTestName(info: map<string, Value>) {
    "testName" in info && Truthy(info["testName"])
  }

  /** Which error wins: each error is reported exactly when every earlier
      check passes and its own check fails, and the payload is accepted
      exactly when all six checks pass. */
  lemma {:induction false} CheckOrder(data: Value)
    ensures FromDict(data).Failure? && FromDict(data).error.NotADict? <==> !data.JObj?
    ensures FromDict(data) == Failure(NoTestResults) <==>
      data.JObj? && !HasResults(data.fields)
    ensures FromDict(data) == Failure(MalformedLatest) <==>
      data.JObj? && HasResults(data.fields) && !First(data.fields).JObj?
    ensures FromDict(data) == Failure(InvalidTestSection) <==>
      data.JObj? && HasResults(data.fields) && First(data.fields).JObj?
      && !HasTestSection(data.fields)
    ensures FromDict(data) == Failure(MissingTestId) <==>
      data.JObj? && HasResults(data.fields) && First(data.fields).JObj?
      && HasTestSection(data.fields) && !HasTestId(data.fields["test"].fields)
    ensures FromDict(data).Failure? && FromDict(data).error.InvalidTestId? <==>
      data.JObj? && HasResults(data.fields) && First(data.fields).JObj?
      && HasTestSection(data.fields) && HasTestId(data.fields["test"].fields)
      && ToInt(data.fields["test"].fields["testId"]).Failure?
    ensures FromDict(data) == Failure(MissingTestName) <==>
      data.JObj? && HasResults(data.fields) && First(data.fields).JObj?
      && HasTestSection(data.fields) && HasTestId(data.fields["test"].fields)
      && ToInt(data.fields["test"].fields["testId"]).Success?
      && !HasTestName(data.fields["test"].fields)
    ensures FromDict(data).Success? <==>
      data.JObj? && HasResults(data.fields) && First(data.fields).JObj?
      && HasTestSection(data.fields) && HasTestId(data.fields["test"].fields)
      && ToInt(data.fields["test"].fields["testId"]).Success?
      && HasTestName(data.fields["test"].fields)
  {
    if data.JObj? {
      var f := data.fields;
      var results := ResultsOf(f);
      // A truthy list is a non-empty one, so the chosen value is a
      // non-empty list exactly when HasResults holds.
      assert results.JList? && results.items != [] <==> HasResults(f);
      if HasResults(f) {
        assert results.items[0] == First(f);
      }
    }
  }

  /** What an accepted payload becomes: the id and name of its test section,
      and status, timestamp and metrics of its first result entry. */
  lemma {:induction false} AcceptedFields(data: Value)
    ensures FromDict(data).Success? ==>
              data.JObj? && HasResults(data.fields) && First(data.fields).JObj?
              && HasTestSection(data.fields)
    ensures FromDict(data).Success? ==>
            var r := FromDict(data).value;
            var info := data.fields["test"].fields;
            var latest := First(data.fields).fields;
            && Success(r.testId) == ToInt(info["testId"])
            && r.testName == info["testName"]
            && r.status == GetOpt(latest, "status")
            && r.timestamp == GetOpt(latest, "date")
            && r.metrics.Keys == MetricKeys * latest.Keys
            && (forall k :: k in r.metrics ==> r.metrics[k] == latest[k])
  {
    if FromDict(data).Success? {
      CheckOrder(data);
      var f := data.fields;
      assert ResultsOf(f).items[0] == First(f);
    }
  }

  /** Only the first result entry is read: replacing the entries after it
      changes nothing. */
  lemma {:induction false} LaterResultsIgnored(
    f: map<string, Value>, latest: Value, rest: seq<Value>, other: seq<Value>)
    ensures FromDict(JObj(f["results" := JList([latest] + rest)]))
         == FromDict(JObj(f["results" := JList([latest] + other)]))
  {
    var a := f["results" := JList([latest] + rest)];
    var b := f["results" := JList([latest] + other)];
    assert ResultsOf(a).items[0] == latest == ResultsOf(b).items[0];
    assert a - {"results"} == b - {"results"};
    assert "test" in a <==> "test" in b;
    assert "test" in a ==> a["test"] == b["test"];
  }

  /** The same holds for the `testResults` list read when `results` is
      absent or falsy. */
  lemma {:induction false} FallbackLaterResultsIgnored(
    f: map<string, Value>, latest: Value, rest: seq<Value>, other: seq<Value>)
    requires "results" !in f || !Truthy(f["results"])
    ensures FromDict(JObj(f["testResults" := JList([latest] + rest)]))
         == FromDict(JObj(f["testResults" := JList([latest] + other)]))
  {
    var a := f["testResults" := JList([latest] + rest)];
    var b := f["testResults" := JList([latest] + other)];
    assert ResultsOf(a).items[0] == latest == ResultsOf(b).items[0];
    assert a - {"testResults"} == b - {"testResults"};
    assert "test" in a <==> "test" in b;
    assert "test" in a ==> a["test"] == b["test"];
  }

  // ---------------------------------------------------------------------
  // A canonical payload for every record

  /** The payload `{"test": {...}, "results": [latest]}` that describes `r`. */
  function ToPayload(r: TestResult): Value {
    var latest := r.metrics
      + (if r.status.Some? then map["status" := r.status.value] else map[])
      + (if r.timestamp.Some? then map["date" := r.timestamp.value] else map[]);
    JObj(map[
      "test" := JObj(map["testId" := JInt(r.testId), "testName" := r.testName]),
      "results" := JList([JObj(latest)])])
  }

  /** Every valid record is what `from_dict` makes of its canonical payload. */
  lemma {:induction false} PayloadRoundTrip(r: TestResult)
    requires Valid(r)
    ensures FromDict(ToPayload(r)) == Success(r)
  {
    var p := ToPayload(r);
    var latest := p.fields["results"].items[0].fields;
    assert GetOpt(latest, "status") == r.status;
    assert GetOpt(latest, "date") == r.timestamp;
    assert MetricsOf(latest) == r.metrics;
  }

  /** The payloads of the table-driven error cases. */
  lemma ErrorExamples()
    ensures FromDict(JObj(map["test" := JObj(map[]), "results" := JList([JObj(map[])])]))
         == Failure(MissingTestId)
    ensures FromDict(JObj(map["test" := JObj(map["testId" := JInt(1)]),
                              "results" := JList([JObj(map[])])]))
         == Failure(MissingTestName)
    ensures FromDict(JObj(map["results" := JList([JObj(map[])])]))
         == Failure(InvalidTestSection)
    ensures FromDict(JObj(map["test" := JObj(map["testId" := JInt(1), "testName" := JStr("Z")])]))
         == Failure(NoTestResults)
    ensures FromDict(JObj(map["test" := JObj(map["testId" := JInt(1), "testName" := JStr("Z")]),
                              "results" := JList([JStr("bad")])]))
         == Failure(MalformedLatest)
  {
  }

  /** The table-driven case of a test id `int` refuses. */
  lemma InvalidIdExample()
    ensures FromDict(JObj(map["test" := JObj(map["testId" := JStr("x")]),
                              "results" := JList([JObj(map[])])]))
         == Failure(InvalidTestId(JStr("x")))
  {
    var info := map["testId" := JStr("x")];
    var data := JObj(map["test" := JObj(info), "results" := JList([JObj(map[])])]);
    assert LatestEntry(data) == Success(map[]);
    assert TestSection(data.fields) == Success(info);
    Numerals.NoDigitNoInt("x");
    assert ToInt(JStr("x")) == Failure(InvalidLiteral("x"));
    assert TestIdOf(info) == Failure(InvalidTestId(JStr("x")));
  }

  /** The extraction example: id, name and status of the first entry; its
      unknown key `metric` is not a metric, so the metrics are empty. */
  lemma ExtractionExample()
    ensures FromDict(JObj(map["test" := JObj(map["testId" := JInt(2), "testName" := JStr("X")]),
                              "results" := JList([JObj(map["status" := JStr("s"),
                                                           "date" := JStr("2025-04-29T00:00:00Z"),
                                                           "metric" := JInt(5)])])]))
         == Success(TestResult(2, JStr("X"), Some(JStr("s")), Some(JStr("2025-04-29T00:00:00Z")), map[]))
  {
    var latest := map["status" := JStr("s"), "date" := JStr("2025-04-29T00:00:00Z"), "metric" := JInt(5)];
    assert MetricsOf(latest) == map[];
  }

  /** A known metric of the first entry is kept with its value. */
  lemma KnownMetricExample()
    ensures FromDict(JObj(map["test" := JObj(map["testId" := JInt(2), "testName" := JStr("X")]),
                              "results" := JList([JObj(map["status" := JStr("s"), "date" := JStr("D"),
                                                           "avgLatency" := JInt(5)])])]))
         == Success(TestResult(2, JStr("X"), Some(JStr("s")), Some(JStr("D")),
                               map["avgLatency" := JInt(5)]))
  {
    var latest := map["status" := JStr("s"), "date" := JStr("D"), "avgLatency" := JInt(5)];
    assert MetricsOf(latest) == map["avgLatency" := JInt(5)];
  }
}
