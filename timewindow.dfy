/** The time window put into an Elasticsearch query before a search, and the hourly windows of
    the trend series. Three scripts carry `_add_time_range_to_query`:

    - `step3_retrieve_hourly_problem_numbers.py`: in place, on a copy the caller makes, with a
      half-open window (`gte` start, `lt` end);
    - `step5_download_logstash_documents.py`: on a copy it makes itself, window closed at both
      ends (`gte`, `lte`);
    - `step3_download_logstash_documents.py`: in place on the caller's query, closed window.

    All three rewrite the query the same way; `WithTimeRange` states the rewrite, the class
    `QueryData` performs it in place. Instants are integers counting seconds; their ISO text is
    the parameter `iso`, and the search request is the parameter `search`. */
module TimeWindow {
  import opened Wrappers
  import opened JsonValue

  /** The operator of the window's end. */
  const HalfOpenEnd := "lt"
  const ClosedEnd := "lte"

  /** `{"range": {"@timestamp": {"gte": start, <endOp>: end}}}`. */
  function RangeClause(start: string, end: string, endOp: string): Json {
    JObject([Member("range", JObject([Member("@timestamp",
      JObject([Member("gte", JString(start)), Member(endOp, JString(end))]))]))])
  }

  /** `{"bool": {"must": [original], "filter": [clause]}}`. */
  function WrappedQuery(original: Json, clause: Json): Json {
    JObject([Member("bool", JObject([Member("must", JArray([original])), Member("filter", JArray([clause]))]))])
  }

  /** `{"bool": {"filter": [clause]}}`. */
  function FilterOnlyQuery(clause: Json): Json {
    JObject([Member("bool", JObject([Member("filter", JArray([clause]))]))])
  }

  /** The query with the window added. `in` on a str or a list, indexing anything but a dict,
      assigning into anything but a dict and appending to anything but a list fail as they do in
      Python. */
  function WithTimeRange(q: Json, start: string, end: string, endOp: string): (r: Result<Json>)
    ensures r.Ok? ==> r.value.JObject? && q.JObject?
  {
    var clause := RangeClause(start, end, endOp);
    var hasQuery :- PyIn("query", q);
    if !hasQuery then
      if !q.JObject? then Err(TypeError)
      else Ok(JObject(Put(q.fields, "query", FilterOnlyQuery(clause))))
    else
      var query :- PyIndex(q, "query");
      var newQuery :- QueryWithClause(query, clause);
      Ok(JObject(Put(q.fields, "query", newQuery)))
  }

  /** The new value of `query`: a bool query gets the clause in its filter, any other query is
      wrapped. */
  function QueryWithClause(query: Json, clause: Json): Result<Json> {
    var hasBool :- PyIn("bool", query);
    if !hasBool then Ok(WrappedQuery(query, clause))
    else
      var b :- PyIndex(query, "bool");
      var newBool :- BoolWithClause(b, clause);
      Ok(JObject(Put(query.fields, "bool", newBool)))
  }

  /** The new value of `bool`: `filter` created empty when missing, then the clause appended. */
  function BoolWithClause(b: Json, clause: Json): Result<Json> {
    var hasFilter :- PyIn("filter", b);
    if !hasFilter && !b.JObject? then Err(TypeError)
    else
      var b := if hasFilter then b else JObject(Put(b.fields, "filter", JArray([])));
      var filter :- PyIndex(b, "filter");
      if !filter.JArray? then Err(AttributeError)
      else Ok(JObject(Put(b.fields, "filter", JArray(filter.items + [clause]))))
  }

  // ---------------------------------------------------------------------------------------
  // Properties of the rewrite

  /** A bool query gets the clause at the end of its `filter`; the other clauses of the bool
      query and the other keys of the request stay as they were. */
  lemma {:induction false} BoolQueryFilterAppended(fields: seq<Member>, qfields: seq<Member>, bfields: seq<Member>,
                                filter: seq<Json>, start: string, end: string, endOp: string, other: string)
    requires Lookup(fields, "query") == Some(JObject(qfields))
    requires Lookup(qfields, "bool") == Some(JObject(bfields))
    requires Lookup(bfields, "filter") == Some(JArray(filter))
    requires other != "filter"
    ensures var r := WithTimeRange(JObject(fields), start, end, endOp);
      && r.Ok?
      && var q := Lookup(r.value.fields, "query");
      && q.Some? && q.value.JObject?
      && var b := Lookup(q.value.fields, "bool");
      && b.Some? && b.value.JObject?
      && Lookup(b.value.fields, "filter") == Some(JArray(filter + [RangeClause(start, end, endOp)]))
      && Lookup(b.value.fields, other) == Lookup(bfields, other)
  {
    BoolQueryRewrite(fields, qfields, bfields, filter, start, end, endOp);
    PutKeepsOthers(bfields, "filter", JArray(filter + [RangeClause(start, end, endOp)]), other);
  }

  /** The request a bool query with a filter list is rewritten into. */
  lemma {:induction false} BoolQueryRewrite(fields: seq<Member>, qfields: seq<Member>, bfields: seq<Member>,
                         filter: seq<Json>, start: string, end: string, endOp: string)
    requires Lookup(fields, "query") == Some(JObject(qfields))
    requires Lookup(qfields, "bool") == Some(JObject(bfields))
    requires Lookup(bfields, "filter") == Some(JArray(filter))
    ensures WithTimeRange(JObject(fields), start, end, endOp) ==
      Ok(JObject(Put(fields, "query", JObject(Put(qfields, "bool",
        JObject(Put(bfields, "filter", JArray(filter + [RangeClause(start, end, endOp)]))))))))
  {
    var clause := RangeClause(start, end, endOp);
    var b := JObject(Put(bfields, "filter", JArray(filter + [clause])));
    assert BoolWithClause(JObject(bfields), clause) == Ok(b) by {
      assert PyIn("filter", JObject(bfields)) == Ok(true);
      assert PyIndex(JObject(bfields), "filter") == Ok(JArray(filter));
    }
    assert QueryWithClause(JObject(qfields), clause) == Ok(JObject(Put(qfields, "bool", b))) by {
      assert PyIn("bool", JObject(qfields)) == Ok(true);
      assert PyIndex(JObject(qfields), "bool") == Ok(JObject(bfields));
    }
    assert PyIn("query", JObject(fields)) == Ok(true);
    assert PyIndex(JObject(fields), "query") == Ok(JObject(qfields));
  }

  /** A bool query without `filter` gets one holding only the clause. */
  lemma {:induction false} MissingFilterCreated(fields: seq<Member>, qfields: seq<Member>, bfields: seq<Member>,
                             start: string, end: string, endOp: string)
    requires Lookup(fields, "query") == Some(JObject(qfields))
    requires Lookup(qfields, "bool") == Some(JObject(bfields))
    requires "filter" !in Keys(bfields)
    ensures var r := WithTimeRange(JObject(fields), start, end, endOp);
      && r.Ok?
      && var q := Lookup(r.value.fields, "query");
      && q.Some? && q.value.JObject?
      && var b := Lookup(q.value.fields, "bool");
      && b.Some? && b.value.JObject?
      && Lookup(b.value.fields, "filter") == Some(JArray([RangeClause(start, end, endOp)]))
  {
    var clause := RangeClause(start, end, endOp);
    var empty := Put(bfields, "filter", JArray([]));
    var b := JObject(Put(empty, "filter", JArray([clause])));
    assert BoolWithClause(JObject(bfields), clause) == Ok(b) by {
      assert PyIn("filter", JObject(bfields)) == Ok(false);
      assert PyIndex(JObject(empty), "filter") == Ok(JArray([]));
      assert [] + [clause] == [clause];
    }
    assert QueryWithClause(JObject(qfields), clause) == Ok(JObject(Put(qfields, "bool", b))) by {
      assert PyIn("bool", JObject(qfields)) == Ok(true);
      assert PyIndex(JObject(qfields), "bool") == Ok(JObject(bfields));
    }
    assert PyIn("query", JObject(fields)) == Ok(true);
    assert PyIndex(JObject(fields), "query") == Ok(JObject(qfields));
  }

  /** A query dict that is not a bool query becomes the single `must` clause of a new one. */
  lemma {:induction false} OtherQueryWrapped(fields: seq<Member>, qfields: seq<Member>, start: string, end: string, endOp: string, other: string)
    requires Lookup(fields, "query") == Some(JObject(qfields)) && "bool" !in Keys(qfields)
    requires other != "query"
    ensures var r := WithTimeRange(JObject(fields), start, end, endOp);
      && r.Ok?
      && Lookup(r.value.fields, "query") == Some(WrappedQuery(JObject(qfields), RangeClause(start, end, endOp)))
      && Lookup(r.value.fields, other) == Lookup(fields, other)
  {
    var clause := RangeClause(start, end, endOp);
    assert QueryWithClause(JObject(qfields), clause) == Ok(WrappedQuery(JObject(qfields), clause));
    PutKeepsOthers(fields, "query", WrappedQuery(JObject(qfields), clause), other);
  }

  /** A request without a query gets one that only filters by the window; its other keys stay. */
  lemma {:induction false} NoQueryFilterOnly(fields: seq<Member>, start: string, end: string, endOp: string, other: string)
    requires "query" !in Keys(fields) && other != "query"
    ensures var r := WithTimeRange(JObject(fields), start, end, endOp);
      && r.Ok?
      && Lookup(r.value.fields, "query") == Some(FilterOnlyQuery(RangeClause(start, end, endOp)))
      && Lookup(r.value.fields, other) == Lookup(fields, other)
  {
    PutKeepsOthers(fields, "query", FilterOnlyQuery(RangeClause(start, end, endOp)), other);
  }

  /** Adding a window twice adds two clauses: the rewrite does not look for an existing one. */
  lemma {:induction false} TwoCallsTwoClauses(q: Json, s1: string, e1: string, s2: string, e2: string, endOp: string)
    requires WithTimeRange(q, s1, e1, endOp).Ok?
    ensures var once := WithTimeRange(q, s1, e1, endOp).value;
      && WithTimeRange(once, s2, e2, endOp).Ok?
      && var twice := WithTimeRange(once, s2, e2, endOp).value;
      && var q2 := Lookup(twice.fields, "query").value;
      && q2.JObject? && Lookup(q2.fields, "bool").Some?
      && var b := Lookup(q2.fields, "bool").value;
      && b.JObject? && Lookup(b.fields, "filter").Some?
      && var f := Lookup(b.fields, "filter").value;
      && f.JArray? && |f.items| >= 2
      && f.items[|f.items| - 2] == RangeClause(s1, e1, endOp)
      && f.items[|f.items| - 1] == RangeClause(s2, e2, endOp)
  {
    var once := WithTimeRange(q, s1, e1, endOp).value;
    var c1 := RangeClause(s1, e1, endOp);
    var c2 := RangeClause(s2, e2, endOp);
    FilterAfterRewrite(q, s1, e1, endOp);
    var q1 := Lookup(once.fields, "query").value;
    var b1 := Lookup(q1.fields, "bool").value;
    var f1 := Lookup(b1.fields, "filter").value.items;
    assert once == JObject(once.fields) && q1 == JObject(q1.fields) && b1 == JObject(b1.fields);
    BoolQueryRewrite(once.fields, q1.fields, b1.fields, f1, s2, e2, endOp);
    var f2 := f1 + [c2];
    assert f2[|f2| - 2] == c1 && f2[|f2| - 1] == c2;
  }

  /** After a rewrite the request holds a bool query whose filter ends with the new clause. */
  lemma {:induction false} FilterAfterRewrite(q: Json, start: string, end: string, endOp: string)
    requires WithTimeRange(q, start, end, endOp).Ok?
    ensures var r := WithTimeRange(q, start, end, endOp).value;
      && Lookup(r.fields, "query").Some?
      && var q1 := Lookup(r.fields, "query").value;
      && q1.JObject? && Lookup(q1.fields, "bool").Some?
      && var b := Lookup(q1.fields, "bool").value;
      && b.JObject? && Lookup(b.fields, "filter").Some?
      && var f := Lookup(b.fields, "filter").value;
      && f.JArray? && f.items != [] && f.items[|f.items| - 1] == RangeClause(start, end, endOp)
  {
    var clause := RangeClause(start, end, endOp);
    if "query" !in Keys(q.fields) {
      assert Lookup([Member("filter", JArray([clause]))], "filter") == Some(JArray([clause]));
    } else {
      var query := PyIndex(q, "query").value;
      QueryEndsWithClause(query, clause);
    }
  }

  /** A rewritten query is a bool query whose filter ends with the clause. */
  lemma {:induction false} QueryEndsWithClause(query: Json, clause: Json)
    requires QueryWithClause(query, clause).Ok?
    ensures var q1 := QueryWithClause(query, clause).value;
      && q1.JObject? && Lookup(q1.fields, "bool").Some?
      && var b := Lookup(q1.fields, "bool").value;
      && b.JObject? && Lookup(b.fields, "filter").Some?
      && var f := Lookup(b.fields, "filter").value;
      && f.JArray? && f.items != [] && f.items[|f.items| - 1] == clause
  {
    if PyIn("bool", query).value {
      BoolEndsWithClause(PyIndex(query, "bool").value, clause);
    } else {
      var w := [Member("must", JArray([query])), Member("filter", JArray([clause]))];
      assert Lookup(w, "filter") == Some(JArray([clause]));
    }
  }

  /** A rewritten bool query has a filter list ending with the clause. */
  lemma {:induction false} BoolEndsWithClause(b: Json, clause: Json)
    requires BoolWithClause(b, clause).Ok?
    ensures var b1 := BoolWithClause(b, clause).value;
      && b1.JObject? && Lookup(b1.fields, "filter").Some?
      && var f := Lookup(b1.fields, "filter").value;
      && f.JArray? && f.items != [] && f.items[|f.items| - 1] == clause
  {
  }

  // ---------------------------------------------------------------------------------------
  // In place

  /** A request body that `_add_time_range_to_query` rewrites in place. */
  class QueryData {
    var data: Json

    constructor (data: Json)
      ensures this.data == data
    {
      this.data := data;
    }

    /** Adds the window to the request in place; on an error nothing has been changed yet. */
    method AddTimeRange(start: string, end: string, endOp: string) returns (r: Result<Json>)
      modifies this
      ensures r == WithTimeRange(old(data), start, end, endOp)
      ensures r.Ok? ==> data == r.value
      ensures r.Err? ==> data == old(data)
    {
      var clause := RangeClause(start, end, endOp);
      var hasQuery := PyIn("query", data);
      if hasQuery.Err? {
        return Err(hasQuery.error);
      }
      if !hasQuery.value {
        if !data.JObject? {
          return Err(TypeError);
        }
        data := JObject(Put(data.fields, "query", FilterOnlyQuery(clause)));
        return Ok(data);
      }
      var query := PyIndex(data, "query");
      if query.Err? {
        return Err(query.error);
      }
      var hasBool := PyIn("bool", query.value);
      if hasBool.Err? {
        return Err(hasBool.error);
      }
      if !hasBool.value {
        data := JObject(Put(data.fields, "query", WrappedQuery(query.value, clause)));
        return Ok(data);
      }
      var b := PyIndex(query.value, "bool");
      if b.Err? {
        return Err(b.error);
      }
      var hasFilter := PyIn("filter", b.value);
      if hasFilter.Err? {
        return Err(hasFilter.error);
      }
      var boolQuery := b.value;
      if !hasFilter.value {
        if !boolQuery.JObject? {
          return Err(TypeError);
        }
        boolQuery := JObject(Put(boolQuery.fields, "filter", JArray([])));
      }
      var filter := PyIndex(boolQuery, "filter");
      if filter.Err? {
        return Err(filter.error);
      }
      if !filter.value.JArray? {
        return Err(AttributeError);
      }
      boolQuery := JObject(Put(boolQuery.fields, "filter", JArray(filter.value.items + [clause])));
      data := JObject(Put(data.fields, "query", JObject(Put(query.value.fields, "bool", boolQuery))));
      r := Ok(data);
    }
  }

  // ---------------------------------------------------------------------------------------
  // Hourly windows

  const HourSeconds := 3600

  datatype HourRange = HourRange(start: int, end: int)

  /** `_generate_hour_ranges(hours_back)` at instant `now`: the `hours_back` hours before `now`,
      oldest first. */
  function HourRanges(now: int, hoursBack: int): (r: seq<HourRange>)
    ensures |r| == if hoursBack < 0 then 0 else hoursBack
  {
    var n := if hoursBack < 0 then 0 else hoursBack;
    seq(n, k requires 0 <= k < n => HourRange(now - (n - k) * HourSeconds, now - (n - 1 - k) * HourSeconds))
  }

  /** The windows are one hour each, follow each other without gap or overlap, and the last
      ends at `now`. */
  lemma {:induction false} HourRangesContiguous(now: int, hoursBack: int)
    ensures var r := HourRanges(now, hoursBack);
      && (forall k :: 0 <= k < |r| ==> r[k].end - r[k].start == HourSeconds)
      && (forall k :: 0 < k < |r| ==> r[k].start == r[k - 1].end)
      && (r != [] ==> r[|r| - 1].end == now)
  {
  }

  /** The loop of `_generate_hour_ranges`: `i` runs from `hours_back - 1` down to 0. */
  method GenerateHourRanges(now: int, hoursBack: int) returns (ranges: seq<HourRange>)
    ensures ranges == HourRanges(now, hoursBack)
  {
    ranges := [];
    var i := hoursBack - 1;
    while i >= 0
      invariant hoursBack > 0 ==> -1 <= i <= hoursBack - 1 && |ranges| == hoursBack - 1 - i
      invariant hoursBack <= 0 ==> ranges == [] && i < 0
      invariant forall k :: 0 <= k < |ranges| ==>
        ranges[k] == HourRange(now - (hoursBack - k) * HourSeconds, now - (hoursBack - 1 - k) * HourSeconds)
      decreases i
    {
      var endTime := now - i * HourSeconds;
      ranges := ranges + [HourRange(endTime - HourSeconds, endTime)];
      i := i - 1;
    }
  }

  /** One entry of the hourly series. */
  datatype HourCount = HourCount(startTime: string, endTime: string, count: Json)

  /** The count of one hour: the window added to a copy of the query, the search, and the
      `count` of its answer (0 when absent). */
  function CountFor(query: Json, range: HourRange, iso: int -> string, search: Json -> Result<Json>): Result<Json> {
    var withTime :- WithTimeRange(query, iso(range.start), iso(range.end), HalfOpenEnd);
    var response :- search(withTime);
    PyGet(response, "count", JInt(0))
  }

  /** `CountFor` as a function of the window. */
  function CountOf(query: Json, iso: int -> string, search: Json -> Result<Json>): HourRange -> Result<Json> {
    range => CountFor(query, range, iso, search)
  }

  /** The series for the windows `ranges`, given how one window is counted; the first failing
      window fails the whole run. */
  function HourlySeries(ranges: seq<HourRange>, iso: int -> string, countOf: HourRange -> Result<Json>): (r: Result<seq<HourCount>>)
    ensures r.Ok? ==> |r.value| == |ranges|
  {
    if ranges == [] then Ok([])
    else
      var done :- HourlySeries(ranges[..|ranges| - 1], iso, countOf);
      var last := ranges[|ranges| - 1];
      var count :- countOf(last);
      Ok(done + [HourCount(iso(last.start), iso(last.end), count)])
  }

  /** The series of `retrieve_hourly_problem_numbers`. */
  function HourlyCounts(query: Json, ranges: seq<HourRange>, iso: int -> string, search: Json -> Result<Json>): Result<seq<HourCount>> {
    HourlySeries(ranges, iso, CountOf(query, iso, search))
  }

  /** Entry `k` of a series holds the bounds of window `k` and its count. */
  lemma {:induction false} HourlyCountAt(ranges: seq<HourRange>, k: nat, iso: int -> string, countOf: HourRange -> Result<Json>)
    requires k < |ranges| && HourlySeries(ranges, iso, countOf).Ok?
    ensures && countOf(ranges[k]).Ok?
      && HourlySeries(ranges, iso, countOf).value[k] == HourCount(iso(ranges[k].start), iso(ranges[k].end), countOf(ranges[k]).value)
  {
    var init := ranges[..|ranges| - 1];
    if k < |init| {
      HourlyCountAt(init, k, iso, countOf);
      assert init[k] == ranges[k];
    }
  }

  /** A run fails only when some hour fails. */
  lemma {:induction false} HourlyCountsFail(ranges: seq<HourRange>, iso: int -> string, countOf: HourRange -> Result<Json>)
    requires HourlySeries(ranges, iso, countOf).Err?
    ensures exists k :: 0 <= k < |ranges| && countOf(ranges[k]).Err?
  {
    var init := ranges[..|ranges| - 1];
    if HourlySeries(init, iso, countOf).Err? {
      HourlyCountsFail(init, iso, countOf);
      var k :| 0 <= k < |init| && countOf(init[k]).Err?;
      assert init[k] == ranges[k];
    } else {
      assert countOf(ranges[|ranges| - 1]).Err?;
    }
  }

  /** Every hour that can be counted is counted: one failing hour is the only way to fail. */
  lemma {:induction false} AllHoursCounted(ranges: seq<HourRange>, iso: int -> string, countOf: HourRange -> Result<Json>)
    requires forall k :: 0 <= k < |ranges| ==> countOf(ranges[k]).Ok?
    ensures HourlySeries(ranges, iso, countOf).Ok?
  {
    if ranges != [] {
      var init := ranges[..|ranges| - 1];
      assert forall k :: 0 <= k < |init| ==> init[k] == ranges[k];
      AllHoursCounted(init, iso, countOf);
    }
  }

  lemma {:induction false} HourlyCountsErrStays(ranges: seq<HourRange>, n: nat, iso: int -> string, countOf: HourRange -> Result<Json>)
    requires n <= |ranges| && HourlySeries(ranges[..n], iso, countOf).Err?
    ensures HourlySeries(ranges, iso, countOf) == HourlySeries(ranges[..n], iso, countOf)
  {
    if n < |ranges| {
      var init := ranges[..|ranges| - 1];
      assert init[..n] == ranges[..n];
      HourlyCountsErrStays(init, n, iso, countOf);
    } else {
      assert ranges[..n] == ranges;
    }
  }

  /** One more window counted. */
  lemma {:induction false} HourlyCountsStep(ranges: seq<HourRange>, i: nat, iso: int -> string, countOf: HourRange -> Result<Json>)
    requires i < |ranges| && HourlySeries(ranges[..i], iso, countOf).Ok?
    ensures var c := countOf(ranges[i]);
      c.Err? ==> HourlySeries(ranges[..i + 1], iso, countOf) == Err(c.error)
    ensures var c := countOf(ranges[i]);
      c.Ok? ==>
        HourlySeries(ranges[..i + 1], iso, countOf) ==
        Ok(HourlySeries(ranges[..i], iso, countOf).value + [HourCount(iso(ranges[i].start), iso(ranges[i].end), c.value)])
  {
    assert ranges[..i + 1][..i] == ranges[..i];
  }

  /** The loop of `retrieve_hourly_problem_numbers`: for each window, a fresh copy of the query
      gets the window in place and is searched; the caller's query is never changed. */
  method RetrieveHourlyCounts(query: Json, ranges: seq<HourRange>, iso: int -> string, search: Json -> Result<Json>)
    returns (r: Result<seq<HourCount>>)
    ensures r == HourlyCounts(query, ranges, iso, search)
  {
    var results: seq<HourCount> := [];
    ghost var countOf := CountOf(query, iso, search);
    var i := 0;
    while i < |ranges|
      invariant 0 <= i <= |ranges|
      invariant HourlySeries(ranges[..i], iso, countOf) == Ok(results)
    {
      HourlyCountsStep(ranges, i, iso, countOf);
      var copy := new QueryData(query);
      var withTime := copy.AddTimeRange(iso(ranges[i].start), iso(ranges[i].end), HalfOpenEnd);
      var count: Result<Json>;
      if withTime.Err? {
        count := Err(withTime.error);
      } else {
        var response := search(withTime.value);
        count := if response.Err? then Err(response.error) else PyGet(response.value, "count", JInt(0));
      }
      assert count == countOf(ranges[i]);
      if count.Err? {
        HourlyCountsErrStays(ranges, i + 1, iso, countOf);
        return Err(count.error);
      }
      results := results + [HourCount(iso(ranges[i].start), iso(ranges[i].end), count.value)];
      i := i + 1;
    }
    assert ranges[..i] == ranges;
    r := Ok(results);
  }
}
