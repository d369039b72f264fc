/** The hourly trend chart: parsing the hourly series, the choice of anchor ticks, and the
    choice between a placeholder and a bar chart. Instants are integers; the ISO-8601 reader is
    the parameter `parse`, a partial function that stands for `datetime.fromisoformat`. */
module TrendChart {
  import opened Wrappers
  import opened PyStrings
  import opened JsonValue

  type Instant = int

  /** The two aligned sequences the parser returns. */
  datatype Series = Series(instants: seq<Instant>, counts: seq<Json>)

  const BadDate := ValueError("Invalid date format in hourly data")

  /** `end_time.replace("Z", "+00:00")`: the UTC designator becomes a numeric offset. */
  function NormalizeOffset(s: string): string {
    Replace(s, "Z", "+00:00")
  }

  /** An entry carries a usable end time when it is a dict whose `end_time` is truthy. */
  predicate HasEndTime(entry: Json) {
    entry.JObject? && match Lookup(entry.fields, "end_time")
                      case Some(v) => Truthy(v)
                      case None => false
  }

  /** `entry.get("count", 0)`. */
  function CountOf(entry: Json): Json
    requires entry.JObject?
  {
    match Lookup(entry.fields, "count")
    case Some(v) => v
    case None => JInt(0)
  }

  /** What one loop iteration contributes: nothing (entry skipped), one point, or an error. */
  function EntryPoint(entry: Json, parse: string -> Option<Instant>): (r: Result<Option<(Instant, Json)>>)
    ensures !entry.JObject? ==> r == Err(AttributeError)
    ensures entry.JObject? && !HasEndTime(entry) ==> r == Ok(None)
    ensures r.Ok? && r.value.Some? ==>
      HasEndTime(entry) && Lookup(entry.fields, "end_time").value.JString?
      && parse(NormalizeOffset(Lookup(entry.fields, "end_time").value.s)) == Some(r.value.value.0)
      && r.value.value.1 == CountOf(entry)
    ensures HasEndTime(entry) ==>
      (r.Ok? <==> Lookup(entry.fields, "end_time").value.JString?
                  && parse(NormalizeOffset(Lookup(entry.fields, "end_time").value.s)).Some?)
  {
    var endTime :- PyGet(entry, "end_time", JString(""));
    if !Truthy(endTime) then Ok(None)
    else if !endTime.JString? then Err(AttributeError)
    else
      match parse(NormalizeOffset(endTime.s))
      case None => Err(BadDate)
      case Some(t) => Ok(Some((t, CountOf(entry))))
  }

  /** The loop over the entries, unrolled from the end: the first failing entry decides the error. */
  function ParseEntries(entries: seq<Json>, parse: string -> Option<Instant>): Result<Series>
    decreases |entries|
  {
    if entries == [] then Ok(Series([], []))
    else
      var acc :- ParseEntries(entries[..|entries| - 1], parse);
      var point :- EntryPoint(entries[|entries| - 1], parse);
      Ok(match point
         case None => acc
         case Some(p) => Series(acc.instants + [p.0], acc.counts + [p.1]))
  }

  /** `_parse_hourly_data` after the file is read: a falsy value gives two empty sequences; a
      value that cannot be iterated raises TypeError, which is re-raised as ValueError. */
  function ParseHourly(data: Json, parse: string -> Option<Instant>): (r: Result<Series>)
    ensures !Truthy(data) ==> r == Ok(Series([], []))
    ensures data.JArray? && Truthy(data) ==> r == ParseEntries(data.items, parse)
  {
    if !Truthy(data) then Ok(Series([], []))
    else
      match PyIter(data)
      case Err(_) => Err(BadDate)
      case Ok(entries) => ParseEntries(entries, parse)
  }

  /** The entries that contribute a point, in input order. */
  function Kept(entries: seq<Json>): (r: seq<Json>)
    ensures forall e :: e in r ==> e in entries && HasEndTime(e)
  {
    if entries == [] then []
    else
      var last := entries[|entries| - 1];
      Kept(entries[..|entries| - 1]) + (if HasEndTime(last) then [last] else [])
  }

  lemma {:induction false} ParseEntriesOkIff(entries: seq<Json>, parse: string -> Option<Instant>)
    ensures ParseEntries(entries, parse).Ok?
            <==> forall k :: 0 <= k < |entries| ==> EntryPoint(entries[k], parse).Ok?
  {
    if entries != [] {
      var init := entries[..|entries| - 1];
      ParseEntriesOkIff(init, parse);
      assert forall k :: 0 <= k < |init| ==> init[k] == entries[k];
    }
  }

  /** On success there is exactly one instant and one count per entry with a non-empty end time,
      in input order, and each is what that entry holds. */
  lemma {:induction false} ParseEntriesAligned(entries: seq<Json>, parse: string -> Option<Instant>)
    requires ParseEntries(entries, parse).Ok?
    ensures var s := ParseEntries(entries, parse).value;
      |s.instants| == |s.counts| == |Kept(entries)|
      && forall k :: 0 <= k < |s.counts| ==>
           EntryPoint(Kept(entries)[k], parse) == Ok(Some((s.instants[k], s.counts[k])))
  {
    if entries != [] {
      var init := entries[..|entries| - 1];
      var last := entries[|entries| - 1];
      ParseEntriesAligned(init, parse);
      assert EntryPoint(last, parse).Ok?;
      assert EntryPoint(last, parse).value.Some? <==> HasEndTime(last);
    }
  }

  /** A present but unparseable end time anywhere in the list fails the whole parse. */
  lemma {:induction false} BadEntryFailsAll(entries: seq<Json>, parse: string -> Option<Instant>, k: nat)
    requires k < |entries| && EntryPoint(entries[k], parse).Err?
    ensures ParseEntries(entries, parse).Err?
  {
    ParseEntriesOkIff(entries, parse);
  }

  /** An error met after the first `n` entries is the result of the whole loop. */
  lemma {:induction false} ParseEntriesErrStays(entries: seq<Json>, n: nat, parse: string -> Option<Instant>)
    requires n <= |entries| && ParseEntries(entries[..n], parse).Err?
    ensures ParseEntries(entries, parse) == ParseEntries(entries[..n], parse)
    decreases |entries| - n
  {
    if n < |entries| {
      assert entries[..n + 1][..n] == entries[..n];
      ParseEntriesErrStays(entries, n + 1, parse);
    } else {
      assert entries[..n] == entries;
    }
  }

  /** One more entry: the loop body's effect on the accumulated series. */
  lemma {:induction false} ParseEntriesStep(entries: seq<Json>, i: nat, acc: Series, parse: string -> Option<Instant>)
    requires i < |entries| && ParseEntries(entries[..i], parse) == Ok(acc)
    ensures ParseEntries(entries[..i + 1], parse)
            == match EntryPoint(entries[i], parse)
               case Err(e) => Err(e)
               case Ok(None) => Ok(acc)
               case Ok(Some(p)) => Ok(Series(acc.instants + [p.0], acc.counts + [p.1]))
  {
    assert entries[..i + 1][..i] == entries[..i];
  }

  /** `...Z` and `...+00:00` name the same instant. */
  lemma {:induction false} UtcDesignatorsAgree(s: string)
    requires 'Z' !in s
    ensures NormalizeOffset(s + "Z") == NormalizeOffset(s + "+00:00") == s + "+00:00"
  {
    ReplaceCharAppend(s, "Z", 'Z', "+00:00");
    ReplaceCharAppend(s, "+00:00", 'Z', "+00:00");
    ReplaceAbsentChar(s, 'Z', "+00:00");
    ReplaceAbsentChar("+00:00", 'Z', "+00:00");
    assert "Z"[..1] == "Z";
    assert Replace("Z"[1..], "Z", "+00:00") == [];
  }

  /** `_parse_hourly_data` after the file is read. */
  method ParseHourlyData(data: Json, parse: string -> Option<Instant>) returns (r: Result<Series>)
    ensures r == ParseHourly(data, parse)
    ensures r.Ok? ==> |r.value.instants| == |r.value.counts|
  {
    if !Truthy(data) {
      return Ok(Series([], []));
    }
    var iterated := PyIter(data);
    if iterated.Err? {
      return Err(BadDate);
    }
    r := ParseEntryLoop(iterated.value, parse);
  }

  /** The loop of `_parse_hourly_data`, appending to the two lists and leaving at the first error. */
  method ParseEntryLoop(entries: seq<Json>, parse: string -> Option<Instant>) returns (r: Result<Series>)
    ensures r == ParseEntries(entries, parse)
    ensures r.Ok? ==> |r.value.instants| == |r.value.counts|
  {
    var instants: seq<Instant> := [];
    var counts: seq<Json> := [];
    var i := 0;
    while i < |entries|
      invariant 0 <= i <= |entries|
      invariant ParseEntries(entries[..i], parse) == Ok(Series(instants, counts))
      invariant |instants| == |counts|
    {
      var entry := entries[i];
      ParseEntriesStep(entries, i, Series(instants, counts), parse);
      var endTime := PyGet(entry, "end_time", JString(""));
      if endTime.Err? {
        ParseEntriesErrStays(entries, i + 1, parse);
        return Err(endTime.error);
      }
      if !Truthy(endTime.value) {
        i := i + 1;
        continue;
      }
      if !endTime.value.JString? {
        ParseEntriesErrStays(entries, i + 1, parse);
        return Err(AttributeError);
      }
      var parsed := parse(NormalizeOffset(endTime.value.s));
      if parsed.None? {
        ParseEntriesErrStays(entries, i + 1, parse);
        return Err(BadDate);
      }
      instants := instants + [parsed.value];
      counts := counts + [CountOf(entry)];
      i := i + 1;
    }
    assert entries[..i] == entries;
    r := Ok(Series(instants, counts));
  }

  /** The anchor ticks of `_format_x_axis_labels`: first, floor-middle and last point when there
      are at least three points, first and last otherwise, none without points. */
  function AnchorIndices(n: nat): (r: seq<nat>)
    ensures n == 0 <==> r == []
    ensures forall k :: 0 <= k < |r| ==> r[k] < n
    ensures forall k :: 0 < k < |r| ==> r[k - 1] <= r[k]
    ensures n > 0 ==> r[0] == 0 && r[|r| - 1] == n - 1
    ensures |r| == if n >= 3 then 3 else if n > 0 then 2 else 0
    ensures n >= 3 ==> 2 * r[1] <= n < 2 * r[1] + 2
  {
    if n == 0 then []
    else if n >= 3 then [0, n / 2, n - 1]
    else [0, n - 1]
  }

  /** What `generate_trend_chart` draws: a text-only placeholder with the axis switched off, or
      one bar per parsed point with the anchor ticks. */
  datatype ChartPlan =
    | Placeholder(message: string)
    | Bars(xs: seq<Instant>, heights: seq<Json>, anchors: seq<nat>)

  function PlanChart(s: Series): (r: ChartPlan)
    requires |s.instants| == |s.counts|
    ensures r.Placeholder? <==> s.instants == []
    ensures r.Bars? ==> r.xs == s.instants && r.heights == s.counts && |r.anchors| >= 2
                        && forall k :: 0 <= k < |r.anchors| ==> r.anchors[k] < |r.xs|
  {
    if s.instants == [] then Placeholder("No data available for the selected time period")
    else Bars(s.instants, s.counts, AnchorIndices(|s.instants|))
  }
}
