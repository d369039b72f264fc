/** The query helpers of the report step (`step9_generate_email_bodies.py`): the JSON to RISON
    serialiser used in Kibana URLs, the recursive Elasticsearch-query to Lucene translator, and
    the extraction of `should` / `must_not` clauses. Every Python exception the code can raise
    on an unexpected shape is an `Err`. */
module KibanaQuery {
  import opened Wrappers
  import opened PyStrings
  import opened JsonValue

  // ---------------------------------------------------------------------------------------
  // RISON

  /** `s.replace("'", "\\'")`. */
  function EscapeQuotes(s: string): string {
    Replace(s, "'", "\\'")
  }

  /** Reads back an escaped string body: a backslash followed by a quote stands for the quote. */
  function UnescapeQuotes(e: string): string
    decreases |e|
  {
    if e == [] then []
    else if |e| >= 2 && e[0] == '\\' && e[1] == '\'' then "'" + UnescapeQuotes(e[2..])
    else [e[0]] + UnescapeQuotes(e[1..])
  }

  /** `json_to_kibana_url_params`. Booleans are checked before numbers, so they never come out as
      integers. */
  function Rison(j: Json): (r: string)
    ensures j.JNull? ==> r == "!n"
    ensures j.JBool? ==> r == if j.b then "!t" else "!f"
    ensures j.JString? ==> r == "'" + EscapeQuotes(j.s) + "'"
    ensures j.JObject? ==> |r| >= 2 && r[0] == '(' && r[|r| - 1] == ')'
    ensures j.JArray? ==> |r| >= 3 && r[..2] == "!(" && r[|r| - 1] == ')'
  {
    match j
    case JObject(fields) =>
      "(" + Join(",", seq(|fields|, k requires 0 <= k < |fields| => fields[k].key + ":" + Rison(fields[k].value))) + ")"
    case JArray(items) =>
      "!(" + Join(",", seq(|items|, k requires 0 <= k < |items| => Rison(items[k]))) + ")"
    case JBool(b) => if b then "!t" else "!f"
    case JInt(i) => IntToString(i)
    case JString(s) => "'" + EscapeQuotes(s) + "'"
    case JNull => "!n"
  }

  lemma {:induction false} EscapeNeverStartsWithQuote(s: string)
    ensures EscapeQuotes(s) == [] || EscapeQuotes(s)[0] != '\''
  {
    if |s| >= 1 {
      assert s[..1] == [s[0]];
    }
  }

  /** The string quoting is unambiguous: unescaping gives the original string back. */
  lemma {:induction false} EscapeRoundTrip(s: string)
    ensures UnescapeQuotes(EscapeQuotes(s)) == s
  {
    if s != [] {
      assert s[..1] == [s[0]];
      var rest := EscapeQuotes(s[1..]);
      EscapeRoundTrip(s[1..]);
      if s[0] == '\'' {
        var e := "\\'" + rest;
        assert e[2..] == rest;
      } else {
        var e := [s[0]] + rest;
        assert e[1..] == rest;
        if s[0] == '\\' {
          EscapeNeverStartsWithQuote(s[1..]);
        }
      }
      assert s == [s[0]] + s[1..];
    }
  }

  /** Inside a RISON string every quote is escaped, so the closing quote is the first bare one. */
  lemma {:induction false} EscapedQuotesArePreceded(s: string, k: nat)
    requires k < |EscapeQuotes(s)| && EscapeQuotes(s)[k] == '\''
    ensures k > 0 && EscapeQuotes(s)[k - 1] == '\\'
  {
    assert s != [];
    assert s[..1] == [s[0]];
    var rest := EscapeQuotes(s[1..]);
    if s[0] == '\'' {
      if k >= 2 {
        EscapedQuotesArePreceded(s[1..], k - 2);
      }
    } else {
      assert EscapeQuotes(s) == [s[0]] + rest;
      EscapedQuotesArePreceded(s[1..], k - 1);
    }
  }

  // ---------------------------------------------------------------------------------------
  // Elasticsearch query to Lucene

  /** The order in which `_process_query_node` tries the query types. */
  const QueryTypes: seq<string> := ["bool", "term", "terms", "match", "range", "wildcard", "exists", "query_string"]

  /** The first entry of `order` that is among `keys`. */
  function FirstPresent(keys: seq<string>, order: seq<string>): (r: Option<string>)
    ensures r.None? <==> forall k :: 0 <= k < |order| ==> order[k] !in keys
    ensures r.Some? ==> r.value in keys && (exists k :: 0 <= k < |order| && order[k] == r.value
                                                        && forall j :: 0 <= j < k ==> order[j] !in keys)
  {
    if order == [] then None
    else if order[0] in keys then Some(order[0])
    else
      var r := FirstPresent(keys, order[1..]);
      if r.Some? then
        var k :| 0 <= k < |order[1..]| && order[1..][k] == r.value && forall j :: 0 <= j < k ==> order[1..][j] !in keys;
        assert order[k + 1] == r.value;
        r
      else r
  }

  /** A string value is double-quoted; any other value is shown with `str`. */
  function Quoted(v: Json): string {
    if v.JString? then "\"" + v.s + "\"" else PyStr(v)
  }

  /** `list(q.keys())[0]` and its value, for a truthy `q`; only dicts have `keys`. */
  function FirstField(q: Json): (r: Result<Member>)
    requires Truthy(q)
    ensures r.Ok? <==> q.JObject?
    ensures r.Ok? ==> r.value == q.fields[0]
  {
    if q.JObject? then Ok(q.fields[0]) else Err(AttributeError)
  }

  /** The term, match and wildcard handlers: `field:value` from the first field, where the value
      is the inner dict's `valueKey` entry (the inner value itself when absent). */
  function LeafQuery(q: Json, valueKey: string, quote: bool): Result<string> {
    if !Truthy(q) then Ok("")
    else
      var m :- FirstField(q);
      var v :- PyGet(m.value, valueKey, m.value);
      Ok(m.key + ":" + (if quote then Quoted(v) else PyStr(v)))
  }

  /** `_process_terms_query`: `(f:v1 OR f:v2 …)`, or `""` when there is nothing to list. */
  function TermsQuery(q: Json): Result<string> {
    if !Truthy(q) then Ok("")
    else
      var m :- FirstField(q);
      if !Truthy(m.value) then Ok("")
      else
        var values :- PyIter(m.value);
        Ok("(" + Join(" OR ", TermsAlternatives(m.key, values)) + ")")
  }

  function TermsAlternatives(field: string, values: seq<Json>): (r: seq<string>)
    ensures |r| == |values| && forall k :: 0 <= k < |values| ==> r[k] == field + ":" + Quoted(values[k])
  {
    if values == [] then [] else TermsAlternatives(field, values[..|values| - 1]) + [field + ":" + Quoted(values[|values| - 1])]
  }

  /** `if key in conditions: parts.append(f"{field}:{op}{conditions[key]}")`. */
  function RangeBound(conditions: Json, key: string, field: string, op: string): Result<seq<string>> {
    var present :- PyIn(key, conditions);
    if !present then Ok([])
    else
      var v :- PyIndex(conditions, key);
      Ok([field + ":" + op + PyStr(v)])
  }

  /** `_process_range_query`: the present bounds in the order gt, gte, lt, lte. */
  function RangeQuery(q: Json): Result<string> {
    if !Truthy(q) then Ok("")
    else
      var m :- FirstField(q);
      var gt :- RangeBound(m.value, "gt", m.key, ">");
      var gte :- RangeBound(m.value, "gte", m.key, ">=");
      var lt :- RangeBound(m.value, "lt", m.key, "<");
      var lte :- RangeBound(m.value, "lte", m.key, "<=");
      Ok("(" + Join(" AND ", gt + gte + lt + lte) + ")")
  }

  /** `_process_exists_query`. */
  function ExistsQuery(q: Json): Result<string> {
    var field :- PyGet(q, "field", JString(""));
    Ok(if Truthy(field) then "_exists_:" + PyStr(field) else "")
  }

  /** `_process_query_string`: `query.get("query")`, `""` when that is None. */
  function QueryStringQuery(q: Json): Result<string> {
    var v :- PyGet(q, "query", JNull);
    Ok(if v.JNull? then "" else PyStr(v))
  }

  /** `_process_query_node`: a non-dict is shown with `str`; a dict goes to the handler of its
      first query type in `QueryTypes` order, and to `""` when it has none. */
  function ProcessNode(node: Json): (r: Result<string>)
    ensures !node.JObject? ==> r == Ok(PyStr(node))
    ensures node.JObject? && FirstPresent(Keys(node.fields), QueryTypes).None? ==> r == Ok("")
    decreases node, 0, 0
  {
    if !node.JObject? then Ok(PyStr(node))
    else
      match FirstPresent(Keys(node.fields), QueryTypes)
      case None => Ok("")
      case Some(kind) =>
        var v := Lookup(node.fields, kind).value;
        Handle(kind, v)
  }

  function Handle(kind: string, v: Json): Result<string>
    decreases v, 4, 0
  {
    if kind == "bool" then ProcessBool(v)
    else if kind == "term" then LeafQuery(v, "value", true)
    else if kind == "terms" then TermsQuery(v)
    else if kind == "match" then LeafQuery(v, "query", true)
    else if kind == "range" then RangeQuery(v)
    else if kind == "wildcard" then LeafQuery(v, "value", false)
    else if kind == "exists" then ExistsQuery(v)
    else QueryStringQuery(v)
  }

  /** One clause type of a bool query: its translation, or `""` when the key is absent. */
  function BoolPart(b: Json, key: string, op: string): Result<string>
    decreases b, 3, 0
  {
    var present :- PyIn(key, b);
    if !present then Ok("")
    else
      var clauses :- PyIndex(b, key);
      ProcessClause(clauses, op)
  }

  /** `_process_bool_query`: must, should and must_not, each non-empty part parenthesised
      (must_not as `(NOT (…))`), joined with ` AND `. */
  function ProcessBool(b: Json): Result<string>
    decreases b, 3, 1
  {
    var must :- BoolPart(b, "must", "AND");
    var should :- BoolPart(b, "should", "OR");
    var mustNot :- BoolPart(b, "must_not", "OR");
    Ok(Join(" AND ", BoolParts(must, should, mustNot)))
  }

  function BoolParts(must: string, should: string, mustNot: string): (r: seq<string>)
    ensures |r| <= 3 && (r == [] <==> must == [] && should == [] && mustNot == [])
  {
    (if must != [] then ["(" + must + ")"] else [])
    + (if should != [] then ["(" + should + ")"] else [])
    + (if mustNot != [] then ["(NOT (" + mustNot + "))"] else [])
  }

  /** `_process_bool_clause`: a list joins its non-empty translations with ` op `; anything
      else is translated as a single node. */
  function ProcessClause(c: Json, op: string): Result<string>
    decreases c, 2, 0
  {
    if c.JArray? then
      var parts :- ProcessItems(c, 0);
      Ok(Join(" " + op + " ", NonEmpty(parts)))
    else ProcessNode(c)
  }

  function ProcessItems(c: Json, k: nat): (r: Result<seq<string>>)
    requires c.JArray?
    ensures r.Ok? ==> |r.value| == |c.items| - k || k > |c.items|
    decreases c, 1, |c.items| - k
  {
    if k >= |c.items| then Ok([])
    else
      var first :- ProcessNode(c.items[k]);
      var rest :- ProcessItems(c, k + 1);
      Ok([first] + rest)
  }

  function NonEmpty(parts: seq<string>): (r: seq<string>)
    ensures forall k :: 0 <= k < |r| ==> r[k] != [] && r[k] in parts
    ensures forall p :: p in parts && p != [] ==> p in r
  {
    if parts == [] then []
    else (if parts[0] != [] then [parts[0]] else []) + NonEmpty(parts[1..])
  }

  /** `elasticsearch_query_to_lucene`: a top-level `query` key is unwrapped first. */
  function ToLucene(queryData: Json): (r: Result<string>)
    ensures queryData.JObject? && "query" !in Keys(queryData.fields) ==> r == ProcessNode(queryData)
    ensures queryData.JObject? && "query" in Keys(queryData.fields)
            ==> r == ProcessNode(Lookup(queryData.fields, "query").value)
  {
    var wrapped :- PyIn("query", queryData);
    if wrapped then
      var inner :- PyIndex(queryData, "query");
      ProcessNode(inner)
    else ProcessNode(queryData)
  }

  /** The term, match and wildcard handlers read the first field only. */
  lemma {:induction false} LeafReadsFirstFieldOnly(m: Member, rest1: seq<Member>, rest2: seq<Member>, valueKey: string, quote: bool)
    ensures LeafQuery(JObject([m] + rest1), valueKey, quote) == LeafQuery(JObject([m] + rest2), valueKey, quote)
    ensures TermsQuery(JObject([m] + rest1)) == TermsQuery(JObject([m] + rest2))
    ensures RangeQuery(JObject([m] + rest1)) == RangeQuery(JObject([m] + rest2))
  {
    assert ([m] + rest1)[0] == m && ([m] + rest2)[0] == m;
  }

  /** A bool query with no clause translates to the empty string; so does one whose clause lists
      are empty. */
  lemma {:induction false} EmptyBoolQuery(b: Json)
    requires b.JObject?
    requires forall key :: key in ["must", "should", "must_not"] && key in Keys(b.fields)
                           ==> Lookup(b.fields, key) == Some(JArray([]))
    ensures ProcessBool(b) == Ok("")
  {
    assert "must" in ["must", "should", "must_not"];
    assert "should" in ["must", "should", "must_not"];
    assert "must_not" in ["must", "should", "must_not"];
    var e := JArray([]);
    assert ProcessItems(e, 0) == Ok([]);
    assert NonEmpty([]) == [];
    assert ProcessClause(e, "AND") == Ok("") && ProcessClause(e, "OR") == Ok("");
    assert BoolPart(b, "must", "AND") == Ok("");
    assert BoolPart(b, "should", "OR") == Ok("");
    assert BoolPart(b, "must_not", "OR") == Ok("");
    assert BoolParts("", "", "") == [];
  }

  /** Clause lists drop the clauses that translate to nothing. */
  lemma {:induction false} EmptyClausesDropped(items: seq<Json>, op: string)
    requires forall k :: 0 <= k < |items| ==> ProcessNode(items[k]) == Ok("")
    ensures ProcessClause(JArray(items), op) == Ok("")
  {
    ItemsAllEmpty(JArray(items), 0);
    NonEmptyOfBlanks(ProcessItems(JArray(items), 0).value);
  }

  lemma {:induction false} ItemsAllEmpty(c: Json, k: nat)
    requires c.JArray? && forall j :: 0 <= j < |c.items| ==> ProcessNode(c.items[j]) == Ok("")
    ensures ProcessItems(c, k).Ok? && forall p :: p in ProcessItems(c, k).value ==> p == []
    decreases |c.items| - k
  {
    if k < |c.items| {
      ItemsAllEmpty(c, k + 1);
    }
  }

  lemma {:induction false} NonEmptyOfBlanks(parts: seq<string>)
    requires forall p :: p in parts ==> p == []
    ensures NonEmpty(parts) == []
  {
    if parts != [] {
      assert forall p :: p in parts[1..] ==> p in parts;
      NonEmptyOfBlanks(parts[1..]);
      assert parts[0] in parts;
    }
  }

  /** A term (match) query whose first field holds a dict with a string under `value`
      (`query`) gives `field:"s"`, the string wrapped in double quotes and not escaped. */
  lemma {:induction false} QuotedLeaf(fields: seq<Member>, inner: seq<Member>, valueKey: string, s: string)
    requires fields != [] && fields[0].value == JObject(inner)
    requires Lookup(inner, valueKey) == Some(JString(s))
    ensures LeafQuery(JObject(fields), valueKey, true) == Ok(fields[0].key + ":\"" + s + "\"")
  {
    assert valueKey in Keys(inner);
    var v := PyGet(JObject(inner), valueKey, JObject(inner));
    assert v == Ok(JString(s));
    var f := fields[0].key;
    assert f + ":" + ("\"" + s + "\"") == f + ":\"" + s + "\"";
  }

  /** An exists query gives `_exists_:f` for a non-empty string `f` under `field`, and `""`
      when the key is missing. */
  lemma {:induction false} ExistsShape(fields: seq<Member>, name: string)
    ensures Lookup(fields, "field") == Some(JString(name)) ==>
              ExistsQuery(JObject(fields)) == Ok(if name == [] then "" else "_exists_:" + name)
    ensures Lookup(fields, "field").None? ==> ExistsQuery(JObject(fields)) == Ok("")
  {
    if Lookup(fields, "field") == Some(JString(name)) {
      assert "field" in Keys(fields);
    }
  }

  /** The loop of `_process_terms_query`. */
  method TermsQueryLoop(q: Json) returns (r: Result<string>)
    ensures r == TermsQuery(q)
  {
    if !Truthy(q) {
      return Ok("");
    }
    if !q.JObject? {
      return Err(AttributeError);
    }
    var field := q.fields[0].key;
    var values := q.fields[0].value;
    if !Truthy(values) {
      return Ok("");
    }
    var iterated := PyIter(values);
    if iterated.Err? {
      return Err(iterated.error);
    }
    var formatted := FormatTerms(field, iterated.value);
    r := Ok("(" + Join(" OR ", formatted) + ")");
  }

  /** The list comprehension of `_process_terms_query`, one alternative per value. */
  method FormatTerms(field: string, values: seq<Json>) returns (formatted: seq<string>)
    ensures formatted == TermsAlternatives(field, values)
  {
    formatted := [];
    var i := 0;
    while i < |values|
      invariant 0 <= i <= |values|
      invariant |formatted| == i
      invariant forall k :: 0 <= k < i ==> formatted[k] == field + ":" + Quoted(values[k])
    {
      var value := values[i];
      if value.JString? {
        formatted := formatted + [field + ":\"" + value.s + "\""];
      } else {
        formatted := formatted + [field + ":" + PyStr(value)];
      }
      i := i + 1;
    }
  }

  // ---------------------------------------------------------------------------------------
  // Extraction of should / must_not clauses

  /** `"query" in d and "bool" in d["query"] and key in d["query"]["bool"]`, then the clauses. */
  function ClausePath(d: Json, key: string): Result<Option<Json>> {
    var hasQuery :- PyIn("query", d);
    if !hasQuery then Ok(None)
    else
      var query :- PyIndex(d, "query");
      var hasBool :- PyIn("bool", query);
      if !hasBool then Ok(None)
      else
        var b :- PyIndex(query, "bool");
        var hasKey :- PyIn(key, b);
        if !hasKey then Ok(None)
        else
          var clauses :- PyIndex(b, key);
          Ok(Some(clauses))
  }

  /** `for field, value in m.items(): parts.append(f'{field}:"{value}"')`. */
  function FieldPairs(m: Json): (r: Result<seq<string>>)
    ensures r.Ok? <==> m.JObject?
    ensures r.Ok? ==> (|r.value| == |m.fields|
                       && forall k :: 0 <= k < |m.fields| ==> r.value[k] == m.fields[k].key + ":\"" + PyStr(m.fields[k].value) + "\"")
  {
    if !m.JObject? then Err(AttributeError)
    else Ok(seq(|m.fields|, k requires 0 <= k < |m.fields| => m.fields[k].key + ":\"" + PyStr(m.fields[k].value) + "\""))
  }

  /** What one clause contributes: its `match` pairs, or (for must_not only) its `term` pairs. */
  function ClauseParts(clause: Json, withTerm: bool): Result<seq<string>> {
    var hasMatch :- PyIn("match", clause);
    if hasMatch then
      var m :- PyIndex(clause, "match");
      FieldPairs(m)
    else if !withTerm then Ok([])
    else
      var hasTerm := PyIn("term", clause).value;
      if hasTerm then
        var t :- PyIndex(clause, "term");
        FieldPairs(t)
      else Ok([])
  }

  function CollectParts(clauses: seq<Json>, withTerm: bool): Result<seq<string>> {
    if clauses == [] then Ok([])
    else
      var init :- CollectParts(clauses[..|clauses| - 1], withTerm);
      var last :- ClauseParts(clauses[|clauses| - 1], withTerm);
      Ok(init + last)
  }

  /** `_extract_should_clauses`. */
  function ShouldClauses(d: Json): Result<string> {
    var found :- ClausePath(d, "should");
    if found.None? then Ok("")
    else
      var clauses :- PyIter(found.value);
      var parts :- CollectParts(clauses, false);
      Ok(if parts == [] then "" else "(" + Join(" OR ", parts) + ")")
  }

  /** `_extract_must_not_clauses`. */
  function MustNotClauses(d: Json): Result<string> {
    var found :- ClausePath(d, "must_not");
    if found.None? then Ok("")
    else
      var clauses :- PyIter(found.value);
      var parts :- CollectParts(clauses, true);
      Ok(if parts == [] then "" else "(NOT " + Join(" AND NOT ", parts) + ")")
  }

  /** `should` reads only `match` clauses: a list of dict clauses without one yields nothing. */
  lemma {:induction false} ShouldIgnoresOtherClauses(clauses: seq<Json>)
    requires forall k :: 0 <= k < |clauses| ==> clauses[k].JObject? && "match" !in Keys(clauses[k].fields)
    ensures CollectParts(clauses, false) == Ok([])
  {
    if clauses != [] {
      var init, last := clauses[..|clauses| - 1], clauses[|clauses| - 1];
      assert forall k :: 0 <= k < |init| ==> init[k] == clauses[k];
      ShouldIgnoresOtherClauses(init);
      assert last.JObject? && "match" !in Keys(last.fields);
      assert PyIn("match", last) == Ok(false);
      assert ClauseParts(last, false) == Ok([]);
      assert CollectParts(init, false).value + ClauseParts(last, false).value == [];
    }
  }

  /** In `must_not`, a clause with both `match` and `term` contributes only its `match` pairs. */
  lemma {:induction false} MatchBeforeTerm(clause: Json)
    requires clause.JObject? && "match" in Keys(clause.fields) && "term" in Keys(clause.fields)
    ensures ClauseParts(clause, true) == FieldPairs(Lookup(clause.fields, "match").value)
  {
  }

  /** The loop over `m.items()`. */
  method AppendFieldPairs(parts: seq<string>, m: Json) returns (r: Result<seq<string>>)
    ensures r.Ok? <==> m.JObject?
    ensures r.Ok? ==> r.value == parts + FieldPairs(m).value
  {
    if !m.JObject? {
      return Err(AttributeError);
    }
    var acc := parts;
    var i := 0;
    while i < |m.fields|
      invariant 0 <= i <= |m.fields|
      invariant acc == parts + FieldPairs(m).value[..i]
    {
      var field, value := m.fields[i].key, m.fields[i].value;
      acc := acc + [field + ":\"" + PyStr(value) + "\""];
      assert FieldPairs(m).value[..i + 1] == FieldPairs(m).value[..i] + [FieldPairs(m).value[i]];
      i := i + 1;
    }
    assert FieldPairs(m).value[..i] == FieldPairs(m).value;
    r := Ok(acc);
  }

  lemma {:induction false} CollectPartsErrStays(clauses: seq<Json>, n: nat, withTerm: bool)
    requires n <= |clauses| && CollectParts(clauses[..n], withTerm).Err?
    ensures CollectParts(clauses, withTerm) == CollectParts(clauses[..n], withTerm)
    decreases |clauses| - n
  {
    if n < |clauses| {
      assert clauses[..n + 1][..n] == clauses[..n];
      CollectPartsErrStays(clauses, n + 1, withTerm);
    } else {
      assert clauses[..n] == clauses;
    }
  }

  /** The clause loop shared by the two extractors. */
  method CollectClauseParts(clauses: seq<Json>, withTerm: bool) returns (r: Result<seq<string>>)
    ensures r == CollectParts(clauses, withTerm)
  {
    var parts: seq<string> := [];
    var i := 0;
    while i < |clauses|
      invariant 0 <= i <= |clauses|
      invariant CollectParts(clauses[..i], withTerm) == Ok(parts)
    {
      var clause := clauses[i];
      assert clauses[..i + 1][..i] == clauses[..i];
      var contributed := ClauseParts(clause, withTerm);
      if contributed.Err? {
        CollectPartsErrStays(clauses, i + 1, withTerm);
        return Err(contributed.error);
      }
      parts := parts + contributed.value;
      i := i + 1;
    }
    assert clauses[..i] == clauses;
    r := Ok(parts);
  }

  method ExtractShouldClauses(d: Json) returns (r: Result<string>)
    ensures r == ShouldClauses(d)
    ensures r.Ok? && r.value != "" ==> r.value[0] == '(' && r.value[|r.value| - 1] == ')'
  {
    var found := ClausePath(d, "should");
    if found.Err? {
      return Err(found.error);
    }
    if found.value.None? {
      return Ok("");
    }
    var clauses := PyIter(found.value.value);
    if clauses.Err? {
      return Err(clauses.error);
    }
    var parts := CollectClauseParts(clauses.value, false);
    if parts.Err? {
      return Err(parts.error);
    }
    if parts.value == [] {
      return Ok("");
    }
    r := Ok("(" + Join(" OR ", parts.value) + ")");
  }

  method ExtractMustNotClauses(d: Json) returns (r: Result<string>)
    ensures r == MustNotClauses(d)
    ensures r.Ok? && r.value != "" ==> StartsWith(r.value, "(NOT ") && r.value[|r.value| - 1] == ')'
  {
    var found := ClausePath(d, "must_not");
    if found.Err? {
      return Err(found.error);
    }
    if found.value.None? {
      return Ok("");
    }
    var clauses := PyIter(found.value.value);
    if clauses.Err? {
      return Err(clauses.error);
    }
    var parts := CollectClauseParts(clauses.value, true);
    if parts.Err? {
      return Err(parts.error);
    }
    if parts.value == [] {
      return Ok("");
    }
    r := Ok("(NOT " + Join(" AND NOT ", parts.value) + ")");
  }
}
