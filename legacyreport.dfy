/** The HTML pattern lists, the top-pattern selection and the list truncation of the older report
    builder (`step7_generate_email_bodies.py`). Its plain-text lists and `get_count` are the ones
    of `ReportText`, its sample links those of `SampleLinks` for the `Legacy` generation.

    The HTML templates are a parameter. A percent change is kept as the exact pair (change,
    divisor) it is computed from; the text of `round(change / divisor * 100, 1)` is the parameter
    `showRatio`. */
module LegacyReport {
  import opened Wrappers
  import opened PyStrings
  import opened JsonValue
  import opened Sorting
  import SampleLinks
  import ReportText

  // ---------------------------------------------------------------------------------------
  // Figures of an increased or decreased pattern

  /** A JSON value in Python arithmetic: ints, and bools as 0 and 1; anything else raises
      TypeError when subtracted. */
  function PyNum(v: Json): (r: Result<int>)
    ensures r.Ok? <==> v.JInt? || v.JBool?
    ensures v.JInt? ==> r == Ok(v.i)
  {
    match v
    case JInt(i) => Ok(i)
    case JBool(b) => Ok(if b then 1 else 0)
    case _ => Err(TypeError)
  }

  /** `percent_change`: `change / divisor * 100` (a float in the source) or the int 0 of the
      `else` branch. */
  datatype Percent = Ratio(change: int, divisor: int) | NoRatio

  /** The figures the HTML of a changed pattern shows. */
  datatype Change = Change(current: Json, absolute: int, percent: Percent)

  /** `absolute_change` and `percent_change` of `generate_increased_pattern_list_html` and
      `generate_decreased_pattern_list_html`. A missing previous count is 0 in the difference but
      1 as the divisor. */
  function ChangeOf(increased: bool, pattern: Json): (r: Result<Change>)
    ensures r.Ok? ==> pattern.JObject?
    ensures !pattern.JObject? ==> r == Err(AttributeError)
    ensures pattern.JObject? && r.Err? ==> r.error == TypeError
  {
    if !pattern.JObject? then Err(AttributeError)
    else
      var current := Get(pattern.fields, "current_count", JInt(0));
      var c :- PyNum(current);
      var p :- PyNum(Get(pattern.fields, "previous_count", JInt(0)));
      var absolute := if increased then c - p else p - c;
      var divisor := match PyNum(Get(pattern.fields, "previous_count", JInt(1)))
        case Ok(d) => d
        case Err(_) => 1;
      Ok(Change(current, absolute, if divisor > 0 then Ratio(absolute, divisor) else NoRatio))
  }

  /** `str(percent_change)`. */
  function PercentText(p: Percent, showRatio: (int, int) -> string): string {
    match p
    case Ratio(a, d) => showRatio(a, d)
    case NoRatio => "0"
  }

  // ---------------------------------------------------------------------------------------
  // HTML lists

  function ItemTemplateName(kind: ReportText.ListKind): string {
    match kind
    case AllPatterns => "pattern-item-template"
    case Increased => "increased-pattern-item-template"
    case Decreased => "decreased-pattern-item-template"
  }

  /** The unique element id of the entry numbered `i`. */
  function PatternId(kind: ReportText.ListKind, i: nat): (r: string)
    ensures exists prefix :: r == prefix + IntToString(i)
  {
    var prefix := match kind
      case AllPatterns => "pattern-"
      case Increased => "increased-pattern-"
      case Decreased => "decreased-pattern-";
    prefix + IntToString(i)
  }

  function EmptyHtmlMessage(kind: ReportText.ListKind): string {
    match kind
    case AllPatterns => "No patterns found."
    case Increased => "No increased patterns found."
    case Decreased => "No decreased patterns found."
  }

  const ListOpen := "<div class='space-y-6'>"
  const ListClose := "</div>"

  /** The placeholders of one entry filled in, `{{SAMPLE_LINKS}}` last. `str.replace` takes only
      a str, so a pattern text that is not one raises TypeError. */
  function FillItem(kind: ReportText.ListKind, template: string, i: nat, pattern: Json, change: Change,
                    links: string, showRatio: (int, int) -> string): (r: Result<string>)
    requires pattern.JObject?
    ensures r.Ok? <==> Get(pattern.fields, "pattern", JString("")).JString?
  {
    var text := Get(pattern.fields, "pattern", JString(""));
    if !text.JString? then Err(TypeError)
    else
      var h := Replace(template, "{{INDEX}}", IntToString(i));
      var h := match kind
        case AllPatterns => Replace(h, "{{COUNT}}", PyStr(Get(pattern.fields, "count", JInt(0))))
        case _ =>
          Replace(Replace(Replace(h, "{{CURRENT_COUNT}}", PyStr(change.current)),
                          "{{ABSOLUTE_CHANGE}}", IntToString(change.absolute)),
                  "{{PERCENT_CHANGE}}", PercentText(change.percent, showRatio));
      var h := Replace(h, "{{PATTERN_ID}}", PatternId(kind, i));
      var h := Replace(h, "{{PATTERN_TEXT}}", text.s);
      Ok(Replace(h, "{{SAMPLE_LINKS}}", links))
  }

  /** One entry of a list: its figures, its sample links, then the filled-in item template. */
  function Item(kind: ReportText.ListKind, i: nat, pattern: Json, s: SampleLinks.LinkSettings,
                templates: map<string, string>, showRatio: (int, int) -> string): (r: Result<string>)
    ensures r.Ok? ==> pattern.JObject?
  {
    if !pattern.JObject? then Err(AttributeError)
    else
      var change :- if kind == ReportText.AllPatterns then Ok(Change(JInt(0), 0, NoRatio))
                    else ChangeOf(kind == ReportText.Increased, pattern);
      var links :- SampleLinks.LinksHtml(SampleLinks.Legacy, pattern, s, templates, false);
      FillItem(kind, SampleLinks.Template(templates, ItemTemplateName(kind)), i, pattern, change, links, showRatio)
  }

  /** The items of `ps`, numbered 1..|ps|, in order. */
  function Items(kind: ReportText.ListKind, ps: seq<Json>, s: SampleLinks.LinkSettings,
                 templates: map<string, string>, showRatio: (int, int) -> string): Result<string> {
    if ps == [] then Ok("")
    else
      var acc :- Items(kind, ps[..|ps| - 1], s, templates, showRatio);
      var item :- Item(kind, |ps|, ps[|ps| - 1], s, templates, showRatio);
      Ok(acc + item)
  }

  /** `generate_pattern_list_html` and its increased and decreased variants: a (light, dark)
      pair. */
  function ListHtml(kind: ReportText.ListKind, patterns: seq<Json>, s: SampleLinks.LinkSettings,
                    templates: map<string, string>, showRatio: (int, int) -> string): (r: Result<(string, string)>)
    ensures r.Ok? ==> r.value.0 == r.value.1
    ensures patterns == [] ==>
      r == Ok(var m := Replace(SampleLinks.Template(templates, "empty-pattern-list-template"), "{{MESSAGE}}", EmptyHtmlMessage(kind)); (m, m))
    ensures patterns != [] && r.Ok? ==>
      StartsWith(r.value.0, ListOpen) && |r.value.0| >= |ListOpen + ListClose|
      && r.value.0[|r.value.0| - |ListClose|..] == ListClose
  {
    if patterns == [] then
      var m := Replace(SampleLinks.Template(templates, "empty-pattern-list-template"), "{{MESSAGE}}", EmptyHtmlMessage(kind));
      Ok((m, m))
    else
      var items :- Items(kind, patterns, s, templates, showRatio);
      var h := ListOpen + items + ListClose;
      assert h[..|ListOpen|] == ListOpen;
      assert h[|h| - |ListClose|..] == ListClose;
      Ok((h, h))
  }

  // ---------------------------------------------------------------------------------------
  // Top patterns and truncation

  const TopCount := 25
  const ShownCount := 10

  /** The sort key `get_count`; only consulted once every count is known to be readable. */
  function CountKey(p: Json): Rank {
    CountRank(match ReportText.GetCount(p) case Ok(c) => c case Err(_) => 0)
  }

  /** The error of the first pattern whose count cannot be read: `sorted` computes every key, in
      list order, before it compares any. */
  function FirstCountError(ps: seq<Json>): (r: Option<Error>)
    ensures r.None? <==> forall k :: 0 <= k < |ps| ==> ReportText.GetCount(ps[k]).Ok?
  {
    if ps == [] then None
    else
      match ReportText.GetCount(ps[0])
      case Err(e) => Some(e)
      case Ok(_) =>
        var rest := FirstCountError(ps[1..]);
        assert forall k :: 1 <= k < |ps| ==> ps[k] == ps[1..][k - 1];
        rest
  }

  /** `sorted(norm_results.get("patterns", []), key=get_count, reverse=True)[:25]`. */
  function TopPatterns(normResults: Json): (r: Result<seq<Json>>)
    ensures r.Ok? ==> |r.value| <= TopCount
    ensures normResults.JObject? && "patterns" !in Keys(normResults.fields) ==> r == Ok([])
  {
    var patterns :- PyGet(normResults, "patterns", JArray([]));
    var items :- PyIter(patterns);
    match FirstCountError(items)
    case Some(e) => Err(e)
    case None => Ok(Take(SortDesc(items, CountKey), TopCount))
  }

  /** What the HTML and text of `generate_email_bodies` take from the comparison: each list cut
      to its first ten entries, and the full lengths of the new and disappeared lists. */
  datatype Shown = Shown(newShown: seq<Json>, disappearedShown: seq<Json>, increasedShown: seq<Json>,
                         decreasedShown: seq<Json>, newTotal: nat, disappearedTotal: nat)

  function ShownLists(comparison: Json): (r: Result<Shown>)
    ensures r.Ok? ==> |r.value.newShown| <= ShownCount && |r.value.disappearedShown| <= ShownCount
                      && |r.value.increasedShown| <= ShownCount && |r.value.decreasedShown| <= ShownCount
  {
    if !comparison.JObject? then Err(AttributeError)
    else
      var newList := Get(comparison.fields, "new_patterns", JArray([]));
      var disappearedList := Get(comparison.fields, "disappeared_patterns", JArray([]));
      var increasedList := Get(comparison.fields, "increased_patterns", JArray([]));
      var decreasedList := Get(comparison.fields, "decreased_patterns", JArray([]));
      var newShown :- PyPrefix(newList, ShownCount);
      var disappearedShown :- PyPrefix(disappearedList, ShownCount);
      var increasedShown :- PyPrefix(increasedList, ShownCount);
      var decreasedShown :- PyPrefix(decreasedList, ShownCount);
      var newTotal := SampleLinks.PyLen(newList).value;
      var disappearedTotal := SampleLinks.PyLen(disappearedList).value;
      Ok(Shown(newShown, disappearedShown, increasedShown, decreasedShown, newTotal, disappearedTotal))
  }

  // ---------------------------------------------------------------------------------------
  // Properties

  /** A missing previous count: the change is the current count, and the percentage is taken
      against 1. */
  lemma {:induction false} MissingPreviousDefaults(increased: bool, fields: seq<Member>, c: int)
    requires Lookup(fields, "current_count") == Some(JInt(c)) && "previous_count" !in Keys(fields)
    ensures var a := if increased then c else -c;
            ChangeOf(increased, JObject(fields)) == Ok(Change(JInt(c), a, Ratio(a, 1)))
  {
    assert Get(fields, "current_count", JInt(0)) == JInt(c);
    assert Get(fields, "previous_count", JInt(0)) == JInt(0);
    assert Get(fields, "previous_count", JInt(1)) == JInt(1);
  }

  /** A previous count of zero or less gives the int 0 as percentage, whatever the counts. */
  lemma {:induction false} NonPositivePreviousNoRatio(increased: bool, fields: seq<Member>, p: int)
    requires Lookup(fields, "previous_count") == Some(JInt(p)) && p <= 0
    requires ChangeOf(increased, JObject(fields)).Ok?
    ensures ChangeOf(increased, JObject(fields)).value.percent == NoRatio
  {
    assert Get(fields, "previous_count", JInt(1)) == JInt(p);
  }

  /** With a positive previous count the percentage is the change relative to it: positive
      exactly when the count went up, and opposite in the increased and decreased figures. */
  lemma {:induction false} RatioOfPositivePrevious(fields: seq<Member>, c: int, p: int)
    requires Lookup(fields, "current_count") == Some(JInt(c))
    requires Lookup(fields, "previous_count") == Some(JInt(p)) && p > 0
    ensures var up := ChangeOf(true, JObject(fields));
            var down := ChangeOf(false, JObject(fields));
            up.Ok? && down.Ok? && up.value.absolute == c - p && down.value.absolute == p - c
            && up.value.percent.Ratio? && down.value.percent.Ratio?
            && up.value.percent.divisor == p && down.value.percent.divisor == p
            && up.value.percent.change == -down.value.percent.change
            && (up.value.percent.change > 0 <==> c > p)
  {
    assert Get(fields, "current_count", JInt(0)) == JInt(c);
    assert Get(fields, "previous_count", JInt(0)) == JInt(p);
    assert Get(fields, "previous_count", JInt(1)) == JInt(p);
  }

  /** Different positions get different element ids. */
  lemma {:induction false} PatternIdsDistinct(kind: ReportText.ListKind, i: nat, j: nat)
    requires i != j
    ensures PatternId(kind, i) != PatternId(kind, j)
  {
    var prefix := match kind
      case AllPatterns => "pattern-"
      case Increased => "increased-pattern-"
      case Decreased => "decreased-pattern-";
    if PatternId(kind, i) == PatternId(kind, j) {
      var a := PatternId(kind, i);
      assert a == prefix + IntToString(i) && a == prefix + IntToString(j);
      assert IntToString(i) == a[|prefix|..] == IntToString(j);
      ReportText.ParseIntRoundTrip(i);
      ReportText.ParseIntRoundTrip(j);
    }
  }

  lemma {:induction false} ItemsAppend(kind: ReportText.ListKind, ps: seq<Json>, p: Json, s: SampleLinks.LinkSettings,
                                       templates: map<string, string>, showRatio: (int, int) -> string)
    requires Items(kind, ps, s, templates, showRatio).Ok?
    requires Item(kind, |ps| + 1, p, s, templates, showRatio).Ok?
    ensures Items(kind, ps + [p], s, templates, showRatio)
         == Ok(Items(kind, ps, s, templates, showRatio).value + Item(kind, |ps| + 1, p, s, templates, showRatio).value)
  {
    assert (ps + [p])[..|ps + [p]| - 1] == ps;
  }

  lemma {:induction false} ItemsErrStays(kind: ReportText.ListKind, ps: seq<Json>, n: nat, s: SampleLinks.LinkSettings,
                      templates: map<string, string>, showRatio: (int, int) -> string)
    requires n <= |ps| && Items(kind, ps[..n], s, templates, showRatio).Err?
    ensures Items(kind, ps, s, templates, showRatio) == Items(kind, ps[..n], s, templates, showRatio)
    decreases |ps| - n
  {
    if n < |ps| {
      assert ps[..n + 1][..n] == ps[..n];
      ItemsErrStays(kind, ps, n + 1, s, templates, showRatio);
    } else {
      assert ps[..n] == ps;
    }
  }

  /** The top patterns are the highest counts: in non-increasing order, drawn from the input
      without repetition, as many as the input has up to 25, and no pattern left out has a
      higher count than one selected. */
  lemma {:induction false} TopSelection(items: seq<Json>)
    ensures var top := Take(SortDesc(items, CountKey), TopCount);
      && SortedDesc(top, CountKey)
      && multiset(top) <= multiset(items)
      && |top| == (if |items| < TopCount then |items| else TopCount)
      && forall x, y :: x in top && y in multiset(items) - multiset(top) ==> RankLe(CountKey(y), CountKey(x))
  {
    SortDescSpec(items, CountKey);
    TakeOfSorted(SortDesc(items, CountKey), TopCount, CountKey);
  }

  /** Readable counts in a list of patterns lead to the top selection of that list. */
  lemma {:induction false} TopPatternsOfList(fields: seq<Member>, items: seq<Json>)
    requires Lookup(fields, "patterns") == Some(JArray(items))
    requires forall k :: 0 <= k < |items| ==> ReportText.GetCount(items[k]).Ok?
    ensures TopPatterns(JObject(fields)) == Ok(Take(SortDesc(items, CountKey), TopCount))
  {
  }

  /** One unreadable count makes the whole selection fail. */
  lemma {:induction false} UnreadableCountFails(fields: seq<Member>, items: seq<Json>, k: nat)
    requires Lookup(fields, "patterns") == Some(JArray(items))
    requires k < |items| && ReportText.GetCount(items[k]).Err?
    ensures TopPatterns(JObject(fields)).Err?
  {
  }

  /** The lists shown are the first ten of each list, while the counts of new and disappeared
      patterns are those of the whole lists. */
  lemma {:induction false} TruncatedButCounted(fields: seq<Member>, newItems: seq<Json>, goneItems: seq<Json>,
                            upItems: seq<Json>, downItems: seq<Json>)
    requires Lookup(fields, "new_patterns") == Some(JArray(newItems))
    requires Lookup(fields, "disappeared_patterns") == Some(JArray(goneItems))
    requires Lookup(fields, "increased_patterns") == Some(JArray(upItems))
    requires Lookup(fields, "decreased_patterns") == Some(JArray(downItems))
    ensures var r := ShownLists(JObject(fields));
      && r.Ok?
      && r.value.newTotal == |newItems| && r.value.disappearedTotal == |goneItems|
      && r.value.newShown == Take(newItems, ShownCount)
      && r.value.disappearedShown == Take(goneItems, ShownCount)
      && r.value.increasedShown == Take(upItems, ShownCount)
      && r.value.decreasedShown == Take(downItems, ShownCount)
  {
    assert Get(fields, "new_patterns", JArray([])) == JArray(newItems);
    assert Get(fields, "disappeared_patterns", JArray([])) == JArray(goneItems);
    assert Get(fields, "increased_patterns", JArray([])) == JArray(upItems);
    assert Get(fields, "decreased_patterns", JArray([])) == JArray(downItems);
  }

  // ---------------------------------------------------------------------------------------
  // The loop of the source

  /** One turn of the enumerate loop: the figures, the sample links, the placeholders. */
  method ItemHtml(kind: ReportText.ListKind, i: nat, pattern: Json, s: SampleLinks.LinkSettings,
                  templates: map<string, string>, showRatio: (int, int) -> string) returns (r: Result<string>)
    ensures r == Item(kind, i, pattern, s, templates, showRatio)
  {
    if !pattern.JObject? {
      return Err(AttributeError);
    }
    var change := Change(JInt(0), 0, NoRatio);
    if kind != ReportText.AllPatterns {
      var figures := ChangeOf(kind == ReportText.Increased, pattern);
      if figures.Err? {
        return Err(figures.error);
      }
      change := figures.value;
    }
    var links := SampleLinks.SampleLinksHtml(SampleLinks.Legacy, pattern, s, templates, false);
    if links.Err? {
      return Err(links.error);
    }
    r := FillItem(kind, SampleLinks.Template(templates, ItemTemplateName(kind)), i, pattern, change, links.value, showRatio);
  }

  /** The list builders: the entries between the opening and the closing tag, or the message
      of the empty list. */
  method PatternListHtml(kind: ReportText.ListKind, patterns: seq<Json>, s: SampleLinks.LinkSettings,
                         templates: map<string, string>, showRatio: (int, int) -> string) returns (r: Result<(string, string)>)
    ensures r == ListHtml(kind, patterns, s, templates, showRatio)
  {
    if patterns == [] {
      var m := Replace(SampleLinks.Template(templates, "empty-pattern-list-template"), "{{MESSAGE}}", EmptyHtmlMessage(kind));
      return Ok((m, m));
    }
    var items := CollectItems(kind, patterns, s, templates, showRatio);
    if items.Err? {
      return Err(items.error);
    }
    var light := ListOpen + items.value + ListClose;
    r := Ok((light, light));
  }

  /** The enumerate loop: `light_html += pattern_html` per entry. */
  method CollectItems(kind: ReportText.ListKind, patterns: seq<Json>, s: SampleLinks.LinkSettings,
                      templates: map<string, string>, showRatio: (int, int) -> string) returns (r: Result<string>)
    ensures r == Items(kind, patterns, s, templates, showRatio)
  {
    var items := "";
    var i := 0;
    while i < |patterns|
      invariant 0 <= i <= |patterns|
      invariant Items(kind, patterns[..i], s, templates, showRatio) == Ok(items)
    {
      assert patterns[..i + 1][..i] == patterns[..i];
      var item := ItemHtml(kind, i + 1, patterns[i], s, templates, showRatio);
      if item.Err? {
        ItemsErrStays(kind, patterns, i + 1, s, templates, showRatio);
        return Err(item.error);
      }
      items := items + item.value;
      i := i + 1;
    }
    assert patterns[..i] == patterns;
    r := Ok(items);
  }
}
