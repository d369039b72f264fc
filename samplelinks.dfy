/** The sample-document links under each pattern of the HTML report, in the two report builders
    (`step9_generate_email_bodies.py` and the older `step7_generate_email_bodies.py`). The HTML
    templates are a parameter; the two builders differ only in cutting long ids and in the
    fallback URL. */
module SampleLinks {
  import opened Wrappers
  import opened PyStrings
  import opened JsonValue

  /** Which report builder: the current one or the older one. */
  datatype Generation = Current | Legacy

  /** The two optional link settings. */
  datatype LinkSettings = LinkSettings(kibanaUrl: Option<string>, deeplink: Option<string>)

  /** A setting counts when it is given and not empty. */
  predicate Given(o: Option<string>) {
    o.Some? && o.value != []
  }

  /** `templates.get(name, "")`. */
  function Template(templates: map<string, string>, name: string): string {
    if name in templates then templates[name] else ""
  }

  /** The (index, id) pair of one reference: an `index:id` string split at its first colon,
      the `index` and `id` entries of a dict, or two empty strings for anything else. */
  function RefParts(ref: Json): (r: (Json, Json))
    ensures ref.JString? && ':' in ref.s ==>
      r.0.JString? && r.1.JString? && ':' !in r.0.s && r.0.s + ":" + r.1.s == ref.s
    ensures !ref.JString? && !ref.JObject? ==> r == (JString(""), JString(""))
  {
    if ref.JString? && ':' in ref.s then
      var c := FindChar(ref.s, ':', 0);
      assert ref.s[..c] + ":" + ref.s[c + 1..] == ref.s by {
        assert ref.s == ref.s[..c] + [ref.s[c]] + ref.s[c + 1..];
      }
      (JString(ref.s[..c]), JString(ref.s[c + 1..]))
    else if ref.JObject? then
      (OrElse(Lookup(ref.fields, "index"), JString("")), OrElse(Lookup(ref.fields, "id"), JString("")))
    else (JString(""), JString(""))
  }

  function OrElse(o: Option<Json>, default: Json): Json {
    if o.Some? then o.value else default
  }

  /** Python's `len(value)`. */
  function PyLen(j: Json): (r: Result<nat>)
    ensures r.Err? <==> !(j.JString? || j.JArray? || j.JObject?)
  {
    match j
    case JString(s) => Ok(|s|)
    case JArray(items) => Ok(|items|)
    case JObject(fields) => Ok(|fields|)
    case _ => Err(TypeError)
  }

  const MaxIdLength := 100

  /** `if len(doc_id) > 100: doc_id = doc_id[:100]` of the current builder. */
  function CutId(id: Json): (r: Result<Json>)
    ensures id.JString? ==> r == Ok(JString(if |id.s| > MaxIdLength then id.s[..MaxIdLength] else id.s))
  {
    var n :- PyLen(id);
    if n <= MaxIdLength then Ok(id)
    else
      match id
      case JString(s) => Ok(JString(s[..MaxIdLength]))
      case JArray(items) => Ok(JArray(items[..MaxIdLength]))
      case _ => Err(TypeError)
  }

  /** The link for one usable reference: the deeplink structure with both placeholders filled
      (`str.replace` takes only strings), or else the URL built on the Kibana base URL. */
  function LinkFor(gen: Generation, index: Json, id: Json, s: LinkSettings): Result<Option<string>> {
    if Given(s.deeplink) then
      if index.JString? && id.JString? then
        Ok(Some(Replace(Replace(s.deeplink.value, "{{index}}", index.s), "{{id}}", id.s)))
      else Err(TypeError)
    else if Given(s.kibanaUrl) then
      match gen
      case Current => Ok(Some(s.kibanaUrl.value + "/app/discover#/doc/" + PyStr(index) + "/" + PyStr(id) + "?_g=()"))
      case Legacy => Ok(Some(s.kibanaUrl.value + "/app/discover#/doc/logstash-*/" + PyStr(index) + "?id=" + PyStr(id)))
    else Ok(None)
  }

  /** What one reference contributes: nothing when its index or id is falsy, else its link. */
  function RefLink(gen: Generation, ref: Json, s: LinkSettings): (r: Result<Option<string>>)
    ensures !Truthy(RefParts(ref).0) || !Truthy(RefParts(ref).1) ==> r == Ok(None)
  {
    var parts := RefParts(ref);
    if !(Truthy(parts.0) && Truthy(parts.1)) then Ok(None)
    else
      var id :- if gen == Current then CutId(parts.1) else Ok(parts.1);
      LinkFor(gen, parts.0, id, s)
  }

  /** `", "` after the link at 1-based position `j` exactly when `j < min(5, total)`. */
  function Comma(j: nat, total: nat): string {
    if j < 5 && j < total then ", " else ""
  }

  /** One filled-in link item. */
  function LinkItem(itemTemplate: string, link: string, j: nat, total: nat): string {
    Replace(Replace(Replace(itemTemplate, "{{KIBANA_LINK}}", link), "{{INDEX}}", IntToString(j)), "{{COMMA}}", Comma(j, total))
  }

  /** The accumulated `sample_links_list` after the references `refs` (positions 1..|refs|). */
  function LinkList(gen: Generation, refs: seq<Json>, total: nat, s: LinkSettings, itemTemplate: string): Result<string> {
    if refs == [] then Ok("")
    else
      var acc :- LinkList(gen, refs[..|refs| - 1], total, s, itemTemplate);
      var link :- RefLink(gen, refs[|refs| - 1], s);
      Ok(if link.Some? then acc + LinkItem(itemTemplate, link.value, |refs|, total) else acc)
  }

  const RefsKey := "sample_doc_references"

  /** `generate_sample_links_html`. */
  function LinksHtml(gen: Generation, pattern: Json, s: LinkSettings, templates: map<string, string>, dark: bool): Result<string> {
    var has :- PyIn(RefsKey, pattern);
    if !has then Ok("")
    else
      var refs :- PyIndex(pattern, RefsKey);
      if !Truthy(refs) || (!Given(s.kibanaUrl) && !Given(s.deeplink)) then Ok("")
      else
        var itemTemplate := Template(templates, if dark then "dark-sample-link-item-template" else "sample-link-item-template");
        var first :- PyPrefix(refs, 5);
        var total :- PyLen(refs);
        var list :- LinkList(gen, first, total, s, itemTemplate);
        Ok(if list == [] then "" else Replace(Template(templates, "sample-links-template"), "{{SAMPLE_LINKS_LIST}}", list))
  }

  // ---------------------------------------------------------------------------------------
  // Properties

  /** A pattern dict without references, or with falsy ones, gets no links. */
  lemma {:induction false} NoReferencesNoLinks(gen: Generation, pattern: Json, s: LinkSettings, templates: map<string, string>, dark: bool)
    requires pattern.JObject?
    requires RefsKey !in Keys(pattern.fields) || !Truthy(Lookup(pattern.fields, RefsKey).value)
    ensures LinksHtml(gen, pattern, s, templates, dark) == Ok("")
  {
  }

  /** Without either link setting there are no links, whatever the references. */
  lemma {:induction false} NoSettingsNoLinks(gen: Generation, pattern: Json, s: LinkSettings, templates: map<string, string>, dark: bool)
    requires pattern.JObject? && !Given(s.kibanaUrl) && !Given(s.deeplink)
    ensures LinksHtml(gen, pattern, s, templates, dark) == Ok("")
  {
  }

  /** When no reference yields a link the list stays empty, so the whole result is empty. */
  lemma {:induction false} NoUsableReferenceNoList(gen: Generation, refs: seq<Json>, total: nat, s: LinkSettings, itemTemplate: string)
    requires forall k :: 0 <= k < |refs| ==> RefLink(gen, refs[k], s) == Ok(None)
    ensures LinkList(gen, refs, total, s, itemTemplate) == Ok("")
  {
    if refs != [] {
      var init := refs[..|refs| - 1];
      assert forall k :: 0 <= k < |init| ==> init[k] == refs[k];
      NoUsableReferenceNoList(gen, init, total, s, itemTemplate);
    }
  }

  /** Only the first five references are looked at: later ones change nothing. */
  lemma {:induction false} OnlyFirstFive(gen: Generation, fields: seq<Member>, items: seq<Json>, more: seq<Json>, s: LinkSettings, templates: map<string, string>, dark: bool)
    requires |items| >= 5 && RefsKey !in Keys(fields)
    ensures LinksHtml(gen, JObject(fields + [Member(RefsKey, JArray(items))]), s, templates, dark)
            == LinksHtml(gen, JObject(fields + [Member(RefsKey, JArray(items + more))]), s, templates, dark)
  {
    var a, b := fields + [Member(RefsKey, JArray(items))], fields + [Member(RefsKey, JArray(items + more))];
    LookupLast(fields, RefsKey, JArray(items));
    LookupLast(fields, RefsKey, JArray(items + more));
    if Given(s.kibanaUrl) || Given(s.deeplink) {
      LinksOfReferences(gen, a, items, s, templates, dark);
      LinksOfReferences(gen, b, items + more, s, templates, dark);
      assert (items + more)[..5] == items[..5];
      LinkListTotal(gen, items[..5], |items|, |items + more|, s, Template(templates, if dark then "dark-sample-link-item-template" else "sample-link-item-template"));
    }
  }

  /** The links of a pattern dict with five references or more and a link setting. */
  lemma {:induction false} LinksOfReferences(gen: Generation, fields: seq<Member>, items: seq<Json>, s: LinkSettings, templates: map<string, string>, dark: bool)
    requires RefsKey in Keys(fields) && Lookup(fields, RefsKey) == Some(JArray(items))
    requires |items| >= 5 && (Given(s.kibanaUrl) || Given(s.deeplink))
    ensures var itemTemplate := Template(templates, if dark then "dark-sample-link-item-template" else "sample-link-item-template");
      var list := LinkList(gen, items[..5], |items|, s, itemTemplate);
      LinksHtml(gen, JObject(fields), s, templates, dark) ==
        if list.Err? then Err(list.error)
        else Ok(if list.value == [] then "" else Replace(Template(templates, "sample-links-template"), "{{SAMPLE_LINKS_LIST}}", list.value))
  {
  }

  /** The list depends on the number of references only through `min(5, total)`. */
  lemma {:induction false} LinkListTotal(gen: Generation, refs: seq<Json>, t1: nat, t2: nat, s: LinkSettings, itemTemplate: string)
    requires |refs| <= 5 && t1 >= 5 && t2 >= 5
    ensures LinkList(gen, refs, t1, s, itemTemplate) == LinkList(gen, refs, t2, s, itemTemplate)
  {
    if refs != [] {
      LinkListTotal(gen, refs[..|refs| - 1], t1, t2, s, itemTemplate);
      assert Comma(|refs|, t1) == Comma(|refs|, t2);
    }
  }

  lemma {:induction false} LookupLast(fields: seq<Member>, key: string, v: Json)
    requires key !in Keys(fields)
    ensures key in Keys(fields + [Member(key, v)]) && Lookup(fields + [Member(key, v)], key) == Some(v)
  {
    if fields != [] {
      assert (fields + [Member(key, v)])[1..] == fields[1..] + [Member(key, v)];
      LookupLast(fields[1..], key, v);
    }
  }

  /** The deeplink structure wins over the base URL: the link is the structure with the index
      and the (current builder: cut) id filled in. */
  lemma {:induction false} DeeplinkPreferred(gen: Generation, index: string, id: string, s: LinkSettings)
    requires Given(s.deeplink) && index != [] && id != [] && ':' !in index
    ensures var cut := if gen == Current && |id| > MaxIdLength then id[..MaxIdLength] else id;
      RefLink(gen, JString(index + ":" + id), s)
      == Ok(Some(Replace(Replace(s.deeplink.value, "{{index}}", index), "{{id}}", cut)))
  {
    SplitAtFirstColon(index, id);
  }

  /** Without a deeplink structure the builders fall back to their own URL shapes. */
  lemma {:induction false} FallbackUrls(index: string, id: string, s: LinkSettings)
    requires !Given(s.deeplink) && Given(s.kibanaUrl) && index != [] && id != [] && ':' !in index
    ensures var cut := if |id| > MaxIdLength then id[..MaxIdLength] else id;
      RefLink(Current, JString(index + ":" + id), s)
      == Ok(Some(s.kibanaUrl.value + "/app/discover#/doc/" + index + "/" + cut + "?_g=()"))
    ensures RefLink(Legacy, JString(index + ":" + id), s)
            == Ok(Some(s.kibanaUrl.value + "/app/discover#/doc/logstash-*/" + index + "?id=" + id))
  {
    SplitAtFirstColon(index, id);
  }

  lemma {:induction false} SplitAtFirstColon(index: string, id: string)
    requires ':' !in index
    ensures RefParts(JString(index + ":" + id)) == (JString(index), JString(id))
  {
    var s := index + ":" + id;
    assert s[|index|] == ':';
    assert ':' in s;
    var c := FindChar(s, ':', 0);
    assert c == |index|;
    assert s[..c] == index;
    assert s[c + 1..] == id;
  }

  /** An error on the first `n` references is the result of the whole loop. */
  lemma {:induction false} LinkListErrStays(gen: Generation, refs: seq<Json>, n: nat, total: nat, s: LinkSettings, itemTemplate: string)
    requires n <= |refs| && LinkList(gen, refs[..n], total, s, itemTemplate).Err?
    ensures LinkList(gen, refs, total, s, itemTemplate) == LinkList(gen, refs[..n], total, s, itemTemplate)
    decreases |refs| - n
  {
    if n < |refs| {
      assert refs[..n + 1][..n] == refs[..n];
      LinkListErrStays(gen, refs, n + 1, total, s, itemTemplate);
    } else {
      assert refs[..n] == refs;
    }
  }

  // ---------------------------------------------------------------------------------------
  // The loop of the source

  /** `generate_sample_links_html`: the enumerate loop appends one item per usable reference. */
  method SampleLinksHtml(gen: Generation, pattern: Json, s: LinkSettings, templates: map<string, string>, dark: bool)
    returns (r: Result<string>)
    ensures r == LinksHtml(gen, pattern, s, templates, dark)
  {
    var has := PyIn(RefsKey, pattern);
    if has.Err? {
      return Err(has.error);
    }
    if !has.value {
      return Ok("");
    }
    var refs := PyIndex(pattern, RefsKey);
    if refs.Err? {
      return Err(refs.error);
    }
    if !Truthy(refs.value) || (!Given(s.kibanaUrl) && !Given(s.deeplink)) {
      return Ok("");
    }
    var itemTemplate := Template(templates, if dark then "dark-sample-link-item-template" else "sample-link-item-template");
    var first := PyPrefix(refs.value, 5);
    if first.Err? {
      return Err(first.error);
    }
    var total := PyLen(refs.value).value;
    var list := CollectLinks(gen, first.value, total, s, itemTemplate);
    if list.Err? {
      return Err(list.error);
    }
    if list.value == [] {
      return Ok("");
    }
    r := Ok(Replace(Template(templates, "sample-links-template"), "{{SAMPLE_LINKS_LIST}}", list.value));
  }

  /** The enumerate loop: one item per usable reference, appended with `+=`. */
  method CollectLinks(gen: Generation, refs: seq<Json>, total: nat, s: LinkSettings, itemTemplate: string)
    returns (r: Result<string>)
    ensures r == LinkList(gen, refs, total, s, itemTemplate)
  {
    var list := "";
    var i := 0;
    while i < |refs|
      invariant 0 <= i <= |refs|
      invariant LinkList(gen, refs[..i], total, s, itemTemplate) == Ok(list)
    {
      assert refs[..i + 1][..i] == refs[..i];
      var link := RefLink(gen, refs[i], s);
      if link.Err? {
        LinkListErrStays(gen, refs, i + 1, total, s, itemTemplate);
        return Err(link.error);
      }
      if link.value.Some? {
        list := list + LinkItem(itemTemplate, link.value.value, i + 1, total);
      }
      i := i + 1;
    }
    assert refs[..i] == refs;
    r := Ok(list);
  }
}
