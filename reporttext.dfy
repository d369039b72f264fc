/** The plain-text pattern lists of both report builders and their `get_count`. The two
    builders write the same text except for the separator between sample references (` · ` in
    `step9_generate_email_bodies.py`, `, ` in `step7_generate_email_bodies.py`). The `.1f`
    rendering of a percentage is the parameter `fixed1`, which fails as Python's `format` does
    for values that are not numbers. */
module ReportText {
  import opened Wrappers
  import opened PyStrings
  import opened JsonValue
  import SampleLinks

  datatype ListKind = AllPatterns | Increased | Decreased

  const CurrentSeparator := " · "
  const LegacySeparator := ", "

  function EmptyMessage(kind: ListKind): string {
    match kind
    case AllPatterns => "No patterns found.\n"
    case Increased => "No increased patterns found.\n"
    case Decreased => "No decreased patterns found.\n"
  }

  /** `Sample {j} ({index}/{doc_id})` for every usable reference, `j` being its 1-based
      position among all references looked at. */
  function SampleLabels(refs: seq<Json>): (r: seq<string>)
    ensures |r| <= |refs|
  {
    if refs == [] then []
    else
      var parts := SampleLinks.RefParts(refs[|refs| - 1]);
      SampleLabels(refs[..|refs| - 1])
      + (if Truthy(parts.0) && Truthy(parts.1)
         then ["Sample " + IntToString(|refs|) + " (" + PyStr(parts.0) + "/" + PyStr(parts.1) + ")"]
         else [])
  }

  /** The numbered first line of an entry. */
  function Header(kind: ListKind, i: nat, pattern: Json, fixed1: Json -> Result<string>): (r: Result<string>)
    ensures r.Ok? ==> pattern.JObject?
    ensures r.Ok? ==> StartsWith(r.value, IntToString(i) + ". [") && r.value[|r.value| - 1] == '\n'
  {
    if !pattern.JObject? then Err(AttributeError)
    else
      var tail :- HeaderTail(kind, pattern.fields, fixed1);
      Ok(IntToString(i) + ". [" + tail)
  }

  /** The first line after its number: the bracketed count, for the comparison lists the signed
      absolute and percent changes, then the pattern text. */
  function HeaderTail(kind: ListKind, fields: seq<Member>, fixed1: Json -> Result<string>): (r: Result<string>)
    ensures r.Ok? ==> r.value != [] && r.value[|r.value| - 1] == '\n'
  {
    var text := Get(fields, "pattern", JString(""));
    match kind
    case AllPatterns =>
      var count := Get(fields, "count", JInt(0));
      Ok(PyStr(count) + "] " + PyStr(text) + "\n")
    case _ =>
      var current := Get(fields, "current_count", JInt(0));
      var absolute := Get(fields, "absolute_change", JInt(0));
      var percent := Get(fields, "percent_change", JInt(0));
      var shown :- fixed1(percent);
      var sign := if kind == Increased then "+" else "-";
      Ok(PyStr(current) + "] (" + sign + PyStr(absolute) + ", " + sign + shown + "%) " + PyStr(text) + "\n")
  }

  /** The `Sample documents:` line, present when the pattern has truthy references. */
  function SamplesLine(pattern: Json, sep: string): Result<string> {
    var has :- PyIn(SampleLinks.RefsKey, pattern);
    if !has then Ok("")
    else
      var refs :- PyIndex(pattern, SampleLinks.RefsKey);
      if !Truthy(refs) then Ok("")
      else
        var first :- PyPrefix(refs, 5);
        Ok("   Sample documents: " + Join(sep, SampleLabels(first)) + "\n")
  }

  /** One entry: header, optional samples line, blank line. */
  function Entry(kind: ListKind, i: nat, pattern: Json, sep: string, fixed1: Json -> Result<string>): Result<string> {
    var header :- Header(kind, i, pattern, fixed1);
    var samples :- SamplesLine(pattern, sep);
    Ok(header + samples + "\n")
  }

  /** The entries of the patterns `ps`, numbered 1..|ps|. */
  function Entries(kind: ListKind, ps: seq<Json>, sep: string, fixed1: Json -> Result<string>): Result<string> {
    if ps == [] then Ok("")
    else
      var acc :- Entries(kind, ps[..|ps| - 1], sep, fixed1);
      var entry :- Entry(kind, |ps|, ps[|ps| - 1], sep, fixed1);
      Ok(acc + entry)
  }

  /** `generate_pattern_list_text` and its increased and decreased variants. */
  function ListText(kind: ListKind, patterns: seq<Json>, sep: string, fixed1: Json -> Result<string>): (r: Result<string>)
    ensures patterns == [] ==> r == Ok(EmptyMessage(kind))
  {
    if patterns == [] then Ok(EmptyMessage(kind)) else Entries(kind, patterns, sep, fixed1)
  }

  // ---------------------------------------------------------------------------------------
  // `get_count`

  const BadLiteral := ValueError("invalid literal for int()")

  /** Python's `int(s)` for a str: optional surrounding whitespace, an optional sign, then
      ASCII digits. */
  function ParseInt(s: string): (r: Result<int>)
    ensures r.Err? ==> r.error == BadLiteral
  {
    SignedDigits(Strip(s))
  }

  /** An optional sign followed by at least one ASCII digit. */
  function SignedDigits(t: string): (r: Result<int>)
    ensures r.Err? ==> r.error == BadLiteral
  {
    var negative := t != [] && t[0] == '-';
    var digits := if t != [] && (t[0] == '-' || t[0] == '+') then t[1..] else t;
    if digits == [] || !AllDigits(digits) then Err(BadLiteral)
    else
      var magnitude: int := DigitsValue(digits);
      Ok(if negative then -magnitude else magnitude)
  }

  /** Python's `int(value)`: bools are 0 and 1, strings are parsed, containers and `None` fail. */
  function PyInt(v: Json): (r: Result<int>)
    ensures v.JInt? ==> r == Ok(v.i)
    ensures v.JArray? || v.JObject? || v.JNull? ==> r == Err(TypeError)
  {
    match v
    case JInt(i) => Ok(i)
    case JBool(b) => Ok(if b then 1 else 0)
    case JString(s) => ParseInt(s)
    case _ => Err(TypeError)
  }

  /** `get_count`: a missing or null count is 0, anything else goes through `int`. */
  function GetCount(pattern: Json): (r: Result<int>)
    ensures r.Ok? ==> pattern.JObject?
    ensures pattern.JObject? && "count" !in Keys(pattern.fields) ==> r == Ok(0)
    ensures pattern.JObject? && Lookup(pattern.fields, "count") == Some(JNull) ==> r == Ok(0)
    ensures pattern.JObject? && Lookup(pattern.fields, "count").Some? && Lookup(pattern.fields, "count").value.JInt?
            ==> r == Ok(Lookup(pattern.fields, "count").value.i)
  {
    var count :- PyGet(pattern, "count", JInt(0));
    if count.JNull? then Ok(0) else PyInt(count)
  }

  lemma {:induction false} DigitCharValue(d: nat)
    requires d < 10
    ensures IsDigit(DigitChar(d)) && DigitChar(d) as int - '0' as int == d
  {
    assert "0123456789"[d] as int == '0' as int + d by {
      if d == 0 {} else if d == 1 {} else if d == 2 {} else if d == 3 {} else if d == 4 {}
      else if d == 5 {} else if d == 6 {} else if d == 7 {} else if d == 8 {} else {}
    }
  }

  /** The decimal digits of a natural number read back as that number. */
  lemma {:induction false} DigitsRoundTrip(n: nat)
    ensures AllDigits(IntToString(n))
    ensures DigitsValue(IntToString(n)) == n
    decreases n
  {
    if n < 10 {
      DigitCharValue(n);
      assert IntToString(n)[..0] == [];
    } else {
      DigitsRoundTrip(n / 10);
      DigitCharValue(n % 10);
      var s := IntToString(n);
      assert s[..|s| - 1] == IntToString(n / 10);
    }
  }

  /** The text of a natural number has no sign, no surrounding whitespace and only digits. */
  lemma {:induction false} PlainDigits(n: nat)
    ensures var s := IntToString(n);
      s != [] && Strip(s) == s && s[0] != '-' && s[0] != '+' && AllDigits(s)
  {
    var s := IntToString(n);
    DigitsRoundTrip(n);
    DigitIsPlain(s[0]);
    DigitIsPlain(s[|s| - 1]);
    StripUnchanged(s);
  }

  /** An unsigned or `-`-signed run of digits reads back as its value. */
  lemma {:induction false} SignedDigitsValue(negative: bool, ds: string)
    requires ds != [] && AllDigits(ds) && ds[0] != '-' && ds[0] != '+'
    ensures SignedDigits((if negative then "-" else "") + ds)
         == Ok(if negative then -(DigitsValue(ds) as int) else DigitsValue(ds))
  {
    var t := (if negative then "-" else "") + ds;
    if negative {
      assert t[0] == '-' && t[1..] == ds;
    } else {
      assert t == ds;
    }
  }

  lemma {:induction false} ParseNatural(n: nat)
    ensures ParseInt(IntToString(n)) == Ok(n)
  {
    PlainDigits(n);
    DigitsRoundTrip(n);
    UnsignedDigits(IntToString(n));
  }

  /** A run of digits without a sign reads back as its value. */
  lemma {:induction false} UnsignedDigits(ds: string)
    requires ds != [] && AllDigits(ds) && ds[0] != '-' && ds[0] != '+'
    ensures SignedDigits(ds) == Ok(DigitsValue(ds))
  {
  }

  lemma {:induction false} ParseNegative(i: int)
    requires i < 0
    ensures ParseInt(IntToString(i)) == Ok(i)
  {
    var n: nat := -i;
    var ds := IntToString(n);
    var s := IntToString(i);
    assert s == "-" + ds;
    assert ds != [] && AllDigits(ds) && ds[0] != '-' && ds[0] != '+' && DigitsValue(ds) == n by {
      DigitsRoundTrip(n);
      DigitIsPlain(ds[0]);
    }
    assert Strip(s) == s by {
      assert s[0] == '-' && s[|s| - 1] == ds[|ds| - 1];
      DigitIsPlain(ds[|ds| - 1]);
      StripUnchanged(s);
    }
    assert SignedDigits(s) == Ok(i) by {
      SignedDigitsValue(true, ds);
    }
  }

  /** `int(str(i)) == i`: the count written as text is read back unchanged. */
  lemma {:induction false} ParseIntRoundTrip(i: int)
    ensures ParseInt(IntToString(i)) == Ok(i)
  {
    if i >= 0 {
      ParseNatural(i);
    } else {
      ParseNegative(i);
    }
  }

  // ---------------------------------------------------------------------------------------
  // Properties of the lists

  /** The samples line is empty or ends with a line break. */
  lemma {:induction false} SamplesLineShape(pattern: Json, sep: string)
    requires SamplesLine(pattern, sep).Ok?
    ensures var s := SamplesLine(pattern, sep).value; s == [] || s[|s| - 1] == '\n'
  {
  }

  /** Every entry starts with its number and ends with a blank line. */
  lemma {:induction false} EntryShape(kind: ListKind, i: nat, pattern: Json, sep: string, fixed1: Json -> Result<string>)
    requires Entry(kind, i, pattern, sep, fixed1).Ok?
    ensures var e := Entry(kind, i, pattern, sep, fixed1).value;
      StartsWith(e, IntToString(i) + ". [") && |e| >= 2 && e[|e| - 2..] == "\n\n"
  {
    SamplesLineShape(pattern, sep);
    LinesShape(Header(kind, i, pattern, fixed1).value, SamplesLine(pattern, sep).value, IntToString(i) + ". [");
  }

  /** A line, an optional line and a line break: the text keeps the first line's start and ends
      with an empty line. */
  lemma {:induction false} LinesShape(header: string, samples: string, prefix: string)
    requires StartsWith(header, prefix) && header != [] && header[|header| - 1] == '\n'
    requires samples == [] || samples[|samples| - 1] == '\n'
    ensures var e := header + samples + "\n";
      StartsWith(e, prefix) && |e| >= 2 && e[|e| - 2..] == "\n\n"
  {
    var body := header + samples;
    var e := body + "\n";
    assert body[|body| - 1] == '\n';
    assert e[..|prefix|] == header[..|prefix|];
    assert e[|e| - 2..] == [body[|body| - 1], '\n'];
  }

  /** A list of dicts renders every entry in order, numbered from 1. */
  lemma {:induction false} EntriesAppend(kind: ListKind, ps: seq<Json>, p: Json, sep: string, fixed1: Json -> Result<string>)
    requires Entries(kind, ps, sep, fixed1).Ok? && Entry(kind, |ps| + 1, p, sep, fixed1).Ok?
    ensures Entries(kind, ps + [p], sep, fixed1)
            == Ok(Entries(kind, ps, sep, fixed1).value + Entry(kind, |ps| + 1, p, sep, fixed1).value)
  {
    assert (ps + [p])[..|ps + [p]| - 1] == ps;
  }

  /** A pattern that is not a dict makes the whole list fail with AttributeError. */
  lemma {:induction false} NonDictFails(kind: ListKind, ps: seq<Json>, k: nat, sep: string, fixed1: Json -> Result<string>)
    requires k < |ps| && !ps[k].JObject?
    ensures Entries(kind, ps, sep, fixed1).Err?
  {
    var init := ps[..|ps| - 1];
    if k < |ps| - 1 {
      assert init[k] == ps[k];
      NonDictFails(kind, init, k, sep, fixed1);
    }
  }

  /** At most five sample references are named per entry. */
  lemma {:induction false} AtMostFiveSamples(refs: Json)
    requires PyPrefix(refs, 5).Ok?
    ensures |SampleLabels(PyPrefix(refs, 5).value)| <= 5
  {
  }

  lemma {:induction false} EntriesErrStays(kind: ListKind, ps: seq<Json>, n: nat, sep: string, fixed1: Json -> Result<string>)
    requires n <= |ps| && Entries(kind, ps[..n], sep, fixed1).Err?
    ensures Entries(kind, ps, sep, fixed1) == Entries(kind, ps[..n], sep, fixed1)
    decreases |ps| - n
  {
    if n < |ps| {
      assert ps[..n + 1][..n] == ps[..n];
      EntriesErrStays(kind, ps, n + 1, sep, fixed1);
    } else {
      assert ps[..n] == ps;
    }
  }

  // ---------------------------------------------------------------------------------------
  // The loops of the source

  /** The inner loop collecting `sample_refs`. */
  method CollectSampleLabels(refs: seq<Json>) returns (labels: seq<string>)
    ensures labels == SampleLabels(refs)
  {
    labels := [];
    var j := 0;
    while j < |refs|
      invariant 0 <= j <= |refs|
      invariant labels == SampleLabels(refs[..j])
    {
      assert refs[..j + 1][..j] == refs[..j];
      var parts := SampleLinks.RefParts(refs[j]);
      if Truthy(parts.0) && Truthy(parts.1) {
        labels := labels + ["Sample " + IntToString(j + 1) + " (" + PyStr(parts.0) + "/" + PyStr(parts.1) + ")"];
      }
      j := j + 1;
    }
    assert refs[..j] == refs;
  }

  /** The `if "sample_doc_references" in pattern` block of one turn of the outer loop. */
  method SamplesText(pattern: Json, sep: string) returns (r: Result<string>)
    ensures r == SamplesLine(pattern, sep)
  {
    var has := PyIn(SampleLinks.RefsKey, pattern);
    if has.Err? {
      return Err(has.error);
    }
    if !has.value {
      return Ok("");
    }
    var refs := PyIndex(pattern, SampleLinks.RefsKey);
    if refs.Err? {
      return Err(refs.error);
    }
    if !Truthy(refs.value) {
      return Ok("");
    }
    var first := PyPrefix(refs.value, 5);
    if first.Err? {
      return Err(first.error);
    }
    var labels := CollectSampleLabels(first.value);
    r := Ok("   Sample documents: " + Join(sep, labels) + "\n");
  }

  /** One turn of the outer loop: `text += ...` three times. */
  method EntryText(kind: ListKind, i: nat, pattern: Json, sep: string, fixed1: Json -> Result<string>) returns (r: Result<string>)
    ensures r == Entry(kind, i, pattern, sep, fixed1)
  {
    var header := Header(kind, i, pattern, fixed1);
    if header.Err? {
      return Err(header.error);
    }
    var samples := SamplesText(pattern, sep);
    if samples.Err? {
      return Err(samples.error);
    }
    var text := header.value;
    text := text + samples.value;
    text := text + "\n";
    r := Ok(text);
  }

  /** The outer loop over `enumerate(patterns, 1)`. */
  method PatternListText(kind: ListKind, patterns: seq<Json>, sep: string, fixed1: Json -> Result<string>) returns (r: Result<string>)
    ensures r == ListText(kind, patterns, sep, fixed1)
  {
    if patterns == [] {
      return Ok(EmptyMessage(kind));
    }
    var text := "";
    var i := 0;
    while i < |patterns|
      invariant 0 <= i <= |patterns|
      invariant Entries(kind, patterns[..i], sep, fixed1) == Ok(text)
    {
      assert patterns[..i + 1][..i] == patterns[..i];
      var entry := EntryText(kind, i + 1, patterns[i], sep, fixed1);
      if entry.Err? {
        EntriesErrStays(kind, patterns, i + 1, sep, fixed1);
        return Err(entry.error);
      }
      text := text + entry.value;
      i := i + 1;
    }
    assert patterns[..i] == patterns;
    r := Ok(text);
  }
}
