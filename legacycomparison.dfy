/** The older comparison step (`step6_compare_normalizations.py`). It works on the two dicts
    keyed by pattern text, so duplicates collapse to their last entry, writes smaller records,
    sorts the changed patterns by percentage only, and divides by a previous count of 0. */
module LegacyComparison {
  import opened Wrappers
  import opened Sorting
  import opened PatternTable

  datatype Entry =
    | Appeared(text: string, count: int, refs: seq<string>)
    | Shifted(text: string, current: int, previous: int, absolute: int, percent: real, refs: seq<string>)

  /** `x["count"]` for new and disappeared entries, `x["percent_change"]` for the others. */
  function EntryKey(e: Entry): Rank {
    match e
    case Appeared(_, count, _) => CountRank(count)
    case Shifted(_, _, _, _, percent, _) => Rank(percent, 0, 0)
  }

  predicate Moved(current: int, previous: int, up: bool) {
    if up then current > previous else current < previous
  }

  /** The keys of `m`, in `texts` order, that `against` lacks. */
  function Unmatched(texts: seq<string>, m: map<string, Pattern>, against: map<string, Pattern>): seq<Entry>
    requires forall t :: t in texts ==> t in m
  {
    if texts == [] then []
    else
      var t := texts[|texts| - 1];
      Unmatched(texts[..|texts| - 1], m, against)
      + (if t !in against then [Appeared(t, m[t].count, OrElse(m[t].sampleDocRefs, []))] else [])
  }

  /** The shared keys whose count moved, or ZeroDivisionError at the first one whose previous
      count is 0. */
  function Shifts(texts: seq<string>, cur: map<string, Pattern>, prev: map<string, Pattern>, up: bool): Result<seq<Entry>>
    requires forall t :: t in texts ==> t in cur
  {
    if texts == [] then Ok([])
    else
      var t := texts[|texts| - 1];
      var init :- Shifts(texts[..|texts| - 1], cur, prev, up);
      if t in prev && Moved(cur[t].count, prev[t].count, up) then
        var c, p := cur[t].count, prev[t].count;
        if p == 0 then Err(ZeroDivisionError)
        else
          var absolute := if up then c - p else p - c;
          Ok(init + [Shifted(t, c, p, absolute, absolute as real / p as real * 100.0, OrElse(cur[t].sampleDocRefs, []))])
      else Ok(init)
  }

  datatype Comparison = Comparison(
    currentPatternsCount: nat,
    previousPatternsCount: nat,
    newPatterns: seq<Entry>,
    disappearedPatterns: seq<Entry>,
    increasedPatterns: seq<Entry>,
    decreasedPatterns: seq<Entry>)

  /** The whole step between reading and writing the files. */
  function Compare(current: seq<Pattern>, previous: seq<Pattern>): Result<Comparison> {
    DistinctTextsInTable(current);
    DistinctTextsInTable(previous);
    var cur, prev := ByText(current), ByText(previous);
    var increased :- Shifts(DistinctTexts(current), cur, prev, true);
    var decreased :- Shifts(DistinctTexts(current), cur, prev, false);
    Ok(Comparison(|current|, |previous|,
                  SortDesc(Unmatched(DistinctTexts(current), cur, prev), EntryKey),
                  SortDesc(Unmatched(DistinctTexts(previous), prev, cur), EntryKey),
                  SortDesc(increased, EntryKey),
                  SortDesc(decreased, EntryKey)))
  }

  // ---------------------------------------------------------------------------------------
  // What the classification means

  /** A key is reported as new (or disappeared) exactly when `against` lacks it, with its last
      entry's count and references; `UnmatchedOncePerText` adds that it is reported once. */
  lemma {:induction false} UnmatchedExact(texts: seq<string>, m: map<string, Pattern>, against: map<string, Pattern>, e: Entry)
    requires forall t :: t in texts ==> t in m
    ensures e in Unmatched(texts, m, against)
            <==> e.text in texts && e.text !in against
                 && e == Appeared(e.text, m[e.text].count, OrElse(m[e.text].sampleDocRefs, []))
  {
    if texts != [] {
      var init := texts[..|texts| - 1];
      UnmatchedExact(init, m, against, e);
      if e.text in texts && e.text != texts[|texts| - 1] {
        var k :| 0 <= k < |texts| && texts[k] == e.text;
        assert init[k] == e.text;
      }
    }
  }

  /** Over the dict's distinct keys, each new (or disappeared) text is reported once. */
  lemma {:induction false} UnmatchedOncePerText(texts: seq<string>, m: map<string, Pattern>, against: map<string, Pattern>)
    requires forall t :: t in texts ==> t in m
    requires forall i, j :: 0 <= i < j < |texts| ==> texts[i] != texts[j]
    ensures OncePerText(Unmatched(texts, m, against))
  {
    if texts != [] {
      var init := texts[..|texts| - 1];
      var t := texts[|texts| - 1];
      UnmatchedOncePerText(init, m, against);
      var r0 := Unmatched(init, m, against);
      forall e | e in r0 ensures e.text != t {
        UnmatchedExact(init, m, against, e);
        var k :| 0 <= k < |init| && init[k] == e.text;
        assert texts[k] == e.text;
      }
      var r := Unmatched(texts, m, against);
      if |r| != |r0| {
        assert r[..|r0|] == r0 && |r| == |r0| + 1 && r[|r0|].text == t;
        forall i, j | 0 <= i < j < |r| ensures r[i].text != r[j].text {
          assert r[i] == r0[i];
          if j == |r| - 1 {
            assert r[i] in r0;
          } else {
            assert r[j] == r0[j];
          }
        }
      }
    }
  }

  /** The changed-pattern loops fail exactly when some shared key moved away from a previous
      count of 0. */
  lemma {:induction false} ShiftsFailIff(texts: seq<string>, cur: map<string, Pattern>, prev: map<string, Pattern>, up: bool)
    requires forall t :: t in texts ==> t in cur
    ensures Shifts(texts, cur, prev, up).Err?
            <==> exists t :: t in texts && t in prev && Moved(cur[t].count, prev[t].count, up) && prev[t].count == 0
    ensures Shifts(texts, cur, prev, up).Err? ==> Shifts(texts, cur, prev, up).error == ZeroDivisionError
  {
    if texts != [] {
      var init := texts[..|texts| - 1];
      var last := texts[|texts| - 1];
      ShiftsFailIff(init, cur, prev, up);
      if exists t :: t in texts && t in prev && Moved(cur[t].count, prev[t].count, up) && prev[t].count == 0 {
        var t :| t in texts && t in prev && Moved(cur[t].count, prev[t].count, up) && prev[t].count == 0;
        if t != last {
          var k :| 0 <= k < |texts| && texts[k] == t;
          assert init[k] == t;
        }
      }
    }
  }

  /** On success each changed entry is a shared key whose count moved, with a positive absolute
      change and `percent = absolute / previous * 100`. */
  lemma {:induction false} ShiftsSound(texts: seq<string>, cur: map<string, Pattern>, prev: map<string, Pattern>, up: bool, e: Entry)
    requires forall t :: t in texts ==> t in cur
    requires Shifts(texts, cur, prev, up).Ok? && e in Shifts(texts, cur, prev, up).value
    ensures e.Shifted? && e.text in texts && e.text in prev
    ensures e.current == cur[e.text].count && e.previous == prev[e.text].count != 0
    ensures Moved(e.current, e.previous, up) && e.absolute > 0
    ensures e.absolute == if up then e.current - e.previous else e.previous - e.current
    ensures e.percent * e.previous as real == e.absolute as real * 100.0
  {
    var init := texts[..|texts| - 1];
    if e in Shifts(init, cur, prev, up).value {
      ShiftsSound(init, cur, prev, up, e);
    }
  }

  /** On success every shared key whose count moved has a changed entry. */
  lemma {:induction false} ShiftsComplete(texts: seq<string>, cur: map<string, Pattern>, prev: map<string, Pattern>, up: bool, t: string)
    requires forall u :: u in texts ==> u in cur
    requires Shifts(texts, cur, prev, up).Ok?
    requires t in texts && t in prev && Moved(cur[t].count, prev[t].count, up)
    ensures exists e :: e in Shifts(texts, cur, prev, up).value && e.Shifted? && e.text == t
  {
    var last := texts[|texts| - 1];
    var init := texts[..|texts| - 1];
    var r0 := Shifts(init, cur, prev, up);
    assert r0.Ok?;
    if t != last {
      assert t in init by {
        var k :| 0 <= k < |texts| && texts[k] == t;
        assert init[k] == t;
      }
      ShiftsComplete(init, cur, prev, up, t);
      var e :| e in r0.value && e.Shifted? && e.text == t;
      assert e in Shifts(texts, cur, prev, up).value;
    } else {
      var c, p := cur[t].count, prev[t].count;
      var absolute := if up then c - p else p - c;
      var e := Shifted(t, c, p, absolute, absolute as real / p as real * 100.0, OrElse(cur[t].sampleDocRefs, []));
      assert Shifts(texts, cur, prev, up).value == r0.value + [e];
    }
  }

  predicate OncePerText(r: seq<Entry>) {
    forall i, j :: 0 <= i < j < |r| ==> r[i].text != r[j].text
  }

  /** Over distinct keys, a key gets at most one changed entry. */
  lemma {:induction false} ShiftsOncePerText(texts: seq<string>, cur: map<string, Pattern>, prev: map<string, Pattern>, up: bool)
    requires forall t :: t in texts ==> t in cur
    requires forall i, j :: 0 <= i < j < |texts| ==> texts[i] != texts[j]
    requires Shifts(texts, cur, prev, up).Ok?
    ensures OncePerText(Shifts(texts, cur, prev, up).value)
  {
    if texts != [] {
      var init := texts[..|texts| - 1];
      var t := texts[|texts| - 1];
      assert Shifts(init, cur, prev, up).Ok?;
      ShiftsOncePerText(init, cur, prev, up);
      var r0 := Shifts(init, cur, prev, up).value;
      forall e | e in r0 ensures e.text != t {
        ShiftsSound(init, cur, prev, up, e);
        var k :| 0 <= k < |init| && init[k] == e.text;
        assert texts[k] == e.text;
      }
      var r := Shifts(texts, cur, prev, up).value;
      if |r| != |r0| {
        assert r[..|r0|] == r0 && |r| == |r0| + 1 && r[|r0|].text == t;
        forall i, j | 0 <= i < j < |r| ensures r[i].text != r[j].text {
          assert r[i] == r0[i];
          if j == |r| - 1 {
            assert r[i] in r0;
          } else {
            assert r[j] == r0[j];
          }
        }
      }
    }
  }

  lemma {:induction false} OnceEach(r: seq<Entry>, x: Entry)
    requires OncePerText(r)
    ensures multiset(r)[x] <= 1
  {
    if r != [] {
      var init := r[..|r| - 1];
      assert r == init + [r[|r| - 1]];
      OnceEach(init, x);
      if r[|r| - 1] == x {
        forall k | 0 <= k < |init| ensures init[k] != x {
          assert r[k] == init[k];
        }
      }
    }
  }

  lemma {:induction false} TwiceCounted(s: seq<Entry>, i: nat, j: nat)
    requires i < j < |s| && s[i] == s[j]
    ensures multiset(s)[s[i]] >= 2
  {
    assert s == s[..j] + s[j..];
    assert s[i] in s[..j] && s[j] == s[j..][0];
  }

  /** The sort keeps one entry per text. */
  lemma {:induction false} OncePerTextPermuted(r: seq<Entry>, s: seq<Entry>)
    requires OncePerText(r) && multiset(r) == multiset(s)
    ensures OncePerText(s)
  {
    forall i, j | 0 <= i < j < |s| ensures s[i].text != s[j].text {
      if s[i] == s[j] {
        TwiceCounted(s, i, j);
        OnceEach(r, s[i]);
      } else {
        assert s[i] in multiset(r) && s[j] in multiset(r);
        var a :| 0 <= a < |r| && r[a] == s[i];
        var b :| 0 <= b < |r| && r[b] == s[j];
        assert a < b || b < a;
      }
    }
  }

  /** In a successful comparison a text is in the increased (decreased) list exactly when both
      runs hold it and its count went up (down), and it is listed once. */
  lemma {:induction false} ChangedLists(current: seq<Pattern>, previous: seq<Pattern>, t: string)
    requires Compare(current, previous).Ok?
    ensures var c := Compare(current, previous).value;
      && OncePerText(c.increasedPatterns) && OncePerText(c.decreasedPatterns)
      && ((exists e :: e in c.increasedPatterns && e.text == t)
          <==> t in ByText(current) && t in ByText(previous)
               && ByText(current)[t].count > ByText(previous)[t].count)
      && ((exists e :: e in c.decreasedPatterns && e.text == t)
          <==> t in ByText(current) && t in ByText(previous)
               && ByText(current)[t].count < ByText(previous)[t].count)
  {
    DistinctTextsInTable(current);
    DistinctTextsSpec(current);
    ByTextKeys(current);
    ChangedList(current, previous, t, true);
    ChangedList(current, previous, t, false);
  }

  lemma {:induction false} ChangedList(current: seq<Pattern>, previous: seq<Pattern>, t: string, up: bool)
    requires forall u :: u in DistinctTexts(current) ==> u in ByText(current)
    requires forall u :: u in DistinctTexts(current) <==> u in ByText(current)
    requires forall i, j :: 0 <= i < j < |DistinctTexts(current)| ==> DistinctTexts(current)[i] != DistinctTexts(current)[j]
    requires Shifts(DistinctTexts(current), ByText(current), ByText(previous), up).Ok?
    ensures var s := SortDesc(Shifts(DistinctTexts(current), ByText(current), ByText(previous), up).value, EntryKey);
      && OncePerText(s)
      && ((exists e :: e in s && e.text == t)
          <==> t in ByText(current) && t in ByText(previous)
               && Moved(ByText(current)[t].count, ByText(previous)[t].count, up))
  {
    var texts, cur, prev := DistinctTexts(current), ByText(current), ByText(previous);
    var r := Shifts(texts, cur, prev, up).value;
    var s := SortDesc(r, EntryKey);
    SortDescPermutes(r, EntryKey);
    ShiftsOncePerText(texts, cur, prev, up);
    OncePerTextPermuted(r, s);
    if exists e :: e in s && e.text == t {
      var e :| e in s && e.text == t;
      assert e in multiset(r);
      ShiftsSound(texts, cur, prev, up, e);
    }
    if t in cur && t in prev && Moved(cur[t].count, prev[t].count, up) {
      ShiftsComplete(texts, cur, prev, up, t);
      var e :| e in r && e.Shifted? && e.text == t;
      assert e in multiset(s);
    }
  }

  /** A comparison whose increase starts from a previous count of 0 fails as a whole. */
  lemma {:induction false} ZeroPreviousFails(current: seq<Pattern>, previous: seq<Pattern>, t: string)
    requires t in ByText(current) && t in ByText(previous)
    requires ByText(previous)[t].count == 0 && ByText(current)[t].count > 0
    ensures Compare(current, previous) == Err(ZeroDivisionError)
  {
    DistinctTextsInTable(current);
    ByTextKeys(current);
    DistinctTextsSpec(current);
    ShiftsFailIff(DistinctTexts(current), ByText(current), ByText(previous), true);
  }

  // ---------------------------------------------------------------------------------------
  // The loops of the source

  /** The loop filling the new (or disappeared) list. */
  method CollectUnmatched(texts: seq<string>, m: map<string, Pattern>, against: map<string, Pattern>) returns (r: seq<Entry>)
    requires forall t :: t in texts ==> t in m
    ensures r == Unmatched(texts, m, against)
  {
    r := [];
    var i := 0;
    while i < |texts|
      invariant 0 <= i <= |texts|
      invariant r == Unmatched(texts[..i], m, against)
    {
      assert texts[..i + 1][..i] == texts[..i];
      var t := texts[i];
      if t !in against {
        r := r + [Appeared(t, m[t].count, OrElse(m[t].sampleDocRefs, []))];
      }
      i := i + 1;
    }
    assert texts[..i] == texts;
  }

  lemma {:induction false} ShiftsErrStays(texts: seq<string>, n: nat, cur: map<string, Pattern>, prev: map<string, Pattern>, up: bool)
    requires n <= |texts| && forall t :: t in texts ==> t in cur
    requires Shifts(texts[..n], cur, prev, up).Err?
    ensures Shifts(texts, cur, prev, up) == Shifts(texts[..n], cur, prev, up)
    decreases |texts| - n
  {
    if n < |texts| {
      assert texts[..n + 1][..n] == texts[..n];
      ShiftsErrStays(texts, n + 1, cur, prev, up);
    } else {
      assert texts[..n] == texts;
    }
  }

  /** The loop filling the increased (or decreased) list; the division raises on a previous
      count of 0. */
  method CollectShifts(texts: seq<string>, cur: map<string, Pattern>, prev: map<string, Pattern>, up: bool) returns (r: Result<seq<Entry>>)
    requires forall t :: t in texts ==> t in cur
    ensures r == Shifts(texts, cur, prev, up)
  {
    var acc: seq<Entry> := [];
    var i := 0;
    while i < |texts|
      invariant 0 <= i <= |texts|
      invariant Shifts(texts[..i], cur, prev, up) == Ok(acc)
    {
      assert texts[..i + 1][..i] == texts[..i];
      var t := texts[i];
      if t in prev {
        var c, p := cur[t].count, prev[t].count;
        if Moved(c, p, up) {
          if p == 0 {
            ShiftsErrStays(texts, i + 1, cur, prev, up);
            return Err(ZeroDivisionError);
          }
          var absolute := if up then c - p else p - c;
          acc := acc + [Shifted(t, c, p, absolute, absolute as real / p as real * 100.0, OrElse(cur[t].sampleDocRefs, []))];
        }
      }
      i := i + 1;
    }
    assert texts[..i] == texts;
    r := Ok(acc);
  }

  /** `compare_normalizations` of the older pipeline. */
  method CompareNormalizations(current: seq<Pattern>, previous: seq<Pattern>) returns (r: Result<Comparison>)
    ensures r == Compare(current, previous)
    ensures r.Ok? ==> r.value.currentPatternsCount == |current| && r.value.previousPatternsCount == |previous|
    ensures r.Ok? ==> SortedDesc(r.value.newPatterns, EntryKey) && SortedDesc(r.value.disappearedPatterns, EntryKey)
    ensures r.Ok? ==> SortedDesc(r.value.increasedPatterns, EntryKey) && SortedDesc(r.value.decreasedPatterns, EntryKey)
    ensures r.Ok? ==> OncePerText(r.value.increasedPatterns) && OncePerText(r.value.decreasedPatterns)
    ensures r.Ok? ==> OncePerText(r.value.newPatterns) && OncePerText(r.value.disappearedPatterns)
  {
    var cur, prev := ByText(current), ByText(previous);
    DistinctTextsInTable(current);
    DistinctTextsInTable(previous);
    var newPatterns := CollectUnmatched(DistinctTexts(current), cur, prev);
    newPatterns := SortDesc(newPatterns, EntryKey);
    var disappeared := CollectUnmatched(DistinctTexts(previous), prev, cur);
    disappeared := SortDesc(disappeared, EntryKey);
    var increased := CollectShifts(DistinctTexts(current), cur, prev, true);
    if increased.Err? {
      return Err(increased.error);
    }
    var decreased := CollectShifts(DistinctTexts(current), cur, prev, false);
    if decreased.Err? {
      return Err(decreased.error);
    }
    r := Ok(Comparison(|current|, |previous|, newPatterns, disappeared,
                       SortDesc(increased.value, EntryKey), SortDesc(decreased.value, EntryKey)));
    SortDescSorted(Unmatched(DistinctTexts(current), cur, prev), EntryKey);
    SortDescSorted(Unmatched(DistinctTexts(previous), prev, cur), EntryKey);
    SortDescSorted(increased.value, EntryKey);
    SortDescSorted(decreased.value, EntryKey);
    ChangedLists(current, previous, "");
    DistinctTextsSpec(current);
    UnmatchedSortedOnce(DistinctTexts(current), cur, prev);
    DistinctTextsSpec(previous);
    UnmatchedSortedOnce(DistinctTexts(previous), prev, cur);
  }

  /** The sorted new (or disappeared) list holds each text once. */
  lemma {:induction false} UnmatchedSortedOnce(texts: seq<string>, m: map<string, Pattern>, against: map<string, Pattern>)
    requires forall t :: t in texts ==> t in m
    requires forall i, j :: 0 <= i < j < |texts| ==> texts[i] != texts[j]
    ensures OncePerText(SortDesc(Unmatched(texts, m, against), EntryKey))
  {
    UnmatchedOncePerText(texts, m, against);
    SortDescPermutes(Unmatched(texts, m, against), EntryKey);
    OncePerTextPermuted(Unmatched(texts, m, against), SortDesc(Unmatched(texts, m, against), EntryKey));
  }
}
