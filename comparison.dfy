/** Comparison of the current normalisation results with the previous run's
    (`step8_compare_normalizations.py`): every pattern text is new, disappeared, increased,
    decreased or unchanged. Percentages are exact rationals; the source rounds them to one
    decimal, which is not modelled. */
module PatternComparison {
  import opened Wrappers
  import opened Sorting
  import opened PatternTable

  datatype Change = Change(current: int, previous: int, absolute: int, percent: real)

  /** A pattern as written to the comparison file: optional fields filled with their defaults,
      plus the change figures for increased and decreased patterns. */
  datatype Reported = Reported(
    clusterId: int,
    count: int,
    text: string,
    firstSeen: string,
    lastSeen: string,
    sampleLogLines: seq<string>,
    sampleDocRefs: seq<string>,
    change: Option<Change>)

  function Full(p: Pattern, change: Option<Change>): Reported {
    Reported(p.clusterId, p.count, p.text, OrElse(p.firstSeen, ""), OrElse(p.lastSeen, ""),
             OrElse(p.sampleLogLines, []), OrElse(p.sampleDocRefs, []), change)
  }

  /** `get_count`: the sort key of the new and disappeared lists. */
  function CountKey(r: Reported): Rank {
    CountRank(r.count)
  }

  /** The tuple `(percent_change, absolute_change, count)` of the increased and decreased lists. */
  function ChangeKey(r: Reported): Rank {
    match r.change
    case Some(c) => Rank(c.percent, c.absolute, r.count)
    case None => CountRank(r.count)
  }

  /** Percent increase; a previous count of 0 falls back to 100. */
  function IncreasePercent(current: int, previous: int): (r: real)
    ensures previous <= 0 ==> r == 100.0
    ensures previous > 0 ==> r * previous as real == (current - previous) as real * 100.0
    ensures previous > 0 && current > previous ==> r > 0.0
  {
    if previous > 0 then (current - previous) as real / previous as real * 100.0 else 100.0
  }

  /** Percent decrease; a previous count of 0 falls back to 0. */
  function DecreasePercent(current: int, previous: int): (r: real)
    ensures previous <= 0 ==> r == 0.0
    ensures previous > 0 ==> r * previous as real == (previous - current) as real * 100.0
    ensures previous > 0 && current < previous ==> r > 0.0
  {
    if previous > 0 then (previous - current) as real / previous as real * 100.0 else 0.0
  }

  /** The entries of `from`, in order and duplicates included, whose text never occurs in
      `against`. New patterns are `Unmatched(current, previous)`; disappeared patterns are
      `Unmatched(previous, current)`. */
  function Unmatched(from: seq<Pattern>, against: seq<Pattern>): seq<Reported> {
    if from == [] then []
    else
      var last := from[|from| - 1];
      Unmatched(from[..|from| - 1], against)
      + (if last.text in TextSet(against) then [] else [Full(last, None)])
  }

  /** The record of a text whose count moved from `previous` to `cur.count`. */
  function ShiftRecord(cur: Pattern, previous: int, up: bool): Reported {
    var absolute := if up then cur.count - previous else previous - cur.count;
    var percent := if up then IncreasePercent(cur.count, previous) else DecreasePercent(cur.count, previous);
    Full(cur, Some(Change(cur.count, previous, absolute, percent)))
  }

  predicate Moved(current: int, previous: int, up: bool) {
    if up then current > previous else current < previous
  }

  /** The shared texts, visited in `texts` order, whose count went up (`up`) or down. */
  function Shifted(texts: seq<string>, cur: map<string, Pattern>, prev: map<string, Pattern>, up: bool): seq<Reported>
    requires forall t :: t in texts ==> t in cur
  {
    if texts == [] then []
    else
      var t := texts[|texts| - 1];
      Shifted(texts[..|texts| - 1], cur, prev, up)
      + (if t in prev && Moved(cur[t].count, prev[t].count, up) then [ShiftRecord(cur[t], prev[t].count, up)] else [])
  }

  /** `_find_increased_patterns` / `_find_decreased_patterns` before sorting. */
  function Shifts(current: seq<Pattern>, previous: seq<Pattern>, up: bool): seq<Reported> {
    DistinctTextsInTable(current);
    Shifted(DistinctTexts(current), ByText(current), ByText(previous), up)
  }

  // ---------------------------------------------------------------------------------------
  // What the classification means

  /** An entry is unmatched exactly when it comes from an entry of `from` whose text is absent
      from `against`, with the optional fields filled in. */
  lemma {:induction false} UnmatchedExact(from: seq<Pattern>, against: seq<Pattern>, e: Reported)
    ensures e in Unmatched(from, against)
            <==> exists k :: 0 <= k < |from| && from[k].text !in TextSet(against) && e == Full(from[k], None)
  {
    if from != [] {
      var init := from[..|from| - 1];
      UnmatchedExact(init, against, e);
      if e in Unmatched(init, against) {
        var k :| 0 <= k < |init| && init[k].text !in TextSet(against) && e == Full(init[k], None);
        assert from[k] == init[k];
      }
      if exists k :: 0 <= k < |from| && from[k].text !in TextSet(against) && e == Full(from[k], None) {
        var k :| 0 <= k < |from| && from[k].text !in TextSet(against) && e == Full(from[k], None);
        if k < |from| - 1 {
          assert init[k] == from[k];
        }
      }
    }
  }

  /** Against an empty list every entry is unmatched, duplicates included. */
  lemma {:induction false} UnmatchedKeepsDuplicates(from: seq<Pattern>)
    ensures |Unmatched(from, [])| == |from|
  {
    if from != [] {
      UnmatchedKeepsDuplicates(from[..|from| - 1]);
    }
  }

  /** Every increased or decreased record belongs to a text present in both runs, carries the
      current count, and a strictly positive change computed from the two runs' last entries. */
  lemma {:induction false} ShiftedSound(texts: seq<string>, cur: map<string, Pattern>, prev: map<string, Pattern>, up: bool, e: Reported)
    requires forall t :: t in texts ==> t in cur
    requires forall t :: t in cur ==> cur[t].text == t
    requires e in Shifted(texts, cur, prev, up)
    ensures e.text in texts && e.text in prev && e.change.Some?
    ensures e.count == e.change.value.current == cur[e.text].count
    ensures e.change.value.previous == prev[e.text].count
    ensures Moved(e.change.value.current, e.change.value.previous, up)
    ensures e.change.value.absolute > 0
    ensures e.change.value.absolute
            == if up then e.change.value.current - e.change.value.previous
               else e.change.value.previous - e.change.value.current
    ensures e.change.value.percent
            == if up then IncreasePercent(e.change.value.current, e.change.value.previous)
               else DecreasePercent(e.change.value.current, e.change.value.previous)
  {
    var init := texts[..|texts| - 1];
    if e in Shifted(init, cur, prev, up) {
      ShiftedSound(init, cur, prev, up, e);
    }
  }

  /** Every shared text whose count moved has a record. */
  lemma {:induction false} ShiftedComplete(texts: seq<string>, cur: map<string, Pattern>, prev: map<string, Pattern>, up: bool, t: string)
    requires forall u :: u in texts ==> u in cur
    requires forall u :: u in cur ==> cur[u].text == u
    requires t in texts && t in prev && Moved(cur[t].count, prev[t].count, up)
    ensures exists e :: e in Shifted(texts, cur, prev, up) && e.text == t
  {
    var last := texts[|texts| - 1];
    var init := texts[..|texts| - 1];
    if t != last {
      assert t in init by {
        var k :| 0 <= k < |texts| && texts[k] == t;
        assert init[k] == t;
      }
      ShiftedComplete(init, cur, prev, up, t);
      var e :| e in Shifted(init, cur, prev, up) && e.text == t;
      assert e in Shifted(texts, cur, prev, up);
    } else {
      assert ShiftRecord(cur[t], prev[t].count, up) in Shifted(texts, cur, prev, up);
    }
  }

  predicate OncePerText(r: seq<Reported>) {
    forall i, j :: 0 <= i < j < |r| ==> r[i].text != r[j].text
  }

  /** A text is reported at most once. */
  lemma {:induction false} ShiftedOncePerText(texts: seq<string>, cur: map<string, Pattern>, prev: map<string, Pattern>, up: bool)
    requires forall t :: t in texts ==> t in cur
    requires forall t :: t in cur ==> cur[t].text == t
    requires forall i, j :: 0 <= i < j < |texts| ==> texts[i] != texts[j]
    ensures OncePerText(Shifted(texts, cur, prev, up))
  {
    if texts != [] {
      var init := texts[..|texts| - 1];
      var t := texts[|texts| - 1];
      ShiftedOncePerText(init, cur, prev, up);
      var r0 := Shifted(init, cur, prev, up);
      forall e | e in r0 ensures e.text != t {
        ShiftedSound(init, cur, prev, up, e);
        var k :| 0 <= k < |init| && init[k] == e.text;
        assert texts[k] == e.text;
      }
      var r := Shifted(texts, cur, prev, up);
      if t in prev && Moved(cur[t].count, prev[t].count, up) {
        assert r == r0 + [ShiftRecord(cur[t], prev[t].count, up)];
        forall i, j | 0 <= i < j < |r| ensures r[i].text != r[j].text {
          if j == |r| - 1 {
            assert r[i] == r0[i];
            assert r[i] in r0;
          } else {
            assert r[i] == r0[i] && r[j] == r0[j];
          }
        }
      } else {
        assert r == r0;
      }
    }
  }

  /** Increased and decreased lists hold one entry per distinct shared text. */
  lemma {:induction false} ShiftsOncePerText(current: seq<Pattern>, previous: seq<Pattern>, up: bool)
    ensures OncePerText(Shifts(current, previous, up))
  {
    DistinctTextsSpec(current);
    DistinctTextsInTable(current);
    ShiftedOncePerText(DistinctTexts(current), ByText(current), ByText(previous), up);
  }

  /** The four classes partition the texts: a text present in only one run is new or
      disappeared, a shared text is increased, decreased or (with equal counts) in no list, and
      the shared text's counts are those of the last duplicate in each list. */
  lemma {:induction false} Classification(current: seq<Pattern>, previous: seq<Pattern>, t: string)
    ensures (exists e :: e in Unmatched(current, previous) && e.text == t)
            <==> t in TextSet(current) && t !in TextSet(previous)
    ensures (exists e :: e in Unmatched(previous, current) && e.text == t)
            <==> t in TextSet(previous) && t !in TextSet(current)
    ensures (exists e :: e in Shifts(current, previous, true) && e.text == t)
            <==> t in ByText(current) && t in ByText(previous)
                 && ByText(current)[t].count > ByText(previous)[t].count
    ensures (exists e :: e in Shifts(current, previous, false) && e.text == t)
            <==> t in ByText(current) && t in ByText(previous)
                 && ByText(current)[t].count < ByText(previous)[t].count
  {
    ByTextKeys(current);
    ByTextKeys(previous);
    DistinctTextsSpec(current);
    DistinctTextsInTable(current);
    UnmatchedClass(current, previous, t);
    UnmatchedClass(previous, current, t);
    ShiftClass(current, previous, t, true);
    ShiftClass(current, previous, t, false);
  }

  lemma {:induction false} UnmatchedClass(from: seq<Pattern>, against: seq<Pattern>, t: string)
    ensures (exists e :: e in Unmatched(from, against) && e.text == t)
            <==> t in TextSet(from) && t !in TextSet(against)
  {
    if exists e :: e in Unmatched(from, against) && e.text == t {
      var e :| e in Unmatched(from, against) && e.text == t;
      UnmatchedExact(from, against, e);
    }
    if t in TextSet(from) && t !in TextSet(against) {
      var k :| 0 <= k < |from| && from[k].text == t;
      UnmatchedExact(from, against, Full(from[k], None));
    }
  }

  lemma {:induction false} ShiftClass(current: seq<Pattern>, previous: seq<Pattern>, t: string, up: bool)
    ensures (exists e :: e in Shifts(current, previous, up) && e.text == t)
            <==> t in ByText(current) && t in ByText(previous)
                 && Moved(ByText(current)[t].count, ByText(previous)[t].count, up)
  {
    ByTextKeys(current);
    ByTextKeys(previous);
    DistinctTextsSpec(current);
    DistinctTextsInTable(current);
    var texts, cur, prev := DistinctTexts(current), ByText(current), ByText(previous);
    if exists e :: e in Shifts(current, previous, up) && e.text == t {
      var e :| e in Shifts(current, previous, up) && e.text == t;
      ShiftedSound(texts, cur, prev, up, e);
    }
    if t in cur && t in prev && Moved(cur[t].count, prev[t].count, up) {
      ShiftedComplete(texts, cur, prev, up, t);
    }
  }

  // ---------------------------------------------------------------------------------------
  // The loops of the source

  /** The loop of `_find_new_patterns` / `_find_disappeared_patterns` before the sort. */
  method CollectUnmatched(from: seq<Pattern>, against: seq<Pattern>) returns (r: seq<Reported>)
    ensures r == Unmatched(from, against)
  {
    var lookup := ByText(against);
    ByTextKeys(against);
    r := [];
    var i := 0;
    while i < |from|
      invariant 0 <= i <= |from|
      invariant r == Unmatched(from[..i], against)
    {
      assert from[..i + 1][..i] == from[..i];
      if from[i].text !in lookup {
        r := r + [Full(from[i], None)];
      }
      i := i + 1;
    }
    assert from[..i] == from;
  }

  /** `_find_new_patterns`: current entries whose text the previous run lacks, largest count first. */
  method FindNewPatterns(current: seq<Pattern>, previous: seq<Pattern>) returns (r: seq<Reported>)
    ensures r == SortDesc(Unmatched(current, previous), CountKey)
    ensures SortedDesc(r, CountKey) && multiset(r) == multiset(Unmatched(current, previous))
  {
    var collected := CollectUnmatched(current, previous);
    r := SortDesc(collected, CountKey);
    SortDescSpec(collected, CountKey);
  }

  /** `_find_disappeared_patterns`: previous entries whose text the current run lacks. */
  method FindDisappearedPatterns(current: seq<Pattern>, previous: seq<Pattern>) returns (r: seq<Reported>)
    ensures r == SortDesc(Unmatched(previous, current), CountKey)
    ensures SortedDesc(r, CountKey) && multiset(r) == multiset(Unmatched(previous, current))
  {
    var collected := CollectUnmatched(previous, current);
    r := SortDesc(collected, CountKey);
    SortDescSpec(collected, CountKey);
  }

  /** The loop over `current_patterns.items()` shared by the increased and decreased searches. */
  method CollectShifts(current: seq<Pattern>, previous: seq<Pattern>, up: bool) returns (r: seq<Reported>)
    ensures r == Shifts(current, previous, up)
  {
    var cur := ByText(current);
    var prev := ByText(previous);
    var texts := DistinctTexts(current);
    DistinctTextsInTable(current);
    r := [];
    var i := 0;
    while i < |texts|
      invariant 0 <= i <= |texts|
      invariant r == Shifted(texts[..i], cur, prev, up)
    {
      assert texts[..i + 1][..i] == texts[..i];
      var t := texts[i];
      if t in prev {
        var currentCount := cur[t].count;
        var previousCount := prev[t].count;
        if Moved(currentCount, previousCount, up) {
          r := r + [ShiftRecord(cur[t], previousCount, up)];
        }
      }
      i := i + 1;
    }
    assert texts[..i] == texts;
  }

  /** `_find_increased_patterns`, sorted by (percent, absolute change, count), largest first. */
  method FindIncreasedPatterns(current: seq<Pattern>, previous: seq<Pattern>) returns (r: seq<Reported>)
    ensures r == SortDesc(Shifts(current, previous, true), ChangeKey)
    ensures SortedDesc(r, ChangeKey) && multiset(r) == multiset(Shifts(current, previous, true))
  {
    var collected := CollectShifts(current, previous, true);
    r := SortDesc(collected, ChangeKey);
    SortDescSpec(collected, ChangeKey);
  }

  /** `_find_decreased_patterns`, sorted the same way. */
  method FindDecreasedPatterns(current: seq<Pattern>, previous: seq<Pattern>) returns (r: seq<Reported>)
    ensures r == SortDesc(Shifts(current, previous, false), ChangeKey)
    ensures SortedDesc(r, ChangeKey) && multiset(r) == multiset(Shifts(current, previous, false))
  {
    var collected := CollectShifts(current, previous, false);
    r := SortDesc(collected, ChangeKey);
    SortDescSpec(collected, ChangeKey);
  }

  datatype Comparison = Comparison(
    currentPatternsCount: nat,
    previousPatternsCount: nat,
    newPatterns: seq<Reported>,
    disappearedPatterns: seq<Reported>,
    increasedPatterns: seq<Reported>,
    decreasedPatterns: seq<Reported>)

  /** `compare_normalizations` between reading and writing the files. */
  method CompareNormalizations(current: seq<Pattern>, previous: seq<Pattern>) returns (c: Comparison)
    ensures c.currentPatternsCount == |current| && c.previousPatternsCount == |previous|
    ensures multiset(c.newPatterns) == multiset(Unmatched(current, previous))
    ensures multiset(c.disappearedPatterns) == multiset(Unmatched(previous, current))
    ensures multiset(c.increasedPatterns) == multiset(Shifts(current, previous, true))
    ensures multiset(c.decreasedPatterns) == multiset(Shifts(current, previous, false))
    ensures SortedDesc(c.newPatterns, CountKey) && SortedDesc(c.disappearedPatterns, CountKey)
    ensures SortedDesc(c.increasedPatterns, ChangeKey) && SortedDesc(c.decreasedPatterns, ChangeKey)
  {
    var newPatterns := FindNewPatterns(current, previous);
    var disappeared := FindDisappearedPatterns(current, previous);
    var increased := FindIncreasedPatterns(current, previous);
    var decreased := FindDecreasedPatterns(current, previous);
    c := Comparison(|current|, |previous|, newPatterns, disappeared, increased, decreased);
  }
}
