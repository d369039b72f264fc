# Platform problem monitoring core, modelled in Dafny

The modelled system is a batch pipeline that watches a Logstash/Elasticsearch installation for
recurring problems. Each run goes through these steps:

1. It downloads the matching log documents for a time window.
2. It extracts `index`, `id` and `message` from each document.
3. It normalises the messages into patterns: a log-template miner clusters the lines, and a
   masking pass replaces numbers, UUIDs and similar values with placeholders.
4. It compares this run's patterns with the previous run's: new, disappeared, increased and
   decreased patterns.
5. It retrieves hourly problem counts and draws a trend chart.
6. It renders an HTML and a plain-text e-mail report, with Kibana links and a Lucene version
   of the Elasticsearch query.
7. It wraps long lines so that SMTP accepts the mail.

This project models the deterministic logic between the I/O calls. Files, the network, the
clock, the template miner, the regular expressions, the ISO-8601 parser and the HTML
templates are parameters of the model.

## Modules

| Module | Contents |
|---|---|
| `Wrappers` | `Option` and `Result`. A Python exception is an `Err` that carries its exception class. |
| `PyStrings` | The Python `str` operations the core uses: `strip`, `find`, `rfind`, `split`, `replace`, `join`, `splitlines`, `str(int)`. |
| `JsonValue` | Decoded JSON. Objects are ordered association lists, because dict order shows in the output. The module also holds Python's `in`, `[]`, `.get`, iteration and truthiness on such values. Numbers are integers. |
| `Sorting` | A stable descending sort by a three-component key. It stands for `list.sort(key=…, reverse=True)` and `sorted(…, reverse=True)`. |
| `TrendChart` | The hourly-series parser, the anchor ticks and the choice of chart. |
| `PatternTable`, `PatternComparison`, `LegacyComparison` | The two versions of the comparison step. |
| `KibanaQuery` | The RISON serialiser, the Elasticsearch-query-to-Lucene translator and the should/must-not extraction. |
| `HtmlEncode` | `_safe_html_encode`. |
| `SampleLinks` | The sample-document links of both report generations. |
| `ReportText` | The plain-text pattern lists and `get_count`. |
| `LegacyReport` | The HTML items of the older report, and its top-N selection and truncation. |
| `Normalization` | JSON masking, the bounded reference buffer and the assembly of results. |
| `LineWrap` | `wrap_long_lines`. |
| `TimeWindow` | The three time-range query rewrites, the hour ranges and the per-hour loop. |
| `KeyValueConfig` | The configuration loader. |
| `FieldExtraction` | The two field-extraction steps. |

Loops of the source are methods whose loops carry invariants. Each method is proved equal to a
function that specifies it, and the properties are lemmas about those functions. The per-cluster
reference buffer and the in-place query rewrite update state, so they are classes:
`Normalization.ReferenceBuffer` and `TimeWindow.QueryData`.

## Model

| member | source | states |
|---|---|---|
| TrendChart.EntryPoint | src/platform_problem_monitoring_core/step4_generate_trend_chart.py:46-58 | A non-dict entry raises AttributeError, and an entry whose `end_time` is missing or falsy is skipped. Otherwise the entry gives a point exactly when its `end_time` is a string that parses after `Z` becomes `+00:00`. The point's count is `count`, or 0 when it is missing. |
| TrendChart.ParseHourly | src/platform_problem_monitoring_core/step4_generate_trend_chart.py:35-62 | A null or empty decoded value gives two empty sequences and no error. A non-empty list is parsed entry by entry. |
| TrendChart.Kept | src/platform_problem_monitoring_core/step4_generate_trend_chart.py:47-50 | The entries that contribute a point are entries of the input that carry an end time. |
| TrendChart.ParseEntriesOkIff | src/platform_problem_monitoring_core/step4_generate_trend_chart.py:44-62 | The parse succeeds if and only if every entry succeeds. One bad timestamp aborts the whole parse, and no partial result is returned. |
| TrendChart.ParseEntriesAligned | src/platform_problem_monitoring_core/step4_generate_trend_chart.py:44-58 | On success the instants and the counts have equal length: one element for each entry with a non-empty `end_time`, in input order, each taken from its entry. |
| TrendChart.BadEntryFailsAll | src/platform_problem_monitoring_core/step4_generate_trend_chart.py:54-62 | A present but unparseable `end_time` anywhere in the list fails the whole parse. |
| TrendChart.ParseEntriesErrStays | src/platform_problem_monitoring_core/step4_generate_trend_chart.py:59-62 | The first error raised in the loop is the result of the whole parse. |
| TrendChart.UtcDesignatorsAgree | src/platform_problem_monitoring_core/step4_generate_trend_chart.py:53-54 | `…Z` and `…+00:00` become the same text before parsing, so they name the same instant. |
| TrendChart.ParseHourlyData | src/platform_problem_monitoring_core/step4_generate_trend_chart.py:20-64 | The method with the source's loop computes `ParseHourly`, and on success both lists have the same length. |
| TrendChart.ParseEntryLoop | src/platform_problem_monitoring_core/step4_generate_trend_chart.py:44-62 | The loop appending to `timestamps` and `counts` computes the entry-wise parse and stops at the first error. |
| TrendChart.AnchorIndices | src/platform_problem_monitoring_core/step4_generate_trend_chart.py:89-98 | The anchors are empty exactly when there are no points, and all lie in [0, n) in non-decreasing order. They start at 0 and end at n−1. There are three anchors when n ≥ 3, the middle one being floor(n/2), and two otherwise. |
| TrendChart.PlanChart | src/platform_problem_monitoring_core/step4_generate_trend_chart.py:131-156 | With no timestamps the chart is the text-only placeholder. Otherwise there is one bar per parsed point, and every anchor indexes a point. |
| PatternTable.ByText | src/platform_problem_monitoring_core/step8_compare_normalizations.py:126-127 | The dict comprehension maps each text to an entry carrying that text. |
| PatternTable.ByTextKeys | src/platform_problem_monitoring_core/step8_compare_normalizations.py:126-127 | The dict's keys are exactly the texts of the list. |
| PatternTable.ByTextIsLast | src/platform_problem_monitoring_core/step6_compare_normalizations.py:39-40 | For a duplicated text, the last entry with that text is the one stored. |
| PatternTable.DistinctTextsSpec | src/platform_problem_monitoring_core/step8_compare_normalizations.py:130 | The dict is iterated in first-occurrence order. Each text appears once, and every text of the list appears. |
| PatternTable.DistinctTextsInTable | src/platform_problem_monitoring_core/step8_compare_normalizations.py:126-130 | Every distinct text the loops visit is a key of the dict built from the same list, so indexing it never raises KeyError (also the loops of the older step). |
| PatternComparison.IncreasePercent | src/platform_problem_monitoring_core/step8_compare_normalizations.py:138-139 | A previous count of 0 or less falls back to 100. Otherwise the percent is the exact ratio of the change to the previous count times 100, and it is positive for a real increase. |
| PatternComparison.DecreasePercent | src/platform_problem_monitoring_core/step8_compare_normalizations.py:188-189 | A previous count of 0 or less falls back to 0. Otherwise the percent is the exact ratio of the decrease times 100, and it is positive for a real decrease. |
| PatternComparison.UnmatchedExact | src/platform_problem_monitoring_core/step8_compare_normalizations.py:54-70 | An entry is reported as new exactly when it is the full record of a current entry whose text is absent from the previous list. The same holds for disappeared patterns with the lists swapped. |
| PatternComparison.UnmatchedKeepsDuplicates | src/platform_problem_monitoring_core/step8_compare_normalizations.py:58-70 | The current list is iterated, not the dict, so duplicate current entries each appear. |
| PatternComparison.ShiftedSound | src/platform_problem_monitoring_core/step8_compare_normalizations.py:130-155 | Every increased or decreased record has a text present in both runs. It carries the current count as `count`, the previous count from the dict, and a strictly positive `absolute_change` equal to the difference. Its percent follows the fallback rule. |
| PatternComparison.ShiftedComplete | src/platform_problem_monitoring_core/step8_compare_normalizations.py:130-136 | Every shared text whose count moved in the given direction has a record. |
| PatternComparison.ShiftedOncePerText | src/platform_problem_monitoring_core/step8_compare_normalizations.py:130-155 | No text is recorded twice by the loop over the dict. |
| PatternComparison.ShiftsOncePerText | src/platform_problem_monitoring_core/step8_compare_normalizations.py:126-155 | The increased and decreased lists hold one entry per distinct shared text. |
| PatternComparison.Classification | src/platform_problem_monitoring_core/step8_compare_normalizations.py:54-205 | A text is new iff it occurs only in the current run, and disappeared iff it occurs only in the previous run. It is increased iff it is shared and its last current count exceeds its last previous count, and decreased iff that count is below. So a text is in at most one of the four lists, and an unchanged shared text is in none. |
| PatternComparison.UnmatchedClass | src/platform_problem_monitoring_core/step8_compare_normalizations.py:58-59 | Some entry of a list is unmatched iff its text is missing from the other list. |
| PatternComparison.ShiftClass | src/platform_problem_monitoring_core/step8_compare_normalizations.py:130-136 | A text has an increased (decreased) record iff it is in both lists and its last counts moved that way. |
| PatternComparison.CollectUnmatched | src/platform_problem_monitoring_core/step8_compare_normalizations.py:53-70 | The loop appending unmatched entries computes `Unmatched`. |
| PatternComparison.FindNewPatterns | src/platform_problem_monitoring_core/step8_compare_normalizations.py:42-74 | The new patterns are a permutation of the unmatched current entries, sorted non-increasingly by count. |
| PatternComparison.FindDisappearedPatterns | src/platform_problem_monitoring_core/step8_compare_normalizations.py:77-109 | The disappeared patterns are a permutation of the unmatched previous entries, sorted non-increasingly by count. |
| PatternComparison.CollectShifts | src/platform_problem_monitoring_core/step8_compare_normalizations.py:123-155 | The loop over `current_patterns.items()` computes `Shifts`. |
| PatternComparison.FindIncreasedPatterns | src/platform_problem_monitoring_core/step8_compare_normalizations.py:112-159 | The increased patterns are a permutation of the records of increased texts, sorted non-increasingly by (percent, absolute change, count). |
| PatternComparison.FindDecreasedPatterns | src/platform_problem_monitoring_core/step8_compare_normalizations.py:162-209 | The decreased patterns are a permutation of the records of decreased texts, sorted the same way. |
| PatternComparison.CompareNormalizations | src/platform_problem_monitoring_core/step8_compare_normalizations.py:231-264 | The summary counts are the raw input lengths, duplicates included. Each of the four lists is a permutation of its specification, in its sort order. |
| LegacyComparison.UnmatchedExact | src/platform_problem_monitoring_core/step6_compare_normalizations.py:42-64 | A record is new (or disappeared) exactly when its text is a distinct key absent from the other dict. It carries the last entry's count and `sample_doc_references`, defaulting to []. |
| LegacyComparison.UnmatchedOncePerText | src/platform_problem_monitoring_core/step6_compare_normalizations.py:42-64 | Since the loop runs over the dict's distinct keys, each new (or disappeared) text is reported once. |
| LegacyComparison.ShiftsFailIff | src/platform_problem_monitoring_core/step6_compare_normalizations.py:70-108 | The increased or decreased loop raises ZeroDivisionError, and nothing else, exactly when some shared text moved that way from a previous count of 0. |
| LegacyComparison.ShiftsSound | src/platform_problem_monitoring_core/step6_compare_normalizations.py:72-108 | On success each record is a shared text whose count moved that way. The record's absolute change is the positive difference, and its percent times the previous count is 100 times that change. |
| LegacyComparison.ShiftsComplete | src/platform_problem_monitoring_core/step6_compare_normalizations.py:71-108 | On success every shared text whose count went up (down) has a record in the increased (decreased) list. |
| LegacyComparison.ShiftsOncePerText | src/platform_problem_monitoring_core/step6_compare_normalizations.py:71-108 | Over the dict's distinct keys no text gets two records. |
| LegacyComparison.ChangedLists | src/platform_problem_monitoring_core/step6_compare_normalizations.py:70-112 | In a successful comparison a text is in the sorted increased (decreased) list exactly when both runs hold it and its last count went up (down), and each such text is listed once. |
| LegacyComparison.ZeroPreviousFails | src/platform_problem_monitoring_core/step6_compare_normalizations.py:77-78 | A shared text whose previous count is 0 and whose current count is positive makes the whole comparison fail with ZeroDivisionError. |
| LegacyComparison.CollectUnmatched | src/platform_problem_monitoring_core/step6_compare_normalizations.py:43-50 | The loop filling the new (or disappeared) list computes `Unmatched`. |
| LegacyComparison.ShiftsErrStays | src/platform_problem_monitoring_core/step6_compare_normalizations.py:134-136 | The first error raised in the loop is the result of the whole loop. |
| LegacyComparison.CollectShifts | src/platform_problem_monitoring_core/step6_compare_normalizations.py:71-86 | The loop filling the increased (or decreased) list computes `Shifts`, including its error. |
| LegacyComparison.CompareNormalizations | src/platform_problem_monitoring_core/step6_compare_normalizations.py:38-122 | The method computes `Compare`. On success the summary counts are the raw input lengths, all four lists are sorted non-increasingly (new and disappeared by count, increased and decreased by percent), and each of the four lists holds each text once. |
| KibanaQuery.Rison | src/platform_problem_monitoring_core/step9_generate_email_bodies.py:30-49 | Null is `!n` and booleans are `!t`/`!f`; booleans are checked before numbers, so they never come out as numbers. A string is quoted with `'` and every `'` inside is escaped. An object is `(…)` and a list is `!(…)`. |
| KibanaQuery.EscapeNeverStartsWithQuote | src/platform_problem_monitoring_core/step9_generate_email_bodies.py:46 | An escaped string body never starts with a bare quote. |
| KibanaQuery.EscapeRoundTrip | src/platform_problem_monitoring_core/step9_generate_email_bodies.py:46-47 | The string quoting is unambiguous: reading the escaped body back gives the original string. |
| KibanaQuery.EscapedQuotesArePreceded | src/platform_problem_monitoring_core/step9_generate_email_bodies.py:46 | Every quote inside an escaped body follows a backslash, so the closing quote is the first bare one. |
| KibanaQuery.FirstPresent | src/platform_problem_monitoring_core/step9_generate_email_bodies.py:84-98 | The query type chosen is the first of bool, term, terms, match, range, wildcard, exists, query_string that is a key of the node. None is chosen when no key matches. |
| KibanaQuery.FirstField | src/platform_problem_monitoring_core/step9_generate_email_bodies.py:170 | `list(q.keys())[0]` succeeds exactly on a dict and gives its first field in insertion order. |
| KibanaQuery.TermsAlternatives | src/platform_problem_monitoring_core/step9_generate_email_bodies.py:193-198 | There is one `field:value` alternative per listed value, in order, double-quoted when the value is a string. |
| KibanaQuery.ProcessNode | src/platform_problem_monitoring_core/step9_generate_email_bodies.py:70-101 | A non-dict node becomes its `str` form, and a dict with no known query type becomes `""`. |
| KibanaQuery.BoolParts | src/platform_problem_monitoring_core/step9_generate_email_bodies.py:120-140 | At most three parts, and none exactly when must, should and must_not all translate to nothing. |
| KibanaQuery.ProcessItems | src/platform_problem_monitoring_core/step9_generate_email_bodies.py:154-155 | There is one translation per clause of the list. |
| KibanaQuery.NonEmpty | src/platform_problem_monitoring_core/step9_generate_email_bodies.py:157 | The kept parts are exactly the non-empty parts. |
| KibanaQuery.ToLucene | src/platform_problem_monitoring_core/step9_generate_email_bodies.py:64-67 | A top-level `query` key is unwrapped before translation. Otherwise the whole value is translated. |
| KibanaQuery.LeafReadsFirstFieldOnly | src/platform_problem_monitoring_core/step9_generate_email_bodies.py:165-236 | The term, match, wildcard, terms and range handlers read only the first field: fields after it do not change the result. |
| KibanaQuery.EmptyBoolQuery | src/platform_problem_monitoring_core/step9_generate_email_bodies.py:120-140 | A bool query whose present clause lists are all empty translates to `""`. |
| KibanaQuery.EmptyClausesDropped | src/platform_problem_monitoring_core/step9_generate_email_bodies.py:154-160 | A clause list whose clauses all translate to nothing gives `""`. |
| KibanaQuery.ItemsAllEmpty | src/platform_problem_monitoring_core/step9_generate_email_bodies.py:155 | Clauses that each translate to nothing give only empty parts. |
| KibanaQuery.NonEmptyOfBlanks | src/platform_problem_monitoring_core/step9_generate_email_bodies.py:157 | Filtering a list of empty parts leaves nothing. |
| KibanaQuery.QuotedLeaf | src/platform_problem_monitoring_core/step9_generate_email_bodies.py:165-178 | A term or match query whose first field holds a dict with a string `s` under `value` (`query`) gives `field:"s"`: the first field's name, a colon and the string in double quotes, with nothing escaped. |
| KibanaQuery.ExistsShape | src/platform_problem_monitoring_core/step9_generate_email_bodies.py:250-256 | An exists query gives `_exists_:f` when `field` holds a non-empty string `f`, and `""` when `field` holds the empty string or is missing. |
| KibanaQuery.TermsQueryLoop | src/platform_problem_monitoring_core/step9_generate_email_bodies.py:181-200 | The handler's loop computes the terms translation: `(f:"a" OR f:"b")`, or `""` for an empty query or value list. |
| KibanaQuery.FormatTerms | src/platform_problem_monitoring_core/step9_generate_email_bodies.py:193-198 | The loop appending formatted values computes `TermsAlternatives`. |
| KibanaQuery.FieldPairs | src/platform_problem_monitoring_core/step9_generate_email_bodies.py:868-869 | Iterating the items of a `match` or `term` value succeeds exactly on a dict and gives one `field:"value"` per field, in order. |
| KibanaQuery.ShouldIgnoresOtherClauses | src/platform_problem_monitoring_core/step9_generate_email_bodies.py:866-869 | The should extraction reads only `match` clauses, so dict clauses without one contribute nothing. |
| KibanaQuery.MatchBeforeTerm | src/platform_problem_monitoring_core/step9_generate_email_bodies.py:892-897 | In must_not, a clause with both `match` and `term` contributes only its `match` pairs. |
| KibanaQuery.AppendFieldPairs | src/platform_problem_monitoring_core/step9_generate_email_bodies.py:868-869 | The loop over `items()` appends exactly the clause's pairs, and fails on a non-dict. |
| KibanaQuery.CollectPartsErrStays | src/platform_problem_monitoring_core/step9_generate_email_bodies.py:866-897 | The first error raised in the clause loop is the result of the whole loop. |
| KibanaQuery.CollectClauseParts | src/platform_problem_monitoring_core/step9_generate_email_bodies.py:866-897 | The clause loop shared by the two extractors computes `CollectParts`. |
| KibanaQuery.ExtractShouldClauses | src/platform_problem_monitoring_core/step9_generate_email_bodies.py:852-874 | The should clauses give `(f:"v" OR …)` or `""`. The latter happens when the path is missing or nothing is collected. |
| KibanaQuery.ExtractMustNotClauses | src/platform_problem_monitoring_core/step9_generate_email_bodies.py:877-902 | The must_not clauses give `(NOT a AND NOT b …)` or `""`. |
| HtmlEncode.EscapeRemovesBrackets | src/platform_problem_monitoring_core/step9_generate_email_bodies.py:490 | No `<` or `>` survives escaping. |
| HtmlEncode.EscapePlain | src/platform_problem_monitoring_core/step9_generate_email_bodies.py:490 | Text without `&`, `<` and `>` is unchanged by escaping. |
| HtmlEncode.Chars | src/platform_problem_monitoring_core/step9_generate_email_bodies.py:498 | `list(word)` has one single-character string per character of the word, in order. |
| HtmlEncode.InsertAt | src/platform_problem_monitoring_core/step9_generate_email_bodies.py:500 | `list.insert` puts the element at the index and shifts the rest one place right, or appends when the index is past the end. |
| HtmlEncode.InsertMarkers | src/platform_problem_monitoring_core/step9_generate_email_bodies.py:499-500 | The insertion loop never shortens the list. |
| HtmlEncode.MarkerCount | src/platform_problem_monitoring_core/step9_generate_email_bodies.py:499 | The number of markers, `len(range(80, L, 80))`, is the m with 80m < L ≤ 80m + 80, and 0 for L ≤ 80. |
| HtmlEncode.Head | src/platform_problem_monitoring_core/step9_generate_email_bodies.py:499-500 | The layout of the first m insertions holds 80m + 1 elements. |
| HtmlEncode.InsertMarkersClosed | src/platform_problem_monitoring_core/step9_generate_email_bodies.py:499-500 | Running the loop from the m-th insertion to its end gives the closed layout with all markers. |
| HtmlEncode.LongWordLayout | src/platform_problem_monitoring_core/step9_generate_email_bodies.py:496-501 | A long word becomes its first 80 characters and a marker, then runs of 79 characters each followed by a marker, then the rest of the word. |
| HtmlEncode.HeadMarkers | src/platform_problem_monitoring_core/step9_generate_email_bodies.py:499-500 | The first m insertions leave exactly m markers. |
| HtmlEncode.ConcatChars | src/platform_problem_monitoring_core/step9_generate_email_bodies.py:501 | Joining a word's character list gives the word back. |
| HtmlEncode.MarkersRemovable | src/platform_problem_monitoring_core/step9_generate_email_bodies.py:496-501 | Deleting the markers from a broken word restores the escaped word. |
| HtmlEncode.UnmarkedLayout | src/platform_problem_monitoring_core/step9_generate_email_bodies.py:499-500 | Removing the markers from the full layout gives the word's character list. |
| HtmlEncode.MarkerNumber | src/platform_problem_monitoring_core/step9_generate_email_bodies.py:499-500 | A word of length L > 80 receives exactly `len(range(80, L, 80))` markers. |
| HtmlEncode.FirstRunIntact | src/platform_problem_monitoring_core/step9_generate_email_bodies.py:496-500 | A long word keeps its first 80 characters intact, and the 81st element is a marker. |
| HtmlEncode.ShortWordUnchanged | src/platform_problem_monitoring_core/step9_generate_email_bodies.py:496 | Words of at most 80 characters after escaping are unchanged. |
| HtmlEncode.SafeHtmlNoBrackets | src/platform_problem_monitoring_core/step9_generate_email_bodies.py:490-503 | The output never holds `<` or `>`. Escaping removes them, and neither the markers, the word split nor the joining spaces bring them back. |
| HtmlEncode.BrokenWordChars | src/platform_problem_monitoring_core/step9_generate_email_bodies.py:496-501 | Breaking a word adds no bracket: every bracket of the broken word was in the word. |
| HtmlEncode.WordsChars | src/platform_problem_monitoring_core/step9_generate_email_bodies.py:493 | Every character of a word of `split()` is a character of the text. |
| HtmlEncode.InsertMarkersFrom | src/platform_problem_monitoring_core/step9_generate_email_bodies.py:499-500 | The loop adds nothing but markers. |
| HtmlEncode.BreakLongWord | src/platform_problem_monitoring_core/step9_generate_email_bodies.py:496-501 | The inner loop over the growing character list computes the broken word. |
| HtmlEncode.SafeHtmlEncode | src/platform_problem_monitoring_core/step9_generate_email_bodies.py:479-503 | The outer loop rewriting `words[i]` in place, then the join with spaces, computes `SafeHtml`. |
| SampleLinks.RefParts | src/platform_problem_monitoring_core/step9_generate_email_bodies.py:386-394 | A string holding `:` is split at its first colon: the index holds no colon, and index, colon and id give back the reference. A dict reads its `index` and `id` entries. Anything else gives two empty parts. |
| SampleLinks.PyLen | src/platform_problem_monitoring_core/step9_generate_email_bodies.py:398 | `len` fails exactly on values that are not strings, lists or dicts. |
| SampleLinks.CutId | src/platform_problem_monitoring_core/step9_generate_email_bodies.py:397-399 | A string id longer than 100 characters is cut to its first 100. |
| SampleLinks.RefLink | src/platform_problem_monitoring_core/step9_generate_email_bodies.py:396 | A reference whose index or id is empty contributes no link. |
| SampleLinks.NoReferencesNoLinks | src/platform_problem_monitoring_core/step9_generate_email_bodies.py:370-371 | A pattern with no or falsy `sample_doc_references` gets `""`. |
| SampleLinks.NoSettingsNoLinks | src/platform_problem_monitoring_core/step9_generate_email_bodies.py:374-375 | Without `kibana_url` and `kibana_deeplink_structure` the result is `""`, whatever the references. |
| SampleLinks.NoUsableReferenceNoList | src/platform_problem_monitoring_core/step9_generate_email_bodies.py:420-422 | When no reference yields a link the list stays empty, and the result is `""`. |
| SampleLinks.OnlyFirstFive | src/platform_problem_monitoring_core/step9_generate_email_bodies.py:385 | Only the first five references are used: appending more changes nothing. |
| SampleLinks.LinkListTotal | src/platform_problem_monitoring_core/step9_generate_email_bodies.py:416 | `{{COMMA}}` depends on the number of references only through min(5, len): it follows position j exactly when j < min(5, len), not the number of links emitted. |
| SampleLinks.LookupLast | src/platform_problem_monitoring_core/step9_generate_email_bodies.py:370 | A key appended to a dict that lacked it is found, with its value. |
| SampleLinks.DeeplinkPreferred | src/platform_problem_monitoring_core/step9_generate_email_bodies.py:402-404 | The deeplink structure wins over `kibana_url`: `{{index}}` and `{{id}}` are filled. The current builder cuts the id to 100 characters; the older one does not (src/platform_problem_monitoring_core/step7_generate_email_bodies.py:153-155). |
| SampleLinks.FallbackUrls | src/platform_problem_monitoring_core/step9_generate_email_bodies.py:405-407 | Without a deeplink structure, the current builder links to `{kibana_url}/app/discover#/doc/{index}/{id}?_g=()`. The older one links to `{kibana_url}/app/discover#/doc/logstash-*/{index}?id={id}` (src/platform_problem_monitoring_core/step7_generate_email_bodies.py:156-158). |
| SampleLinks.SplitAtFirstColon | src/platform_problem_monitoring_core/step9_generate_email_bodies.py:387-390 | `index:id` with a colon-free index splits into that index and the whole rest, colons included. |
| SampleLinks.LinkListErrStays | src/platform_problem_monitoring_core/step9_generate_email_bodies.py:385-418 | The first error raised in the loop is the result of the whole loop. |
| SampleLinks.SampleLinksHtml | src/platform_problem_monitoring_core/step9_generate_email_bodies.py:351-422 | The method computes the link block of either builder; the older builder is src/platform_problem_monitoring_core/step7_generate_email_bodies.py:106-175. |
| SampleLinks.CollectLinks | src/platform_problem_monitoring_core/step9_generate_email_bodies.py:385-418 | The enumerate loop appending one item per usable reference with `+=` computes `LinkList`. |
| ReportText.SampleLabels | src/platform_problem_monitoring_core/step9_generate_email_bodies.py:652-667 | There is at most one `Sample j (index/id)` label per reference, and only usable references get one. j is the reference's 1-based position among those looked at. |
| ReportText.Header | src/platform_problem_monitoring_core/step9_generate_email_bodies.py:641-645 | The first line of an entry exists only for a dict pattern. It starts with `i. [` and ends with a line break. |
| ReportText.HeaderTail | src/platform_problem_monitoring_core/step9_generate_email_bodies.py:692-697 | After the number comes `[count] text`, or `[current] (+abs, +pct%) text` for increased and `(-abs, -pct%)` for decreased. It is non-empty and ends with a line break. |
| ReportText.ListText | src/platform_problem_monitoring_core/step9_generate_email_bodies.py:636-637 | An empty list renders the fixed `No patterns found.\n`, and the increased and decreased lists have their own fixed messages (src/platform_problem_monitoring_core/step9_generate_email_bodies.py:686-687, src/platform_problem_monitoring_core/step9_generate_email_bodies.py:738-739). |
| ReportText.ParseInt | src/platform_problem_monitoring_core/step9_generate_email_bodies.py:791 | `int(str)` fails only with ValueError. |
| ReportText.SignedDigits | src/platform_problem_monitoring_core/step9_generate_email_bodies.py:791 | A signed digit run that does not parse gives ValueError. |
| ReportText.PyInt | src/platform_problem_monitoring_core/step9_generate_email_bodies.py:791 | `int` of an integer is that integer. `int` of a list, a dict or None raises TypeError. |
| ReportText.GetCount | src/platform_problem_monitoring_core/step9_generate_email_bodies.py:781-791 | `get_count` returns 0 for a missing or null count and the integer itself for an integer count. It succeeds only on a dict. The older builder has the same rule (src/platform_problem_monitoring_core/step7_generate_email_bodies.py:499-509). |
| ReportText.DigitsRoundTrip | src/platform_problem_monitoring_core/step9_generate_email_bodies.py:645 | The decimal text of a natural number is all digits and reads back as that number. |
| ReportText.PlainDigits | src/platform_problem_monitoring_core/step9_generate_email_bodies.py:645 | The text of a natural number has no sign and no surrounding whitespace. |
| ReportText.SignedDigitsValue | src/platform_problem_monitoring_core/step9_generate_email_bodies.py:791 | An unsigned or `-`-signed digit run reads back as its value. |
| ReportText.ParseNatural | src/platform_problem_monitoring_core/step9_generate_email_bodies.py:791 | `int(str(n)) == n` for a natural number. |
| ReportText.UnsignedDigits | src/platform_problem_monitoring_core/step9_generate_email_bodies.py:791 | A digit run without a sign reads back as its value. |
| ReportText.ParseNegative | src/platform_problem_monitoring_core/step9_generate_email_bodies.py:791 | `int(str(i)) == i` for a negative number. |
| ReportText.ParseIntRoundTrip | src/platform_problem_monitoring_core/step9_generate_email_bodies.py:791 | A count written as text by `str` is read back unchanged by `int`. |
| ReportText.SamplesLineShape | src/platform_problem_monitoring_core/step9_generate_email_bodies.py:648-669 | The samples line is empty or ends with a line break. |
| ReportText.EntryShape | src/platform_problem_monitoring_core/step9_generate_email_bodies.py:641-671 | Every entry starts with its number `i. [` and ends with a blank line. |
| ReportText.LinesShape | src/platform_problem_monitoring_core/step9_generate_email_bodies.py:645-671 | A first line, an optional second line and a line break keep the first line's start and end in two line breaks. |
| ReportText.EntriesAppend | src/platform_problem_monitoring_core/step9_generate_email_bodies.py:641-671 | A list renders every entry in order, numbered from 1: one more pattern appends its own entry with the next number. |
| ReportText.NonDictFails | src/platform_problem_monitoring_core/step9_generate_email_bodies.py:642 | A pattern that is not a dict makes the whole list fail with AttributeError. |
| ReportText.AtMostFiveSamples | src/platform_problem_monitoring_core/step9_generate_email_bodies.py:652 | At most five sample references are named per entry. |
| ReportText.EntriesErrStays | src/platform_problem_monitoring_core/step9_generate_email_bodies.py:641-671 | The first error raised in the loop is the result of the whole list. |
| ReportText.CollectSampleLabels | src/platform_problem_monitoring_core/step9_generate_email_bodies.py:650-667 | The inner loop collecting `sample_refs` computes `SampleLabels`. |
| ReportText.SamplesText | src/platform_problem_monitoring_core/step9_generate_email_bodies.py:648-669 | The `if "sample_doc_references" in pattern` block computes `SamplesLine`, using ` · ` in the current builder and `, ` in the older one (src/platform_problem_monitoring_core/step7_generate_email_bodies.py:366-387). |
| ReportText.EntryText | src/platform_problem_monitoring_core/step9_generate_email_bodies.py:641-671 | One turn of the outer loop computes the entry. |
| ReportText.PatternListText | src/platform_problem_monitoring_core/step9_generate_email_bodies.py:626-673 | The outer loop over `enumerate(patterns, 1)` computes `ListText`, with src/platform_problem_monitoring_core/step9_generate_email_bodies.py:676-777 for the increased and decreased lists and src/platform_problem_monitoring_core/step7_generate_email_bodies.py:344-496 for the older builder. |
| LegacyReport.PyNum | src/platform_problem_monitoring_core/step7_generate_email_bodies.py:258 | Subtraction accepts exactly ints and bools, and an int is its own value. |
| LegacyReport.ChangeOf | src/platform_problem_monitoring_core/step7_generate_email_bodies.py:255-263 | The figures of a changed pattern exist only for a dict. A dict fails only with TypeError, when a count is not a number. |
| LegacyReport.PatternId | src/platform_problem_monitoring_core/step7_generate_email_bodies.py:210 | The element id of entry i ends with the number i. |
| LegacyReport.FillItem | src/platform_problem_monitoring_core/step7_generate_email_bodies.py:216-220 | The placeholders are filled exactly when the pattern text is a string, since `str.replace` takes only a str. |
| LegacyReport.Item | src/platform_problem_monitoring_core/step7_generate_email_bodies.py:205-222 | An entry is rendered only for a dict pattern. |
| LegacyReport.ListHtml | src/platform_problem_monitoring_core/step7_generate_email_bodies.py:194-225 | The light and dark versions are the same text. An empty list renders the empty-list template with its fixed message. Otherwise the items appear between `<div class='space-y-6'>` and `</div>`. |
| LegacyReport.FirstCountError | src/platform_problem_monitoring_core/step7_generate_email_bodies.py:548 | There is no count error exactly when every pattern's count is readable. |
| LegacyReport.TopPatterns | src/platform_problem_monitoring_core/step7_generate_email_bodies.py:548 | At most 25 top patterns are selected, and none when `patterns` is missing. |
| LegacyReport.ShownLists | src/platform_problem_monitoring_core/step7_generate_email_bodies.py:573-584 | Each rendered comparison list holds at most 10 entries. |
| LegacyReport.MissingPreviousDefaults | src/platform_problem_monitoring_core/step7_generate_email_bodies.py:256-263 | A missing `previous_count` counts as 0 in the change but as 1 in the divisor. |
| LegacyReport.NonPositivePreviousNoRatio | src/platform_problem_monitoring_core/step7_generate_email_bodies.py:259-263 | A previous count of 0 or less gives the percentage 0, whatever the counts. |
| LegacyReport.RatioOfPositivePrevious | src/platform_problem_monitoring_core/step7_generate_email_bodies.py:255-263 | With a positive previous count, the percentage is the change relative to that count. It is positive exactly when the count went up, and the increased and decreased figures are opposite (src/platform_problem_monitoring_core/step7_generate_email_bodies.py:316-320). |
| LegacyReport.PatternIdsDistinct | src/platform_problem_monitoring_core/step7_generate_email_bodies.py:210 | Different positions get different element ids. |
| LegacyReport.ItemsAppend | src/platform_problem_monitoring_core/step7_generate_email_bodies.py:205-222 | One more pattern appends its own item, numbered one higher. |
| LegacyReport.ItemsErrStays | src/platform_problem_monitoring_core/step7_generate_email_bodies.py:205-222 | The first error raised in the loop is the result of the whole list. |
| LegacyReport.TopSelection | src/platform_problem_monitoring_core/step7_generate_email_bodies.py:548 | The top patterns are in non-increasing count order, drawn from the input without repetition, and number min(25, len). No pattern left out has a higher count than one selected. |
| LegacyReport.TopPatternsOfList | src/platform_problem_monitoring_core/step7_generate_email_bodies.py:548 | With readable counts, the selection is the first 25 of the list sorted by `get_count`, largest first. |
| LegacyReport.UnreadableCountFails | src/platform_problem_monitoring_core/step7_generate_email_bodies.py:548 | One unreadable count makes the whole selection fail. |
| LegacyReport.TruncatedButCounted | src/platform_problem_monitoring_core/step7_generate_email_bodies.py:553-596 | The rendered lists are the first 10 entries of each list, while the NEW and DISAPPEARED counts use the full list lengths. |
| LegacyReport.ItemHtml | src/platform_problem_monitoring_core/step7_generate_email_bodies.py:205-222 | One turn of the enumerate loop computes `Item`. |
| LegacyReport.PatternListHtml | src/platform_problem_monitoring_core/step7_generate_email_bodies.py:178-225 | The list builders compute `ListHtml`; the increased and decreased builders are src/platform_problem_monitoring_core/step7_generate_email_bodies.py:228-341. |
| LegacyReport.CollectItems | src/platform_problem_monitoring_core/step7_generate_email_bodies.py:205-222 | The loop `light_html += pattern_html` computes `Items`. |
| Normalization.MaskString | src/platform_problem_monitoring_core/step5_normalize_messages.py:157-168 | A string leaf is kept or becomes one of `<UUID>`, `<TIMESTAMP>`, `<EMAIL>`. |
| Normalization.Normalize | src/platform_problem_monitoring_core/step5_normalize_messages.py:148-174 | The keys of every object stay, in order, and every list keeps its length. Every int leaf becomes `"<NUM>"`, and so does every bool, because Python's bool is an int. Null is kept. A string is masked by the UUID, timestamp and e-mail tests, in that order. |
| Normalization.NormalizeMasksNumbers | src/platform_problem_monitoring_core/step5_normalize_messages.py:169-171 | No number or boolean survives anywhere in the result, at any depth. |
| Normalization.NormalizeIdempotent | src/platform_problem_monitoring_core/step5_normalize_messages.py:148-174 | Masking a masked value changes nothing, provided no mask itself matches a pattern. |
| Normalization.Keep | src/platform_problem_monitoring_core/step5_normalize_messages.py:330-333 | Appending to a list of at most five keeps it at most five long, and the new reference is last. |
| Normalization.KeepAll | src/platform_problem_monitoring_core/step5_normalize_messages.py:326-333 | A cluster's list never exceeds five entries. |
| Normalization.KeepAllIsMostRecent | src/platform_problem_monitoring_core/step5_normalize_messages.py:330-333 | A cluster's list always holds the most recent five references (or all of them, if fewer), in arrival order. |
| Normalization.ReferenceBuffer.constructor | src/platform_problem_monitoring_core/step5_normalize_messages.py:414 | The reference map starts empty. |
| Normalization.ReferenceBuffer.ProcessDocument | src/platform_problem_monitoring_core/step5_normalize_messages.py:297-335 | A non-dict document raises AttributeError, and a document with an empty or missing message returns False. Either way the map is untouched. Otherwise `index:id` is appended to that cluster's list, with `"unknown"` for a missing part. The list is created if needed, its oldest entry is dropped past five, and the result is True. A truthy message that is not a str raises TypeError and leaves the map untouched. |
| Normalization.ResultOf | src/platform_problem_monitoring_core/step5_normalize_messages.py:367-390 | A cluster's entry carries its id and size and its retained references. `first_seen` and `last_seen` are the first and last retained references, or `""` when there are none. |
| Normalization.ResultsSpec | src/platform_problem_monitoring_core/step5_normalize_messages.py:364-394 | There is one result per cluster, in non-increasing count order, and the results are a permutation of the clusters' entries. |
| Normalization.PrepareResults | src/platform_problem_monitoring_core/step5_normalize_messages.py:351-395 | The loop appending one entry per cluster, followed by the in-place sort, computes `Results`. |
| LineWrap.CutEnd | src/platform_problem_monitoring_core/step10_send_email_report.py:43-59 | Each cut advances and stays within the line. A segment is at most 2·max long, and one longer than max starts at `<` and ends at `>`. When the window of max characters holds a `<` after its last `>` and not at its start, the cut falls just before that `<`. When the window's last `<` does not come after its last `>`, or the window holds no `<`, the cut is at the window's end. Any cut before max characters that is not at the end of the line falls just before a `<`. |
| LineWrap.WrapLine | src/platform_problem_monitoring_core/step10_send_email_report.py:31-34 | A line of length at most max is emitted unchanged. |
| LineWrap.SegmentsConcat | src/platform_problem_monitoring_core/step10_send_email_report.py:40-63 | The segments of a long line concatenate back to exactly that line. |
| LineWrap.SegmentsConcatStep | src/platform_problem_monitoring_core/step10_send_email_report.py:42-63 | One more segment in front of the rest keeps the concatenation equal to the line. |
| LineWrap.SegmentsBounded | src/platform_problem_monitoring_core/step10_send_email_report.py:42-63 | Every segment is non-empty and at most 2·max long. It exceeds max only when it is one whole tag from `<` to `>`. |
| LineWrap.FirstSegmentFits | src/platform_problem_monitoring_core/step10_send_email_report.py:43-61 | The segment starting at the current position fits those bounds. |
| LineWrap.WrapLineRoundTrip | src/platform_problem_monitoring_core/step10_send_email_report.py:31-63 | The output lines of one input line put back together give that line. |
| LineWrap.WrapLineBounded | src/platform_problem_monitoring_core/step10_send_email_report.py:31-63 | No output line exceeds 2·max, and a long line never yields an empty one. |
| LineWrap.WrapLinesRoundTrip | src/platform_problem_monitoring_core/step10_send_email_report.py:29-65 | All output lines put together give all input lines put together. |
| LineWrap.WrapLongLinesLoop | src/platform_problem_monitoring_core/step10_send_email_report.py:15-65 | The loops over `splitlines()` compute `WrapLongLines`, the segments joined by `"\n"`. |
| LineWrap.CutLine | src/platform_problem_monitoring_core/step10_send_email_report.py:40-63 | The while loop advancing `current_position` computes the line's segments and terminates. |
| LineWrap.SegmentEnd | src/platform_problem_monitoring_core/step10_send_email_report.py:43-59 | `end_pos` and its adjustments compute `CutEnd`. |
| TimeWindow.WithTimeRange | src/platform_problem_monitoring_core/step5_download_logstash_documents.py:20-61 | A successful rewrite is only possible on a dict request and yields a dict; `in`, indexing and appending on the wrong kinds of value fail as in Python. |
| TimeWindow.BoolQueryFilterAppended | src/platform_problem_monitoring_core/step3_retrieve_hourly_problem_numbers.py:53-61 | A bool query with a filter list gets the range clause appended at the end of that list; its other clauses stay as they were. |
| TimeWindow.BoolQueryRewrite | src/platform_problem_monitoring_core/step5_download_logstash_documents.py:37-45 | The whole request after the rewrite of a bool query with a filter list: only `query.bool.filter` changes, by one clause at its end. |
| TimeWindow.MissingFilterCreated | src/platform_problem_monitoring_core/step3_retrieve_hourly_problem_numbers.py:55-56 | A bool query without `filter` gets a filter list holding only the range clause. |
| TimeWindow.OtherQueryWrapped | src/platform_problem_monitoring_core/step3_retrieve_hourly_problem_numbers.py:62-70 | A query that is not a bool query becomes the only `must` clause of a new bool query filtered by the window; the other keys of the request stay. |
| TimeWindow.NoQueryFilterOnly | src/platform_problem_monitoring_core/step3_retrieve_hourly_problem_numbers.py:71-75 | A request without a query gets a bool query holding only the range filter; its other keys stay. |
| TimeWindow.TwoCallsTwoClauses | src/platform_problem_monitoring_core/step3_retrieve_hourly_problem_numbers.py:53-75 | Adding a window twice leaves two range clauses, the later one last: the rewrite never looks for an existing window. |
| TimeWindow.FilterAfterRewrite | src/platform_problem_monitoring_core/step3_retrieve_hourly_problem_numbers.py:53-77 | Whatever shape the request had, a successful rewrite leaves a bool query whose filter list ends with the new clause. |
| TimeWindow.QueryEndsWithClause | src/platform_problem_monitoring_core/step3_retrieve_hourly_problem_numbers.py:54-70 | The new value of `query` is a bool query whose filter ends with the clause. |
| TimeWindow.BoolEndsWithClause | src/platform_problem_monitoring_core/step3_retrieve_hourly_problem_numbers.py:55-61 | The new value of `bool` has a filter list ending with the clause. |
| TimeWindow.QueryData.constructor | src/platform_problem_monitoring_core/step3_download_logstash_documents.py:16 | The object holds the request it is given. |
| TimeWindow.QueryData.AddTimeRange | src/platform_problem_monitoring_core/step3_download_logstash_documents.py:28-73 | The request is rewritten in place into `WithTimeRange` of the old request, with `lte` as the end operator; on an error it is unchanged. |
| TimeWindow.HourRanges | src/platform_problem_monitoring_core/step3_retrieve_hourly_problem_numbers.py:17-38 | There are `max(hours_back, 0)` windows. |
| TimeWindow.HourRangesContiguous | src/platform_problem_monitoring_core/step3_retrieve_hourly_problem_numbers.py:30-36 | Each window lasts one hour, each starts where the previous one ends, and the last ends at `now`: the windows go from oldest to newest. |
| TimeWindow.GenerateHourRanges | src/platform_problem_monitoring_core/step3_retrieve_hourly_problem_numbers.py:27-38 | The loop from `hours_back - 1` down to 0 builds exactly `HourRanges`. |
| TimeWindow.HourlySeries | src/platform_problem_monitoring_core/step3_retrieve_hourly_problem_numbers.py:150-165 | A series that succeeds has one entry per window. |
| TimeWindow.HourlyCountAt | src/platform_problem_monitoring_core/step3_retrieve_hourly_problem_numbers.py:150-160 | Entry k holds the ISO bounds of window k and the count for that window. |
| TimeWindow.HourlyCountsFail | src/platform_problem_monitoring_core/step3_retrieve_hourly_problem_numbers.py:161-165 | A run fails only when the count of some window fails. |
| TimeWindow.AllHoursCounted | src/platform_problem_monitoring_core/step3_retrieve_hourly_problem_numbers.py:150-165 | When every window can be counted, the run succeeds. |
| TimeWindow.HourlyCountsErrStays | src/platform_problem_monitoring_core/step3_retrieve_hourly_problem_numbers.py:161-165 | Once a prefix of the windows fails, the run fails with that same error: the first failure is re-raised. |
| TimeWindow.RetrieveHourlyCounts | src/platform_problem_monitoring_core/step3_retrieve_hourly_problem_numbers.py:99-165 | The loop over the windows, each on a fresh copy of the query with a half-open window (`lt`) and `count` defaulting to 0, computes `HourlyCounts`; the caller's query is not changed. |
| KeyValueConfig.FileLines | src/platform_problem_monitoring_core/utils.py:64-65 | A file read in text mode always yields a first line, possibly empty, so the format test is defined on every file. |
| KeyValueConfig.SplitSetting | src/platform_problem_monitoring_core/utils.py:94-95 | The key has no surrounding whitespace, and the value has neither surrounding whitespace nor a leading or trailing `"`. |
| KeyValueConfig.ParsedLines | src/platform_problem_monitoring_core/utils.py:88-97 | Every line of the file is looked at once. |
| KeyValueConfig.ParsedLineAt | src/platform_problem_monitoring_core/utils.py:88-97 | What line k contributes depends on line k alone. |
| KeyValueConfig.LoadConfig | src/platform_problem_monitoring_core/utils.py:42-73 | A missing file raises FileNotFoundError; a first line that is non-empty, holds `=` and does not start with `[` selects the KEY=VALUE parser over the whole file; any other file goes to the INI parser. |
| KeyValueConfig.IgnoredLine | src/platform_problem_monitoring_core/utils.py:89-97 | Blank lines, `#` comments and lines without `=` leave the settings unchanged. |
| KeyValueConfig.KeyHasNoEquals | src/platform_problem_monitoring_core/utils.py:93-95 | A key never contains `=`: the line is cut at its first one. |
| KeyValueConfig.SplitAtFirstEquals | src/platform_problem_monitoring_core/utils.py:93-95 | A line `key=value` sets `key` to the value stripped of whitespace and quotes, even when the value itself holds `=`. |
| KeyValueConfig.FirstEquals | src/platform_problem_monitoring_core/utils.py:94 | In `key + "=" + value` with no `=` in the key, the first `=` is the one after the key. |
| KeyValueConfig.LastSettingWins | src/platform_problem_monitoring_core/utils.py:95 | A key is in the configuration exactly when some line sets it, and its value is the one of the last line that does. |
| KeyValueConfig.ParseKeyValueConfig | src/platform_problem_monitoring_core/utils.py:76-99 | The loop over the lines computes `ParseKeyValue`. |
| KeyValueConfig.SkippedLineStep | src/platform_problem_monitoring_core/utils.py:90-97 | A skipped line leaves the configuration as it was. |
| KeyValueConfig.SettingLineStep | src/platform_problem_monitoring_core/utils.py:93-95 | A setting line assigns its stripped key and value. |
| FieldExtraction.Extract | src/platform_problem_monitoring_core/step6_extract_fields.py:45-74 | Every document counts as processed or as skipped, there is one record per processed document, and each record is `{"index", "id", "message"}` with a non-empty message. |
| FieldExtraction.ExtractAll | src/platform_problem_monitoring_core/step6_extract_fields.py:30-45 | A list of documents gives `Extract` of its items; only a value that has no length (null, a bool, a number) raises before the loop. |
| FieldExtraction.RecordOfReadableDocument | src/platform_problem_monitoring_core/step6_extract_fields.py:48-60 | A dict document with a dict `_source` and a non-empty message yields its record, with `"unknown"` for a missing `_index` or `_id`. |
| FieldExtraction.NoMessageSkipped | src/platform_problem_monitoring_core/step6_extract_fields.py:52-57 | A document without `_source`, or whose message is missing or empty, is skipped without error. |
| FieldExtraction.UnreadableSkipped | src/platform_problem_monitoring_core/step6_extract_fields.py:46-74 | A document that is not a dict, or whose `_source` is not a dict, raises inside the loop and only adds one to the skipped count. |
| FieldExtraction.ExtractAppend | src/platform_problem_monitoring_core/step6_extract_fields.py:45-74 | Extraction is document by document: the records of two runs are concatenated and the counters add up. |
| FieldExtraction.ExtractFields | src/platform_problem_monitoring_core/step6_extract_fields.py:12-85 | `extract_fields` computes `ExtractAll`. |
| FieldExtraction.ExtractLoop | src/platform_problem_monitoring_core/step6_extract_fields.py:38-74 | The loop with its two counters computes `Extract`. |
| FieldExtraction.PipeLines | src/platform_problem_monitoring_core/step4_extract_fields.py:28-35 | A successful extraction gives at most one line per document. |
| FieldExtraction.PipeExtract | src/platform_problem_monitoring_core/step4_extract_fields.py:11-43 | The older extraction fails exactly when the input cannot be iterated or some document cannot be read. |
| FieldExtraction.MissingPartsEmpty | src/platform_problem_monitoring_core/step4_extract_fields.py:30-35 | A document without `_index` and `_id` whose message is a str gives the line `\|\|message`. |
| FieldExtraction.PipeLineOfParts | src/platform_problem_monitoring_core/step4_extract_fields.py:30-35 | A readable document with a non-empty message gives `index\|id\|message` from the str forms of its parts. |
| FieldExtraction.PipeLinesErrStays | src/platform_problem_monitoring_core/step4_extract_fields.py:29-35 | Once a document fails, the extraction fails with that error whatever follows. |
| FieldExtraction.NonMappingAborts | src/platform_problem_monitoring_core/step4_extract_fields.py:30 | A document that is not a dict anywhere in the input aborts the whole extraction. |
| FieldExtraction.OutputTextAppend | src/platform_problem_monitoring_core/step4_extract_fields.py:39-40 | Writing a line adds it and `\n` at the end of the file. |
| FieldExtraction.OutputTextRoundTrip | src/platform_problem_monitoring_core/step4_extract_fields.py:38-40 | When no line holds a line break, splitting the written file at `\n` gives the lines back, followed by the empty text after the last one. |
| FieldExtraction.PipeExtractFields | src/platform_problem_monitoring_core/step4_extract_fields.py:11-43 | The older `extract_fields` computes `PipeExtract`. |
| FieldExtraction.CollectPipeLines | src/platform_problem_monitoring_core/step4_extract_fields.py:28-35 | The extraction loop computes `PipeLines`, stopping at the first unreadable document. |
| FieldExtraction.PipeLinesAbort | src/platform_problem_monitoring_core/step4_extract_fields.py:29-32 | The first failing document decides the error of the extraction. |
| FieldExtraction.WriteLines | src/platform_problem_monitoring_core/step4_extract_fields.py:38-40 | The writing loop produces `OutputText`. |
| JsonValue.Lookup | src/platform_problem_monitoring_core/step3_retrieve_hourly_problem_numbers.py:53-54 | A dict lookup finds nothing exactly when the key is absent, and what it finds is a member stored under that key: the first one when the list repeats the key. |
| JsonValue.Put | src/platform_problem_monitoring_core/step3_retrieve_hourly_problem_numbers.py:55-56 | After `d[key] = v` the key maps to `v`; an existing key keeps its place and a new one is added at the end, as Python dicts keep insertion order. |
| JsonValue.PutKeepsOthers | src/platform_problem_monitoring_core/step3_retrieve_hourly_problem_numbers.py:64-70 | Assigning one key leaves every other key's value as it was. |
| JsonValue.LookupUnique | src/platform_problem_monitoring_core/step3_retrieve_hourly_problem_numbers.py:53-54 | In an object holding each key once, as every decoded object does, a lookup returns the value of the one member with that key. |
| JsonValue.PutKeepsDistinct | src/platform_problem_monitoring_core/step3_retrieve_hourly_problem_numbers.py:55-56 | Assigning a key keeps an object's keys distinct. |
| JsonValue.PyIn | src/platform_problem_monitoring_core/step3_retrieve_hourly_problem_numbers.py:53-55 | `key in d` on a dict is key membership; on null, a bool or a number it raises TypeError. |
| JsonValue.PyIndex | src/platform_problem_monitoring_core/step3_retrieve_hourly_problem_numbers.py:54-59 | `d[key]` succeeds exactly on a dict holding the key, with that key's value; otherwise KeyError or TypeError. |
| JsonValue.PyGet | src/platform_problem_monitoring_core/step6_extract_fields.py:48-53 | `.get(key, default)` succeeds exactly on a dict: the key's value when present, the default otherwise. |
| JsonValue.Get | src/platform_problem_monitoring_core/step6_extract_fields.py:48-49 | `.get` on a value known to be a dict. |
| JsonValue.PyIter | src/platform_problem_monitoring_core/step6_extract_fields.py:45 | Iterating a list visits its items; only null, a bool or a number cannot be iterated. |
| JsonValue.PyPrefix | src/platform_problem_monitoring_core/step7_generate_email_bodies.py:370 | `value[:n]` of a list is its first `min(n, len)` items and never longer than `n`; it fails on anything but a list or a str. |
| Sorting.InsertSorted | src/platform_problem_monitoring_core/step8_compare_normalizations.py:158 | Inserting into a list sorted largest key first keeps it sorted and adds only the new element. |
| Sorting.SortDescSorted | src/platform_problem_monitoring_core/step8_compare_normalizations.py:158 | `sort(key=…, reverse=True)` leaves every element's key at least the key of every later one, with tuple keys compared left to right. |
| Sorting.SortDescPermutes | src/platform_problem_monitoring_core/step8_compare_normalizations.py:158 | Sorting neither adds nor drops nor duplicates elements. |
| Sorting.SortDescSpec | src/platform_problem_monitoring_core/step6_compare_normalizations.py:53 | The sort is sorted largest first and a permutation of its input. |
| Sorting.Take | src/platform_problem_monitoring_core/step7_generate_email_bodies.py:548 | `xs[:n]` is the prefix of length `min(n, len(xs))`. |
| Sorting.TakeOfSorted | src/platform_problem_monitoring_core/step7_generate_email_bodies.py:548 | The first `n` of a sorted list are sorted, come from it, and no element left out has a higher key than one kept: they are the top `n`. |
| PyStrings.Strip | src/platform_problem_monitoring_core/utils.py:89 | `strip()` never lengthens a text and leaves no whitespace at either end. |
| PyStrings.StripUnchanged | src/platform_problem_monitoring_core/utils.py:89 | A text without whitespace at either end is its own `strip()`. |
| PyStrings.StripKeeps | src/platform_problem_monitoring_core/utils.py:95 | `strip()` only removes characters, never adds one. |
| PyStrings.StripChar | src/platform_problem_monitoring_core/utils.py:95 | `strip('"')` leaves no `"` at either end. |
| PyStrings.FindChar | src/platform_problem_monitoring_core/step10_send_email_report.py:56 | `find(c, start)` is the first index at or after `start` holding `c`, or -1 exactly when there is none. |
| PyStrings.RFindChar | src/platform_problem_monitoring_core/step10_send_email_report.py:47-48 | `rfind(c, lo, hi)` is the last index in `[lo, hi)` holding `c`, or -1 exactly when there is none. |
| PyStrings.SplitAt | src/platform_problem_monitoring_core/utils.py:88 | `split(c)` gives at least one piece and no piece holds `c`. |
| PyStrings.SplitAtJoin | src/platform_problem_monitoring_core/utils.py:88 | Splitting at the first `c` gives the text before it followed by the pieces of the rest. |
| PyStrings.SplitLines | src/platform_problem_monitoring_core/step10_send_email_report.py:30 | No line of `splitlines()` holds a line break. |
| PyStrings.Join | src/platform_problem_monitoring_core/step10_send_email_report.py:65 | Joining no parts gives the empty text and joining one part gives that part. |
| PyStrings.Words | src/platform_problem_monitoring_core/step9_generate_email_bodies.py:493 | `split()` gives non-empty words holding no whitespace. |

Lemmas without a row are proof steps for the rows above. In `HtmlEncode` they count markers, remove markers from one run at a time and cut the character list into slices, on the way to `LongWordLayout` and `MarkersRemovable`. Elsewhere they unfold one more element of a list-building function for a loop invariant.

## Left out

- Floating point: JSON numbers are integers. Percent changes are exact rationals (`real` in the comparison steps, a `Ratio` pair in the older report), so `round(…, 1)` is not reproduced. Two percentages that differ but round to the same value are ordered by their exact values, where the source falls back to the absolute change. The `.1f` text of a percentage is the parameter `fixed1`, and the rounded percent text of the older report is the parameter `showRatio`.
- Dates and times: instants are integers. `datetime.fromisoformat` is the partial function `parse`, `isoformat` is the parameter `iso`, and `datetime.now()` is the input `now`. `strftime` timestamps in the reports and `urllib.parse.quote` in the enhanced Kibana URL are not modelled.
- Regular expressions: the UUID, timestamp and e-mail tests of `normalize_json` are the predicates of `Normalization.Matchers`. The template rewriting after mining is the parameter `postProcess`. `preprocess_log_line` and `protect_file_paths` are not modelled.
- The drain3 template miner and its masking configuration: the cluster of each message and the final clusters are inputs.
- File and network I/O: `load_json`, `save_json`, directory creation, the Elasticsearch requests, scroll pagination and connection retries, SMTP, S3 and the cleanup steps. The decoded JSON is an input, the written file is a returned value, and the count request of one hour is the parameter `search`.
- `_parse_ini_config` delegates to Python's `configparser`; it is the parameter `parseIni`.
- JsonValue.Lookup: an object is an association list that may hold a key twice, and the lookup then returns the first value, whereas `json.loads` keeps the last value of a repeated key. Decoded objects hold each key once (`DistinctKeys`). For those objects, `LookupUnique` shows that the lookup returns the key's one value, and `PutKeepsDistinct` shows that assignment keeps the keys distinct. The other lemmas do not assume distinct keys.
- JsonValue.PyStr: `str()` of a list or dict shows each nested string between single quotes, with nothing escaped. Python's `repr` uses double quotes for a string that holds `'`, and it escapes backslashes, line breaks and non-printable characters. That text reaches the Lucene output through `KibanaQuery.FieldPairs` and the `str()` of non-dict query nodes.
- PatternComparison, LegacyComparison: the `patterns` entries are typed records, so the inputs are taken as well-formed. These errors are not modelled: the KeyError for an entry without `pattern`, `cluster_id` or `count`; the TypeError when a count is not a number; and the AttributeError from `.get("patterns")` on a top level that is not a dict.
- KeyValueConfig.LoadConfig: the configuration is a `map`, so the insertion order of the keys is not kept.
- FieldExtraction.ExtractFields: the records are kept as JSON values. The `json.dumps` text of each record line is not modelled, and neither is the OSError raised when the output file cannot be written.
- HTML document assembly of both report builders: the templates are a map parameter. Filling the document template, the Kibana button, the timestamp and the enhanced Kibana URL are not modelled; the pattern lists, sample links, escaping and truncation that feed them are.
- LineWrap.WrapLongLines: requires a positive limit, because for a limit of 0 or less the source never advances `current_position` and loops forever.
- LegacyReport.ShownLists: the four `[:10]` slices are checked in the order new, disappeared, increased, decreased. When several lists are of a wrong kind, the model reports the first of those, while the source raises at whichever slice it evaluates first.
- ReportText.ParseInt: `int()` on a str accepts only ASCII digits, a sign and surrounding whitespace. Underscores between digits and non-ASCII digits, which Python also accepts, are not modelled.
- Sorting.SortDesc: stability comes from the construction (an element is placed ahead of later elements with an equal key) and is not stated as a lemma.
- Chart drawing with matplotlib: tick locators, limits, labels and saving. Only the choice between placeholder and bars and the anchor indices are modelled.
- Progress logging, `argparse` entry points and exit codes.
