/** `wrap_long_lines` of `step10_send_email_report.py`: long lines of an e-mail body are cut into
    segments so that lines stay under the limit of section 2.1.1 of RFC 5322 (998 characters;
    the default here is 990), preferring cuts that do not split an HTML tag. */
module LineWrap {
  import opened PyStrings

  const DefaultMaxLength := 990

  /** Where the segment starting at `pos` ends: after `max` characters, or just before the last
      `<` of that window when it opens a tag the window does not close, or, for a tag that starts
      the window, just after its `>` when that lies within twice the limit. */
  function CutEnd(line: string, pos: nat, max: nat): (end: nat)
    requires pos < |line| && max > 0
    ensures pos < end <= |line|
    ensures end - pos <= 2 * max
    ensures end - pos > max ==> line[pos] == '<' && line[end - 1] == '>'
    ensures end < |line| && end < pos + max ==> line[end] == '<'
    ensures var w := if pos + max < |line| then pos + max else |line|;
            var o := RFindChar(line, '<', pos, w);
            o > RFindChar(line, '>', pos, w) && o > pos ==> end == o
    ensures var w := if pos + max < |line| then pos + max else |line|;
            RFindChar(line, '<', pos, w) <= RFindChar(line, '>', pos, w) ==> end == w
  {
    var end := if pos + max < |line| then pos + max else |line|;
    if '<' in line[pos..end] then
      var lastOpen := RFindChar(line, '<', pos, end);
      var lastClose := RFindChar(line, '>', pos, end);
      if lastOpen > lastClose then
        if lastOpen > pos then lastOpen
        else
          var nextClose := FindChar(line, '>', pos);
          if nextClose != -1 && nextClose < pos + max * 2 then nextClose + 1 else end
      else end
    else end
  }

  /** The segments of `line` from position `pos` on. */
  function Segments(line: string, pos: nat, max: nat): seq<string>
    requires pos <= |line| && max > 0
    decreases |line| - pos
  {
    if pos == |line| then []
    else
      var end := CutEnd(line, pos, max);
      [line[pos..end]] + Segments(line, end, max)
  }

  /** One input line as output lines: itself when short enough, its segments otherwise. */
  function WrapLine(line: string, max: nat): (r: seq<string>)
    requires max > 0
    ensures |line| <= max ==> r == [line]
  {
    if |line| <= max then [line] else Segments(line, 0, max)
  }

  /** The output lines of a sequence of input lines. */
  function WrapLines(lines: seq<string>, max: nat): seq<string>
    requires max > 0
  {
    if lines == [] then [] else WrapLines(lines[..|lines| - 1], max) + WrapLine(lines[|lines| - 1], max)
  }

  /** `wrap_long_lines(content, max)`. The source loops forever for a limit of 0 or less, so the
      limit must be positive. */
  function WrapLongLines(content: string, max: nat): string
    requires max > 0
  {
    Join("\n", WrapLines(SplitLines(content), max))
  }

  // ---------------------------------------------------------------------------------------
  // Properties

  /** The segments put back together give the rest of the line. */
  lemma {:induction false} SegmentsConcat(line: string, pos: nat, max: nat)
    requires pos <= |line| && max > 0
    ensures Concat(Segments(line, pos, max)) == line[pos..]
    decreases |line| - pos
  {
    if pos < |line| {
      SegmentsConcat(line, CutEnd(line, pos, max), max);
      SegmentsConcatStep(line, pos, max);
    }
  }

  /** One more segment put in front of the rest. */
  lemma {:induction false} SegmentsConcatStep(line: string, pos: nat, max: nat)
    requires pos < |line| && max > 0
    requires Concat(Segments(line, CutEnd(line, pos, max), max)) == line[CutEnd(line, pos, max)..]
    ensures Concat(Segments(line, pos, max)) == line[pos..]
  {
    var end := CutEnd(line, pos, max);
    assert Segments(line, pos, max) == [line[pos..end]] + Segments(line, end, max);
    ConcatFront(line, pos, end, Segments(line, end, max));
  }

  lemma {:induction false} ConcatFront(line: string, pos: nat, end: nat, rest: seq<string>)
    requires pos <= end <= |line| && Concat(rest) == line[end..]
    ensures Concat([line[pos..end]] + rest) == line[pos..]
  {
    assert ([line[pos..end]] + rest)[1..] == rest;
    assert line[pos..] == line[pos..end] + line[end..];
  }

  /** A segment is non-empty and at most twice the limit, and a segment over the limit is one
      whole tag from its `<` to its `>`. */
  predicate SegmentFits(seg: string, max: nat) {
    0 < |seg| <= 2 * max && (|seg| > max ==> seg[0] == '<' && seg[|seg| - 1] == '>')
  }

  /** Every segment fits. */
  lemma {:induction false} SegmentsBounded(line: string, pos: nat, max: nat)
    requires pos <= |line| && max > 0
    ensures forall seg :: seg in Segments(line, pos, max) ==> SegmentFits(seg, max)
    decreases |line| - pos
  {
    if pos < |line| {
      SegmentsBounded(line, CutEnd(line, pos, max), max);
      FirstSegmentFits(line, pos, max);
    }
  }

  /** The segment starting at `pos` fits. */
  lemma {:induction false} FirstSegmentFits(line: string, pos: nat, max: nat)
    requires pos < |line| && max > 0
    ensures SegmentFits(line[pos..CutEnd(line, pos, max)], max)
  {
  }

  /** The output lines of one input line put back together give that line. */
  lemma {:induction false} WrapLineRoundTrip(line: string, max: nat)
    requires max > 0
    ensures Concat(WrapLine(line, max)) == line
  {
    if |line| > max {
      SegmentsConcat(line, 0, max);
    } else {
      assert Concat([line]) == line + Concat([]);
    }
  }

  /** No output line exceeds twice the limit, and a long line never yields an empty one. */
  lemma {:induction false} WrapLineBounded(line: string, max: nat)
    requires max > 0
    ensures forall seg :: seg in WrapLine(line, max) ==> |seg| <= 2 * max
    ensures |line| > max ==> forall seg :: seg in WrapLine(line, max) ==> seg != []
  {
    if |line| > max {
      SegmentsBounded(line, 0, max);
    }
  }

  /** All output lines put back together give all input lines put back together. */
  lemma {:induction false} WrapLinesRoundTrip(lines: seq<string>, max: nat)
    requires max > 0
    ensures Concat(WrapLines(lines, max)) == Concat(lines)
  {
    if lines != [] {
      WrapLinesRoundTrip(lines[..|lines| - 1], max);
      WrapLineRoundTrip(lines[|lines| - 1], max);
      ConcatAppend(WrapLines(lines[..|lines| - 1], max), WrapLine(lines[|lines| - 1], max));
      ConcatLast(lines);
    }
  }

  // ---------------------------------------------------------------------------------------
  // The loops of the source

  /** `wrap_long_lines`: the loop over `splitlines()` and, for a long line, the loop advancing
      `current_position` segment by segment. */
  method WrapLongLinesLoop(content: string, max: nat) returns (r: string)
    requires max > 0
    ensures r == WrapLongLines(content, max)
  {
    var lines := SplitLines(content);
    var result: seq<string> := [];
    for i := 0 to |lines|
      invariant result == WrapLines(lines[..i], max)
    {
      assert lines[..i + 1][..i] == lines[..i];
      var line := lines[i];
      if |line| <= max {
        result := result + [line];
      } else {
        var segments := CutLine(line, max);
        result := result + segments;
      }
    }
    assert lines[..|lines|] == lines;
    r := Join("\n", result);
  }

  /** The inner loop for one line longer than the limit. */
  method CutLine(line: string, max: nat) returns (segments: seq<string>)
    requires max > 0
    ensures segments == Segments(line, 0, max)
  {
    segments := [];
    var pos := 0;
    while pos < |line|
      invariant pos <= |line|
      invariant Segments(line, 0, max) == segments + Segments(line, pos, max)
      decreases |line| - pos
    {
      var endPos := SegmentEnd(line, pos, max);
      var segment := line[pos..endPos];
      assert Segments(line, pos, max) == [segment] + Segments(line, endPos, max);
      assert segments + ([segment] + Segments(line, endPos, max)) == (segments + [segment]) + Segments(line, endPos, max);
      segments := segments + [segment];
      pos := endPos;
    }
  }

  /** The body of the inner loop up to the cut: `end_pos` and its adjustments. */
  method SegmentEnd(line: string, pos: nat, max: nat) returns (endPos: nat)
    requires pos < |line| && max > 0
    ensures endPos == CutEnd(line, pos, max)
  {
    endPos := if pos + max < |line| then pos + max else |line|;
    if '<' in line[pos..endPos] {
      var lastOpen := RFindChar(line, '<', pos, endPos);
      var lastClose := RFindChar(line, '>', pos, endPos);
      if lastOpen > lastClose {
        if lastOpen > pos {
          endPos := lastOpen;
        } else {
          var nextClose := FindChar(line, '>', pos);
          if nextClose != -1 && nextClose < pos + max * 2 {
            endPos := nextClose + 1;
          }
        }
      }
    }
  }
}
