/** `_safe_html_encode` of the newer report builder: escape `&`, `<` and `>`, collapse
    whitespace, and put zero-width break markers into words longer than 80 characters.

    The marker loop inserts into the growing character list at the fixed positions 80, 160,
    240, ... of the range computed from the ORIGINAL length, so after the first insertion every
    later position is one element further to the left in terms of the word: the k-th marker
    lands before character 79k+1 of the word, and the run after the last marker may be longer
    than 80 characters. `Head` and `LongWordLayout` describe that layout exactly. */
module HtmlEncode {
  import opened PyStrings

  /** The zero-width space entity inserted as a break opportunity. */
  const Marker := "&#8203;"

  /** Words up to this length are left alone. */
  const Width := 80

  /** The three chained `replace` calls, `&` first so that the entities are not re-escaped. */
  function Escape(s: string): string {
    Replace(Replace(Replace(s, "&", "&amp;"), "<", "&lt;"), ">", "&gt;")
  }

  /** No angle bracket survives escaping. */
  lemma {:induction false} EscapeRemovesBrackets(s: string)
    ensures '<' !in Escape(s) && '>' !in Escape(s)
  {
    var amp := Replace(s, "&", "&amp;");
    var lt := Replace(amp, "<", "&lt;");
    ReplaceCharRemoves(amp, '<', "&lt;");
    ReplaceCharRemoves(lt, '>', "&gt;");
    if '<' in Escape(s) {
      ReplaceChars(lt, ">", "&gt;", '<');
    }
  }

  /** Text without `&`, `<` and `>` is left as it is. */
  lemma {:induction false} EscapePlain(s: string)
    requires '&' !in s && '<' !in s && '>' !in s
    ensures Escape(s) == s
  {
    ReplaceAbsentChar(s, '&', "&amp;");
    ReplaceAbsentChar(s, '<', "&lt;");
    ReplaceAbsentChar(s, '>', "&gt;");
  }

  /** `list(word)`: one single-character string per character. */
  function Chars(w: string): (r: seq<string>)
    ensures |r| == |w| && forall k :: 0 <= k < |w| ==> r[k] == [w[k]]
  {
    seq(|w|, k requires 0 <= k < |w| => [w[k]])
  }

  /** `xs.insert(j, x)`: at `j`, or at the end when `j` is past it. */
  function InsertAt(xs: seq<string>, j: nat, x: string): (r: seq<string>)
    ensures |r| == |xs| + 1
    ensures j <= |xs| ==> r[..j] == xs[..j] && r[j] == x && r[j + 1..] == xs[j..]
    ensures j > |xs| ==> r == xs + [x]
  {
    if j <= |xs| then xs[..j] + [x] + xs[j..] else xs + [x]
  }

  /** `for j in range(j, length, 80): chars.insert(j, marker)` — the range is fixed up front. */
  function InsertMarkers(chars: seq<string>, j: nat, length: nat): (r: seq<string>)
    ensures |r| >= |chars|
    decreases length - j
  {
    if j >= length then chars else InsertMarkers(InsertAt(chars, j, Marker), j + Width, length)
  }

  /** What the loop body leaves in `words[i]`. */
  function BreakWord(w: string): string {
    if |w| > Width then Concat(InsertMarkers(Chars(w), Width, |w|)) else w
  }

  /** The whole function. */
  function SafeHtml(text: string): string {
    var ws := Words(Escape(text));
    Join(" ", seq(|ws|, k requires 0 <= k < |ws| => BreakWord(ws[k])))
  }

  // ---------------------------------------------------------------------------------------
  // The layout of a long word

  /** `len(range(80, length, 80))`: the number of markers a word of that length receives. */
  function MarkerCount(length: nat): (r: nat)
    ensures length > 0 ==> 80 * r < length <= 80 * r + 80
    ensures length <= Width ==> r == 0
  {
    if length == 0 then 0 else (length - 1) / 80
  }

  /** The word's first `79m+1` characters with the first `m` markers: the k-th marker follows
      character `79k` of the word. */
  function Head(w: string, m: nat): (r: seq<string>)
    requires 79 * m + 1 <= |w|
    ensures |r| == 80 * m + 1
  {
    if m == 0 then Chars(w[..1]) else Head(w, m - 1) + Chars(w[79 * (m - 1) + 1..79 * m + 1]) + [Marker]
  }

  lemma {:induction false} CharsSlice(w: string, a: nat, b: nat)
    requires a <= b <= |w|
    ensures Chars(w)[a..b] == Chars(w[a..b])
  {
  }

  lemma {:induction false} CharsAppend(a: string, b: string)
    ensures Chars(a + b) == Chars(a) + Chars(b)
  {
  }

  /** One more turn of the loop on the closed form: the marker goes 79 characters into the tail. */
  lemma {:induction false} InsertStep(w: string, m: nat)
    requires 79 * (m + 1) + 1 <= |w|
    ensures InsertAt(Head(w, m) + Chars(w[79 * m + 1..]), 80 * (m + 1), Marker)
            == Head(w, m + 1) + Chars(w[79 * (m + 1) + 1..])
  {
    var h, t := Head(w, m), Chars(w[79 * m + 1..]);
    var j := 80 * (m + 1);
    assert j == |h| + 79;
    var ins := InsertAt(h + t, j, Marker);
    CharsSlice(w[79 * m + 1..], 0, 79);
    CharsSlice(w[79 * m + 1..], 79, |w| - 79 * m - 1);
    assert w[79 * m + 1..][..79] == w[79 * m + 1..79 * (m + 1) + 1];
    assert w[79 * m + 1..][79..] == w[79 * (m + 1) + 1..];
    assert (h + t)[..j] == h + t[..79];
    assert (h + t)[j..] == t[79..];
    assert ins == (h + t)[..j] + [Marker] + (h + t)[j..];
  }

  /** The loop from any point on, run to its end, yields the closed form with all markers. */
  lemma {:induction false} InsertMarkersClosed(w: string, m: nat)
    requires |w| > 0 && m <= MarkerCount(|w|)
    ensures 79 * MarkerCount(|w|) + 1 <= |w|
    ensures InsertMarkers(Head(w, m) + Chars(w[79 * m + 1..]), 80 * (m + 1), |w|)
            == Head(w, MarkerCount(|w|)) + Chars(w[79 * MarkerCount(|w|) + 1..])
    decreases MarkerCount(|w|) - m
  {
    if 80 * (m + 1) < |w| {
      assert 80 * (m + 1) + Width == 80 * (m + 1 + 1);
      InsertStep(w, m);
      InsertMarkersClosed(w, m + 1);
    } else {
      assert m == MarkerCount(|w|);
    }
  }

  /** A long word becomes its first 80 characters, a marker, then runs of 79 characters each
      followed by a marker, then the remaining `|w| - 79K - 1` characters, K markers in all. */
  lemma {:induction false} LongWordLayout(w: string)
    requires |w| > Width
    ensures 79 * MarkerCount(|w|) + 1 <= |w|
    ensures InsertMarkers(Chars(w), Width, |w|)
            == Head(w, MarkerCount(|w|)) + Chars(w[79 * MarkerCount(|w|) + 1..])
  {
    CharsAppend(w[..1], w[1..]);
    assert w[..1] + w[1..] == w;
    InsertMarkersClosed(w, 0);
  }

  /** The list without its markers. */
  function Unmarked(xs: seq<string>): (r: seq<string>)
    ensures Marker !in r
  {
    if xs == [] then []
    else Unmarked(xs[..|xs| - 1]) + (if xs[|xs| - 1] == Marker then [] else [xs[|xs| - 1]])
  }

  /** How many markers a list holds. */
  function MarkerTotal(xs: seq<string>): nat {
    if xs == [] then 0
    else MarkerTotal(xs[..|xs| - 1]) + (if xs[|xs| - 1] == Marker then 1 else 0)
  }

  /** A list has no marker exactly when its count is zero. */
  lemma {:induction false} MarkerTotalZero(xs: seq<string>)
    ensures MarkerTotal(xs) == 0 <==> Marker !in xs
  {
    if xs != [] {
      var init := xs[..|xs| - 1];
      MarkerTotalZero(init);
      assert xs == init + [xs[|xs| - 1]];
    }
  }

  lemma {:induction false} MarkerTotalAppend(a: seq<string>, b: seq<string>)
    ensures MarkerTotal(a + b) == MarkerTotal(a) + MarkerTotal(b)
    decreases |b|
  {
    if b == [] {
      assert a + b == a;
    } else {
      assert (a + b)[..|a + b| - 1] == a + b[..|b| - 1];
      MarkerTotalAppend(a, b[..|b| - 1]);
    }
  }

  /** A run without markers and then a marker add one marker. */
  lemma {:induction false} MarkerTotalRun(a: seq<string>, b: seq<string>)
    requires Marker !in b
    ensures MarkerTotal(a + b + [Marker]) == MarkerTotal(a) + 1
  {
    MarkerTotalZero(b);
    MarkerTotalAppend(a, b);
    assert (a + b + [Marker])[..|a + b + [Marker]| - 1] == a + b;
  }

  lemma {:induction false} UnmarkedAppend(a: seq<string>, b: seq<string>)
    ensures Unmarked(a + b) == Unmarked(a) + Unmarked(b)
    decreases |b|
  {
    if b == [] {
      assert a + b == a;
    } else {
      assert (a + b)[..|a + b| - 1] == a + b[..|b| - 1];
      UnmarkedAppend(a, b[..|b| - 1]);
    }
  }

  lemma {:induction false} UnmarkedChars(s: string)
    ensures Unmarked(Chars(s)) == Chars(s)
  {
    if s != [] {
      var c, n := Chars(s), |s|;
      CharsSlice(s, 0, n - 1);
      assert s[0..n - 1] == s[..n - 1];
      UnmarkedChars(s[..n - 1]);
      assert |c[n - 1]| == 1 != |Marker|;
      assert Unmarked(c) == c[..n - 1] + [c[n - 1]];
      assert c[..n - 1] + [c[n - 1]] == c;
    }
  }

  /** A character list holds no marker: each of its elements is one character long. */
  lemma {:induction false} NoMarkerInChars(s: string)
    ensures Marker !in Chars(s)
  {
  }

  lemma {:induction false} UnmarkedHead(w: string, m: nat)
    requires 79 * m + 1 <= |w|
    ensures Unmarked(Head(w, m)) == Chars(w[..79 * m + 1])
    decreases m, 1
  {
    if m == 0 {
      assert 79 * m + 1 == 1;
      UnmarkedFirst(w);
    } else {
      UnmarkedHeadNext(w, m);
    }
  }

  /** The inductive step of `UnmarkedHead`. */
  lemma {:induction false} UnmarkedHeadNext(w: string, m: nat)
    requires 0 < m && 79 * m + 1 <= |w|
    ensures Unmarked(Head(w, m)) == Chars(w[..79 * m + 1])
    decreases m, 0
  {
    var lo, hi := 79 * (m - 1) + 1, 79 * m + 1;
    var before, run := Head(w, m - 1), Chars(w[lo..hi]);
    UnmarkedHead(w, m - 1);
    assert Head(w, m) == before + run + [Marker];
    UnmarkedHeadStep(w, lo, hi, before);
  }

  /** The head without markers is the word's first character. */
  lemma {:induction false} UnmarkedFirst(w: string)
    requires 1 <= |w|
    ensures Unmarked(Head(w, 0)) == Chars(w[..1])
  {
    UnmarkedChars(w[..1]);
  }

  /** One more run and marker after a head whose characters are those before the run. */
  lemma {:induction false} UnmarkedHeadStep(w: string, lo: nat, hi: nat, before: seq<string>)
    requires lo <= hi <= |w|
    requires Unmarked(before) == Chars(w[..lo])
    ensures Unmarked(before + Chars(w[lo..hi]) + [Marker]) == Chars(w[..hi])
  {
    UnmarkedChars(w[lo..hi]);
    UnmarkedRun(before, Chars(w[lo..hi]));
    CharsGrow(w, lo, hi);
  }

  /** A run without markers and then a marker: the run is kept, the marker dropped. */
  lemma {:induction false} UnmarkedRun(a: seq<string>, b: seq<string>)
    requires Unmarked(b) == b
    ensures Unmarked(a + b + [Marker]) == Unmarked(a) + b
  {
    UnmarkedAppend(a, b);
    assert (a + b + [Marker])[..|a + b + [Marker]| - 1] == a + b;
  }

  lemma {:induction false} CharsGrow(w: string, lo: nat, hi: nat)
    requires lo <= hi <= |w|
    ensures Chars(w[..lo]) + Chars(w[lo..hi]) == Chars(w[..hi])
  {
    CharsAppend(w[..lo], w[lo..hi]);
    assert w[..lo] + w[lo..hi] == w[..hi];
  }

  lemma {:induction false} HeadMarkers(w: string, m: nat)
    requires 79 * m + 1 <= |w|
    ensures MarkerTotal(Head(w, m)) == m
  {
    if m == 0 {
      NoMarkerInChars(w[..1]);
      MarkerTotalZero(Head(w, 0));
    } else {
      var lo, hi := 79 * (m - 1) + 1, 79 * m + 1;
      HeadMarkers(w, m - 1);
      NoMarkerInChars(w[lo..hi]);
      MarkerTotalRun(Head(w, m - 1), Chars(w[lo..hi]));
    }
  }

  lemma {:induction false} ConcatChars(s: string)
    ensures Concat(Chars(s)) == s
  {
    if s != [] {
      assert Chars(s)[1..] == Chars(s[1..]);
      ConcatChars(s[1..]);
    }
  }

  /** Taking the markers out of a prefix's layout followed by the rest of the word. */
  lemma {:induction false} UnmarkedRest(w: string, cut: nat, head: seq<string>)
    requires cut <= |w| && Unmarked(head) == Chars(w[..cut])
    ensures Unmarked(head + Chars(w[cut..])) == Chars(w)
  {
    UnmarkedAppend(head, Chars(w[cut..]));
    UnmarkedChars(w[cut..]);
    CharsAppend(w[..cut], w[cut..]);
    assert w[..cut] + w[cut..] == w;
  }

  /** Taking the markers out again gives back the escaped word. */
  lemma {:induction false} MarkersRemovable(w: string)
    requires |w| > Width
    ensures Unmarked(InsertMarkers(Chars(w), Width, |w|)) == Chars(w)
    ensures Concat(Unmarked(InsertMarkers(Chars(w), Width, |w|))) == w
  {
    UnmarkedLayout(w);
    ConcatChars(w);
  }

  lemma {:induction false} UnmarkedLayout(w: string)
    requires |w| > Width
    ensures Unmarked(InsertMarkers(Chars(w), Width, |w|)) == Chars(w)
  {
    LongWordLayout(w);
    UnmarkedHead(w, MarkerCount(|w|));
    UnmarkedRest(w, 79 * MarkerCount(|w|) + 1, Head(w, MarkerCount(|w|)));
  }

  /** A long word receives exactly `len(range(80, len(word), 80))` markers. */
  lemma {:induction false} MarkerNumber(w: string)
    requires |w| > Width
    ensures MarkerTotal(InsertMarkers(Chars(w), Width, |w|)) == MarkerCount(|w|)
  {
    LongWordLayout(w);
    HeadMarkers(w, MarkerCount(|w|));
    NoMarkerInChars(w[79 * MarkerCount(|w|) + 1..]);
    MarkerTotalZero(Chars(w[79 * MarkerCount(|w|) + 1..]));
    MarkerTotalAppend(Head(w, MarkerCount(|w|)), Chars(w[79 * MarkerCount(|w|) + 1..]));
  }

  lemma {:induction false} HeadPrefix(w: string, m: nat)
    requires m >= 1 && 79 * m + 1 <= |w|
    ensures Head(w, m)[..Width] == Chars(w[..Width])
  {
    if m == 1 {
      CharsAppend(w[..1], w[1..80]);
      assert w[..1] + w[1..80] == w[..80];
    } else {
      HeadPrefix(w, m - 1);
    }
  }

  /** The first 80 characters of a long word are left together, the 81st element is a marker. */
  lemma {:induction false} FirstRunIntact(w: string)
    requires |w| > Width
    ensures InsertMarkers(Chars(w), Width, |w|)[..Width] == Chars(w[..Width])
    ensures InsertMarkers(Chars(w), Width, |w|)[Width] == Marker
  {
    LongWordLayout(w);
    HeadPrefix(w, MarkerCount(|w|));
    HeadMarker(w, MarkerCount(|w|));
  }

  lemma {:induction false} HeadMarker(w: string, m: nat)
    requires m >= 1 && 79 * m + 1 <= |w|
    ensures Head(w, m)[Width] == Marker
  {
    if m > 1 {
      HeadMarker(w, m - 1);
    }
  }

  /** Words that are not longer than 80 characters are left alone. */
  lemma {:induction false} ShortWordUnchanged(w: string)
    requires |w| <= Width
    ensures BreakWord(w) == w
  {
  }

  /** The result never holds an angle bracket: escaping removes them, and neither the markers
      nor the separators bring any back. */
  lemma {:induction false} SafeHtmlNoBrackets(text: string, c: char)
    requires c == '<' || c == '>'
    ensures c !in SafeHtml(text)
  {
    var ws := Words(Escape(text));
    var broken := seq(|ws|, k requires 0 <= k < |ws| => BreakWord(ws[k]));
    EscapeRemovesBrackets(text);
    if c in SafeHtml(text) {
      JoinChars(" ", broken, c);
      var k :| 0 <= k < |broken| && c in broken[k];
      BrokenWordChars(ws[k], c);
      WordsChars(Escape(text), k, c);
    }
  }

  /** Breaking a word adds no bracket: every character of the result is a character of the word
      or of a marker. */
  lemma {:induction false} BrokenWordChars(w: string, c: char)
    requires c == '<' || c == '>'
    requires c in BreakWord(w)
    ensures c in w
  {
    if |w| > Width {
      var xs := InsertMarkers(Chars(w), Width, |w|);
      PyStrings.ConcatChars(xs, c);
      var i :| 0 <= i < |xs| && c in xs[i];
      InsertMarkersFrom(Chars(w), Width, |w|, xs[i]);
      assert c !in Marker;
      var p :| 0 <= p < |w| && Chars(w)[p] == xs[i];
      assert c == w[p];
    }
  }

  /** Each word of `split()` is a piece of the input. */
  lemma {:induction false} WordsChars(s: string, k: nat, c: char)
    requires k < |Words(s)| && c in Words(s)[k]
    ensures c in s
    decreases |s|
  {
    if IsSpace(s[0]) {
      WordsChars(s[1..], k, c);
    } else if k > 0 {
      WordsChars(s[WordLength(s)..], k - 1, c);
    }
  }

  /** The loop only adds markers. */
  lemma {:induction false} InsertMarkersFrom(chars: seq<string>, j: nat, length: nat, x: string)
    requires x in InsertMarkers(chars, j, length)
    ensures x == Marker || x in chars
    decreases length - j
  {
    if j < length {
      InsertMarkersFrom(InsertAt(chars, j, Marker), j + Width, length, x);
    }
  }

  // ---------------------------------------------------------------------------------------
  // The loops of the source

  /** The inner loop: insert a marker at positions 80, 160, ... of the growing list. */
  method BreakLongWord(word: string) returns (r: string)
    ensures r == BreakWord(word)
  {
    if |word| <= Width {
      return word;
    }
    var chars := Chars(word);
    var j := Width;
    while j < |word|
      invariant InsertMarkers(chars, j, |word|) == InsertMarkers(Chars(word), Width, |word|)
      decreases |word| - j
    {
      chars := InsertAt(chars, j, Marker);
      j := j + Width;
    }
    r := Concat(chars);
  }

  /** `_safe_html_encode`: the outer loop rewrites `words[i]` in place, then joins with spaces. */
  method SafeHtmlEncode(text: string) returns (r: string)
    ensures r == SafeHtml(text)
  {
    var escaped := Escape(text);
    var words := Words(escaped);
    var i := 0;
    while i < |words|
      invariant 0 <= i <= |words| == |Words(escaped)|
      invariant forall k :: 0 <= k < i ==> words[k] == BreakWord(Words(escaped)[k])
      invariant forall k :: i <= k < |words| ==> words[k] == Words(escaped)[k]
    {
      if |words[i]| > Width {
        var broken := BreakLongWord(words[i]);
        words := words[i := broken];
      }
      i := i + 1;
    }
    var ws := Words(escaped);
    assert words == seq(|ws|, k requires 0 <= k < |ws| => BreakWord(ws[k]));
    r := Join(" ", words);
  }
}
