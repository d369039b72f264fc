/** The normalisation results that the comparison steps read, and the dict
    `{p["pattern"]: p for p in patterns}` both comparison steps build from them. */
module PatternTable {
  import opened Wrappers

  /** One entry of the `patterns` list written by the normalisation step. The fields the
      comparison reads with `.get` may be missing, hence the options. */
  datatype Pattern = Pattern(
    clusterId: int,
    count: int,
    text: string,
    firstSeen: Option<string>,
    lastSeen: Option<string>,
    sampleLogLines: Option<seq<string>>,
    sampleDocRefs: Option<seq<string>>)

  function OrElse<T>(o: Option<T>, default: T): T {
    match o
    case Some(v) => v
    case None => default
  }

  /** The set of pattern texts in a list. */
  function TextSet(ps: seq<Pattern>): (r: set<string>)
    ensures forall k :: 0 <= k < |ps| ==> ps[k].text in r
    ensures forall t :: t in r ==> exists k :: 0 <= k < |ps| && ps[k].text == t
  {
    set k | 0 <= k < |ps| :: ps[k].text
  }

  /** The dict comprehension: each text maps to the LAST pattern carrying it. */
  function ByText(ps: seq<Pattern>): (m: map<string, Pattern>)
    ensures forall t :: t in m ==> m[t].text == t
  {
    if ps == [] then map[]
    else
      var last := ps[|ps| - 1];
      ByText(ps[..|ps| - 1])[last.text := last]
  }

  /** The order in which the dict's keys are iterated: first occurrence. */
  function DistinctTexts(ps: seq<Pattern>): (r: seq<string>)
  {
    if ps == [] then []
    else
      var init := DistinctTexts(ps[..|ps| - 1]);
      var t := ps[|ps| - 1].text;
      if t in init then init else init + [t]
  }

  lemma {:induction false} ByTextKeys(ps: seq<Pattern>)
    ensures ByText(ps).Keys == TextSet(ps)
  {
    if ps != [] {
      var init := ps[..|ps| - 1];
      ByTextKeys(init);
      assert TextSet(ps) == TextSet(init) + {ps[|ps| - 1].text} by {
        forall t | t in TextSet(ps) ensures t in TextSet(init) + {ps[|ps| - 1].text} {
          var k :| 0 <= k < |ps| && ps[k].text == t;
          if k < |ps| - 1 { assert init[k] == ps[k]; }
        }
        forall t | t in TextSet(init) ensures t in TextSet(ps) {
          var k :| 0 <= k < |init| && init[k].text == t;
          assert ps[k] == init[k];
        }
      }
    }
  }

  /** A later duplicate overrides an earlier one: the stored pattern is the last with its text. */
  lemma {:induction false} ByTextIsLast(ps: seq<Pattern>, k: nat)
    requires k < |ps|
    requires forall j :: k < j < |ps| ==> ps[j].text != ps[k].text
    ensures ps[k].text in ByText(ps) && ByText(ps)[ps[k].text] == ps[k]
  {
    if k < |ps| - 1 {
      var init := ps[..|ps| - 1];
      ByTextIsLast(init, k);
    }
  }

  lemma {:induction false} DistinctTextsSpec(ps: seq<Pattern>)
    ensures forall i, j :: 0 <= i < j < |DistinctTexts(ps)| ==> DistinctTexts(ps)[i] != DistinctTexts(ps)[j]
    ensures forall t :: t in DistinctTexts(ps) <==> t in TextSet(ps)
  {
    if ps != [] {
      var init := ps[..|ps| - 1];
      DistinctTextsSpec(init);
      ByTextKeys(init);
      ByTextKeys(ps);
    }
  }

  /** Every text in `DistinctTexts(ps)` is a key of `ByText(ps)`: the loops over the distinct
      texts may index the lookup dict. */
  lemma {:induction false} DistinctTextsInTable(ps: seq<Pattern>)
    ensures forall t :: t in DistinctTexts(ps) ==> t in ByText(ps)
  {
    DistinctTextsSpec(ps);
    ByTextKeys(ps);
  }
}
