/** The dispatch that decides how each result of a run is displayed: a
    first-match-wins chain over the artifact's capabilities. */
module Rendering {
  import opened Common
  import opened Sandbox

  /** How an artifact is displayed: decoded PNG image, matplotlib figure,
      plotly chart, dataframe, or written as-is. */
  datatype Category = Image | Figure | Interactive | Tabular | Raw

  /** One displayed item: the artifact and the way it is displayed. */
  datatype Rendered = Rendered(category: Category, artifact: Artifact)

  /** Python truthiness of `result.png`: present, not `None`, not "". */
  predicate HasPng(a: Artifact)
  {
    a.png.Some? && a.png.value != ""
  }

  /** The display decision for one artifact. */
  function Classify(a: Artifact): (c: Category)
    ensures c == Image <==> HasPng(a)
    ensures c == Figure <==> !HasPng(a) && a.hasFigure
    ensures c == Interactive <==> !HasPng(a) && !a.hasFigure && a.hasShow
    ensures c == Tabular <==> !HasPng(a) && !a.hasFigure && !a.hasShow && a.isTabular
    ensures c == Raw <==> !HasPng(a) && !a.hasFigure && !a.hasShow && !a.isTabular
  {
    if HasPng(a) then Image
    else if a.hasFigure then Figure
    else if a.hasShow then Interactive
    else if a.isTabular then Tabular
    else Raw
  }

  /* ----- An independent description: the most preferred applicable form ----- */

  /** Whether artifact `a` can be displayed in category `c`; every artifact
      can be written as-is. */
  predicate Offers(a: Artifact, c: Category)
  {
    match c
    case Image => HasPng(a)
    case Figure => a.hasFigure
    case Interactive => a.hasShow
    case Tabular => a.isTabular
    case Raw => true
  }

  /** Preference among categories, lower first: image, figure, interactive
      chart, table, raw. */
  function Rank(c: Category): (n: nat)
    ensures n < 5
  {
    match c
    case Image => 0
    case Figure => 1
    case Interactive => 2
    case Tabular => 3
    case Raw => 4
  }

  /** The ranking is a strict order: distinct categories have distinct ranks. */
  lemma RankInjective(c: Category, d: Category)
    requires Rank(c) == Rank(d)
    ensures c == d
  {
  }

  /** The chosen category is the most preferred one the artifact offers. */
  lemma ClassifyIsMostPreferred(a: Artifact, c: Category)
    requires Offers(a, c)
    ensures Offers(a, Classify(a))
    ensures Rank(Classify(a)) <= Rank(c)
  {
  }

  /** Conversely, a category the artifact offers and that beats every other
      offered category is the one chosen. */
  lemma MostPreferredIsClassify(a: Artifact, c: Category)
    requires Offers(a, c)
    requires forall d :: Offers(a, d) ==> Rank(c) <= Rank(d)
    ensures Classify(a) == c
  {
    ClassifyIsMostPreferred(a, c);
    assert Rank(c) <= Rank(Classify(a));
    RankInjective(c, Classify(a));
  }

  /** An artifact with a cached PNG and a `show` method is an image, never an
      interactive chart. */
  lemma PngBeatsShow(a: Artifact)
    requires HasPng(a) && a.hasShow
    ensures Classify(a) == Image
  {
  }

  /** What `main` displays for the results of one turn: nothing unless the
      results are present and non-empty, else one item per result, in order,
      each with its category. */
  method RenderResults(codeResults: Option<seq<Artifact>>) returns (shown: seq<Rendered>)
    ensures codeResults.None? ==> shown == []
    ensures codeResults.Some? ==> |shown| == |codeResults.value|
    ensures codeResults.Some? ==> forall i :: 0 <= i < |shown| ==>
              shown[i].artifact == codeResults.value[i] && shown[i].category == Classify(codeResults.value[i])
  {
    shown := [];
    if codeResults.Some? && |codeResults.value| > 0 {
      var results := codeResults.value;
      var i := 0;
      while i < |results|
        invariant 0 <= i <= |results|
        invariant |shown| == i
        invariant forall j :: 0 <= j < i ==>
                    shown[j].artifact == results[j] && shown[j].category == Classify(results[j])
      {
        shown := shown + [Rendered(Classify(results[i]), results[i])];
        i := i + 1;
      }
    }
  }
}
