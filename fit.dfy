/** `adjustContentForSinglePage`: the loop that shrinks typography until the
    page estimate says one page, or the body size reaches its 8pt floor. */
module SinglePageFit {
  import opened Wrappers
  import opened PageEstimate
  import opened Typography

  /** pdfmake's `defaultStyle`: the two properties the loop sets and, in
      `rest`, every other property, which the object spread carries over.
      A document without a default style has every field empty. */
  datatype Style = Style(fontSize: Option<real>, lineHeight: Option<real>, rest: map<string, string>)

  /** One element of the content array. The loop assigns `fontSize` and
      `margin` on the caller's own objects. */
  class ContentItem {
    const isObject: bool
    const hasText: bool
    const rest: string
    var fontSize: Option<real>
    var margin: Option<seq<real>>

    constructor (isObject: bool, hasText: bool, rest: string, fontSize: Option<real>, margin: Option<seq<real>>)
      ensures Value() == ItemValue(isObject, hasText, rest, fontSize, margin)
    {
      this.isObject, this.hasText, this.rest := isObject, hasText, rest;
      this.fontSize, this.margin := fontSize, margin;
    }

    function Value(): ItemValue
      reads this
    {
      ItemValue(isObject, hasText, rest, fontSize, margin)
    }

    /** The body of the `map` callback, applied to this object. */
    method Rescale(t: Tiers)
      requires t.title > t.subtitle > t.subsubtitle > t.normal
      modifies this
      ensures Value() == RescaleItem(old(Value()), t)
    {
      if isObject && hasText {
        if fontSize == Some(18.0) {
          fontSize := Some(t.title);
        } else if fontSize == Some(16.0) {
          fontSize := Some(t.subtitle);
        } else if fontSize == Some(14.0) {
          fontSize := Some(t.subsubtitle);
        } else {
          fontSize := Some(t.normal);
        }
        if margin.Some? {
          margin := Some(ShrinkMargins(margin.value));
        }
      }
    }
  }

  /** The part of pdfmake's document definition the engine reads or writes. */
  class DocDefinition {
    const pageSize: PageGeometry
    var defaultStyle: Style

    constructor (pageSize: PageGeometry, defaultStyle: Style)
      ensures this.pageSize == pageSize && this.defaultStyle == defaultStyle
    {
      this.pageSize, this.defaultStyle := pageSize, defaultStyle;
    }
  }

  /** What `adjustContentForSinglePage` returns. */
  datatype FitResult = FitResult(
    content: seq<ContentItem>,
    titleSize: real, subtitleSize: real, subsubtitleSize: real, normalTextSize: real)

  /** The current values of the content items, in content order. */
  function Values(content: seq<ContentItem>): (vs: seq<ItemValue>)
    reads content
    ensures |vs| == |content|
  {
    seq(|content|, i reads content requires 0 <= i < |content| => content[i].Value())
  }

  /** How often each position's object occurs in the content array, that is,
      how often one pass of the loop visits it. */
  function Visits(content: seq<ContentItem>): (m: seq<nat>)
    ensures |m| == |content|
    ensures forall i :: 0 <= i < |content| ==> m[i] >= 1
  {
    seq(|content|, i requires 0 <= i < |content| => multiset(content)[content[i]])
  }

  /** The content values after k passes, from the values `init` at entry. */
  function ContentAfter(init: seq<ItemValue>, visits: seq<nat>, k: nat): (vs: seq<ItemValue>)
    requires |visits| == |init|
    ensures |vs| == |init|
  {
    seq(|init|, i requires 0 <= i < |init| => AfterPasses(init[i], visits[i], k))
  }

  /** The content values after one more pass with tiers t. */
  function PassValues(vs: seq<ItemValue>, visits: seq<nat>, t: Tiers): (ws: seq<ItemValue>)
    requires |visits| == |vs| && t.title > t.subtitle > t.subsubtitle > t.normal
    ensures |ws| == |vs|
  {
    seq(|vs|, i requires 0 <= i < |vs| => RescaleTimes(vs[i], t, visits[i]))
  }

  lemma ContentAfterStep(init: seq<ItemValue>, visits: seq<nat>, k: nat)
    requires |visits| == |init|
    ensures ContentAfter(init, visits, k + 1) == PassValues(ContentAfter(init, visits, k), visits, TiersAfter(k + 1))
  {
  }

  /** `estimatePDFPages(content, docDefinition)`, with `measure` standing for
      the length of the content's JSON serialisation. */
  function EstimatePDFPages(content: seq<ContentItem>, doc: DocDefinition, measure: seq<ItemValue> -> nat): (pages: int)
    requires ValidGeometry(doc.pageSize)
    reads content
    ensures pages <= 1 <==> measure(Values(content)) as real <= PageCapacity(doc.pageSize)
    ensures measure(Values(content)) >= 2 ==> pages >= 1
  {
    var n := measure(Values(content));
    FitsOnOnePage(n, doc.pageSize);
    EstimateSign(n, doc.pageSize);
    EstimatePages(n, doc.pageSize)
  }

  /** The number of passes the loop runs, counted from pass k on: the first
      pass count at which the estimate is at most one page or the body size is
      at its floor. */
  function PassesRun(init: seq<ItemValue>, visits: seq<nat>, g: PageGeometry, measure: seq<ItemValue> -> nat, k: nat): (n: nat)
    requires |visits| == |init| && ValidGeometry(g) && k <= MaxPasses
    ensures k <= n <= MaxPasses
    ensures n == MaxPasses || EstimatePages(measure(ContentAfter(init, visits, n)), g) <= 1
    ensures forall j :: k <= j < n ==> EstimatePages(measure(ContentAfter(init, visits, j)), g) > 1
    decreases MaxPasses - k
  {
    if EstimatePages(measure(ContentAfter(init, visits, k)), g) > 1 && TiersAfter(k).normal > NormalFloor
    then PassesRun(init, visits, g, measure, k + 1)
    else k
  }

  lemma PassesRunStep(init: seq<ItemValue>, visits: seq<nat>, g: PageGeometry, measure: seq<ItemValue> -> nat, k: nat)
    requires |visits| == |init| && ValidGeometry(g) && k < MaxPasses
    requires EstimatePages(measure(ContentAfter(init, visits, k)), g) > 1
    ensures PassesRun(init, visits, g, measure, k) == PassesRun(init, visits, g, measure, k + 1)
  {
  }

  lemma PassesRunStop(init: seq<ItemValue>, visits: seq<nat>, g: PageGeometry, measure: seq<ItemValue> -> nat, k: nat)
    requires |visits| == |init| && ValidGeometry(g) && k <= MaxPasses
    requires k == MaxPasses || EstimatePages(measure(ContentAfter(init, visits, k)), g) <= 1
    ensures PassesRun(init, visits, g, measure, k) == k
  {
  }

  /** No pass runs exactly when the content already fits on one page. */
  lemma NoPassesIffFits(init: seq<ItemValue>, visits: seq<nat>, g: PageGeometry, measure: seq<ItemValue> -> nat)
    requires |visits| == |init| && ValidGeometry(g)
    ensures PassesRun(init, visits, g, measure, 0) == 0 <==> (measure(init) as real) <= PageCapacity(g)
  {
    assert ContentAfter(init, visits, 0) == init;
    FitsOnOnePage(measure(init), g);
  }

  /** What any number of passes guarantees for each position of the content:
      the item keeps its kind and its untouched properties; items without a
      `text` key are unchanged; after two or more passes every text item
      carries the normal size; after one or more, each margin entry m of a
      text item is max(1, m - passes * visits), so at least 1, the margin keeps
      its length, and an item without a margin gains none. */
  lemma FitOutcome(init: seq<ItemValue>, visits: seq<nat>, k: nat)
    requires |visits| == |init|
    requires forall i :: 0 <= i < |visits| ==> visits[i] >= 1
    ensures var out := ContentAfter(init, visits, k);
      forall i :: 0 <= i < |init| ==>
        SameShape(out[i], init[i]) &&
        (!init[i].IsText() ==> out[i] == init[i]) &&
        (init[i].IsText() && k >= 2 ==> out[i].fontSize == Some(TiersAfter(k).normal)) &&
        (init[i].IsText() && k >= 1 && init[i].margin.Some? ==>
          forall j :: 0 <= j < |init[i].margin.value| ==>
            out[i].margin.value[j] == Max(1.0, init[i].margin.value[j] - (k * visits[i]) as real) &&
            out[i].margin.value[j] >= 1.0)
  {
    forall i | 0 <= i < |init|
      ensures var w := AfterPasses(init[i], visits[i], k);
        SameShape(w, init[i]) &&
        (!init[i].IsText() ==> w == init[i]) &&
        (init[i].IsText() && k >= 2 ==> w.fontSize == Some(TiersAfter(k).normal)) &&
        (init[i].IsText() && k >= 1 && init[i].margin.Some? ==>
          forall j :: 0 <= j < |init[i].margin.value| ==>
            w.margin.value[j] == Max(1.0, init[i].margin.value[j] - (k * visits[i]) as real) &&
            w.margin.value[j] >= 1.0)
    {
      AfterPassesShape(init[i], visits[i], k);
      if !init[i].IsText() {
        NonTextUntouched(init[i], visits[i], k);
      } else {
        if k >= 2 { AllNormalAfterTwoPasses(init[i], visits[i], k); }
        if k >= 1 { MarginsAfterPasses(init[i], visits[i], k); }
      }
    }
  }

  /** One execution of `content.map(...)`: every text object is rescaled once
      per position at which it occurs; the array keeps its elements and order. */
  method RescalePass(content: seq<ContentItem>, t: Tiers)
    requires t.title > t.subtitle > t.subsubtitle > t.normal
    modifies content
    ensures Values(content) == PassValues(old(Values(content)), Visits(content), t)
  {
    var i := 0;
    while i < |content|
      invariant 0 <= i <= |content|
      invariant forall o :: o in content ==> o.Value() == RescaleTimes(old(o.Value()), t, multiset(content[..i])[o])
    {
      var item := content[i];
      ghost var seen := multiset(content[..i]);
      assert content[..i + 1] == content[..i] + [item];
      assert multiset(content[..i + 1]) == seen + multiset{item};
      label BeforeVisit:
      item.Rescale(t);
      forall o | o in content
        ensures o.Value() == RescaleTimes(old(o.Value()), t, multiset(content[..i + 1])[o])
      {
        assert old@BeforeVisit(o.Value()) == RescaleTimes(old(o.Value()), t, seen[o]);
        if o == item {
          assert multiset(content[..i + 1])[o] == seen[o] + 1;
        } else {
          assert o.Value() == old@BeforeVisit(o.Value());
          assert multiset(content[..i + 1])[o] == seen[o];
        }
      }
      i := i + 1;
    }
    assert content[..i] == content;
    forall j | 0 <= j < |content|
      ensures content[j].Value() == RescaleTimes(old(Values(content))[j], t, Visits(content)[j])
    {
      assert content[j] in content;
    }
  }

  /** One pass of the loop after the sizes have been lowered: rescale the
      content, then overwrite the default style's size and line height, keeping
      its other properties. */
  method ShrinkPass(content: seq<ContentItem>, doc: DocDefinition, t: Tiers, lineSpacing: real)
    requires t.title > t.subtitle > t.subsubtitle > t.normal
    modifies content, doc
    ensures Values(content) == PassValues(old(Values(content)), Visits(content), t)
    ensures doc.defaultStyle == old(doc.defaultStyle).(fontSize := Some(t.normal), lineHeight := Some(lineSpacing))
  {
    RescalePass(content, t);
    doc.defaultStyle := doc.defaultStyle.(fontSize := Some(t.normal), lineHeight := Some(lineSpacing));
  }

  method AdjustContentForSinglePage(content: seq<ContentItem>, doc: DocDefinition, measure: seq<ItemValue> -> nat)
    returns (r: FitResult, ghost passes: nat)
    requires ValidGeometry(doc.pageSize)
    modifies content, doc
    ensures r.content == content
    ensures passes == PassesRun(old(Values(content)), Visits(content), doc.pageSize, measure, 0)
    ensures passes <= MaxPasses
    ensures Tiers(r.titleSize, r.subtitleSize, r.subsubtitleSize, r.normalTextSize) == TiersAfter(passes)
    ensures r.normalTextSize >= NormalFloor
    ensures EstimatePDFPages(content, doc, measure) <= 1 || r.normalTextSize <= NormalFloor
    ensures passes == 0 <==> old(EstimatePDFPages(content, doc, measure)) <= 1
    ensures Values(content) == ContentAfter(old(Values(content)), Visits(content), passes)
    ensures passes == 0 ==> Values(content) == old(Values(content)) && doc.defaultStyle == old(doc.defaultStyle)
    ensures passes > 0 ==> doc.defaultStyle == old(doc.defaultStyle).(
      fontSize := Some(r.normalTextSize), lineHeight := Some(LineSpacingAfter(passes)))
  {
    var titleSize, subtitleSize, subsubtitleSize, normalTextSize := 18.0, 16.0, 14.0, 12.0;
    var lineSpacing := 1.2;
    ghost var init, visits, style := Values(content), Visits(content), doc.defaultStyle;
    ghost var g := doc.pageSize;
    passes := 0;
    assert ContentAfter(init, visits, 0) == init;
    while EstimatePDFPages(content, doc, measure) > 1 && normalTextSize > 8.0
      invariant passes <= MaxPasses
      invariant titleSize == TiersAfter(passes).title && subtitleSize == TiersAfter(passes).subtitle
      invariant subsubtitleSize == TiersAfter(passes).subsubtitle && normalTextSize == TiersAfter(passes).normal
      invariant lineSpacing == LineSpacingAfter(passes)
      invariant Values(content) == ContentAfter(init, visits, passes)
      invariant passes == 0 ==> doc.defaultStyle == style
      invariant passes > 0 ==> doc.defaultStyle == style.(
        fontSize := Some(normalTextSize), lineHeight := Some(lineSpacing))
      invariant PassesRun(init, visits, g, measure, passes) == PassesRun(init, visits, g, measure, 0)
      decreases MaxPasses - passes
    {
      assert EstimatePDFPages(content, doc, measure) == EstimatePages(measure(ContentAfter(init, visits, passes)), g);
      PassesRunStep(init, visits, g, measure, passes);
      titleSize := titleSize - 0.5;
      subtitleSize := subtitleSize - 0.5;
      subsubtitleSize := subsubtitleSize - 0.5;
      normalTextSize := normalTextSize - 0.5;
      lineSpacing := lineSpacing - 0.05;
      ShrinkPass(content, doc, Tiers(titleSize, subtitleSize, subsubtitleSize, normalTextSize), lineSpacing);
      ContentAfterStep(init, visits, passes);
      passes := passes + 1;
    }
    assert EstimatePDFPages(content, doc, measure) == EstimatePages(measure(ContentAfter(init, visits, passes)), g);
    PassesRunStop(init, visits, g, measure, passes);
    r := FitResult(content, titleSize, subtitleSize, subsubtitleSize, normalTextSize);
  }
}
