module Wrappers {
  datatype Option<T> = None | Some(value: T)
}

/** What one pass of the fitting loop does to one content item, stated on
    values: font-size tiers, exact-match reclassification and margin shrinking. */
module Typography {
  import opened Wrappers

  /** The four font sizes in effect during one pass, in points. */
  datatype Tiers = Tiers(title: real, subtitle: real, subsubtitle: real, normal: real)

  /** A pdfmake content item as the engine sees it: whether it is an object,
      whether it has a `text` key, a serialised form of every property the
      engine never touches, and the two properties the engine rewrites. */
  datatype ItemValue = ItemValue(
    isObject: bool, hasText: bool, rest: string,
    fontSize: Option<real>, margin: Option<seq<real>>)
  {
    /** The items the loop rewrites: objects that carry a `text` key. */
    predicate IsText() { isObject && hasText }
  }

  const SizeStep: real := 0.5
  const SpacingStep: real := 0.05
  const StartSpacing: real := 1.2
  const NormalFloor: real := 8.0
  const MaxPasses: nat := 8

  /** The tiers after k passes of the loop, starting from 18/16/14/12. */
  function TiersAfter(k: nat): (t: Tiers)
    ensures t.title == t.subtitle + 2.0 && t.subtitle == t.subsubtitle + 2.0
    ensures t.subsubtitle == t.normal + 2.0
    ensures k == 0 ==> t == Tiers(18.0, 16.0, 14.0, 12.0)
    ensures t.normal > NormalFloor <==> k < MaxPasses
    ensures k <= MaxPasses ==> t.normal >= NormalFloor
  {
    var drop := SizeStep * k as real;
    Tiers(18.0 - drop, 16.0 - drop, 14.0 - drop, 12.0 - drop)
  }

  /** The line spacing after k passes, starting from 1.2. It stays a tenth of
      the normal size, so it ends at 0.8 when the body size reaches its floor. */
  function LineSpacingAfter(k: nat): (s: real)
    ensures k == 0 ==> s == StartSpacing
    ensures s * 10.0 == TiersAfter(k).normal
    ensures k <= MaxPasses ==> 0.8 <= s <= StartSpacing
  {
    StartSpacing - SpacingStep * k as real
  }

  function Max(a: real, b: real): real {
    if a >= b then a else b
  }

  /** A size that none of the literals 18, 16 and 14 matches exactly. */
  predicate Unmatched(fontSize: Option<real>) {
    fontSize !in {Some(18.0), Some(16.0), Some(14.0)}
  }

  /** The new size of a text item: exact match of its current size against
      the literals 18, 16 and 14, and the normal tier for everything else,
      including a missing size. For tiers 2pt apart, the item lands on the
      title, subtitle or subsubtitle tier exactly when its size was that literal. */
  function ClassifySize(fontSize: Option<real>, t: Tiers): (size: real)
    requires t.title > t.subtitle > t.subsubtitle > t.normal
    ensures size == t.title <==> fontSize == Some(18.0)
    ensures size == t.subtitle <==> fontSize == Some(16.0)
    ensures size == t.subsubtitle <==> fontSize == Some(14.0)
    ensures size == t.normal <==> Unmatched(fontSize)
  {
    if fontSize == Some(18.0) then t.title
    else if fontSize == Some(16.0) then t.subtitle
    else if fontSize == Some(14.0) then t.subsubtitle
    else t.normal
  }

  /** Every margin entry m becomes max(1, m - 1). */
  function ShrinkMargins(ms: seq<real>): (r: seq<real>)
    ensures |r| == |ms|
    ensures forall i :: 0 <= i < |r| ==> r[i] >= 1.0 && r[i] <= Max(1.0, ms[i])
  {
    seq(|ms|, i requires 0 <= i < |ms| => Max(1.0, ms[i] - 1.0))
  }

  /** One visit of the loop's `map` callback to an item: a non-object or an
      object without `text` comes back as it was; a text item gets one of the
      pass's four sizes and keeps the shape of its margin, every entry now at
      least 1; nothing else about the item changes. */
  function RescaleItem(v: ItemValue, t: Tiers): (w: ItemValue)
    requires t.title > t.subtitle > t.subsubtitle > t.normal
    ensures SameShape(w, v)
    ensures !v.IsText() ==> w == v
    ensures v.IsText() ==> w.fontSize in {Some(t.title), Some(t.subtitle), Some(t.subsubtitle), Some(t.normal)}
    ensures v.IsText() && v.margin.Some? ==> forall i :: 0 <= i < |w.margin.value| ==> w.margin.value[i] >= 1.0
  {
    if !v.IsText() then v
    else
      var margin := if v.margin.Some? then Some(ShrinkMargins(v.margin.value)) else None;
      v.(fontSize := Some(ClassifySize(v.fontSize, t)), margin := margin)
  }

  /** An item visited `visits` times within one pass (once per position at
      which the same object occurs in the content array). */
  function RescaleTimes(v: ItemValue, t: Tiers, visits: nat): ItemValue
    requires t.title > t.subtitle > t.subsubtitle > t.normal
  {
    if visits == 0 then v else RescaleItem(RescaleTimes(v, t, visits - 1), t)
  }

  /** An item after k passes, each pass visiting it `visits` times. */
  function AfterPasses(v: ItemValue, visits: nat, k: nat): ItemValue {
    if k == 0 then v else RescaleTimes(AfterPasses(v, visits, k - 1), TiersAfter(k), visits)
  }

  predicate SameIdentity(v: ItemValue, w: ItemValue) {
    v.isObject == w.isObject && v.hasText == w.hasText && v.rest == w.rest
  }

  predicate SameShape(v: ItemValue, w: ItemValue) {
    SameIdentity(v, w) && v.margin.Some? == w.margin.Some? &&
    (v.margin.Some? ==> |v.margin.value| == |w.margin.value|)
  }

  /** Visiting an item never changes what kind of item it is, its other
      properties, whether it has a margin, or how many entries the margin has. */
  lemma {:induction false} RescaleTimesShape(v: ItemValue, t: Tiers, visits: nat)
    requires t.title > t.subtitle > t.subsubtitle > t.normal
    ensures SameShape(RescaleTimes(v, t, visits), v)
  {
    if visits > 0 { RescaleTimesShape(v, t, visits - 1); }
  }

  lemma {:induction false} AfterPassesShape(v: ItemValue, visits: nat, k: nat)
    ensures SameShape(AfterPasses(v, visits, k), v)
  {
    if k > 0 {
      AfterPassesShape(v, visits, k - 1);
      RescaleTimesShape(AfterPasses(v, visits, k - 1), TiersAfter(k), visits);
    }
  }

  /** Items without a `text` key, and non-objects, come out of any number of
      passes as they went in. */
  lemma {:induction false} NonTextUntouched(v: ItemValue, visits: nat, k: nat)
    requires !v.IsText()
    ensures AfterPasses(v, visits, k) == v
  {
    if k > 0 {
      NonTextUntouched(v, visits, k - 1);
      NonTextVisits(v, TiersAfter(k), visits);
    }
  }

  lemma {:induction false} NonTextVisits(v: ItemValue, t: Tiers, visits: nat)
    requires t.title > t.subtitle > t.subsubtitle > t.normal
    requires !v.IsText()
    ensures RescaleTimes(v, t, visits) == v
  {
    if visits > 0 { NonTextVisits(v, t, visits - 1); }
  }

  /** Each visit takes one more point off every margin entry, floored at 1,
      and leaves an item without a margin without one. */
  lemma {:induction false} MarginsAfterVisits(v: ItemValue, t: Tiers, visits: nat)
    requires t.title > t.subtitle > t.subsubtitle > t.normal
    requires v.IsText() && visits >= 1
    ensures var w := RescaleTimes(v, t, visits);
      w.margin.Some? == v.margin.Some? &&
      (v.margin.Some? ==>
        |w.margin.value| == |v.margin.value| &&
        forall i :: 0 <= i < |v.margin.value| ==>
          w.margin.value[i] == Max(1.0, v.margin.value[i] - visits as real))
  {
    if visits > 1 {
      MarginsAfterVisits(v, t, visits - 1);
      RescaleTimesShape(v, t, visits - 1);
    }
  }

  /** After k passes of `visits` visits each, a margin entry m is
      max(1, m - k * visits); with at least one visit and one pass every entry
      is therefore at least 1, so a 0 margin becomes 1. */
  lemma {:induction false} MarginsAfterPasses(v: ItemValue, visits: nat, k: nat)
    requires v.IsText() && visits >= 1 && k >= 1
    ensures var w := AfterPasses(v, visits, k);
      w.margin.Some? == v.margin.Some? &&
      (v.margin.Some? ==>
        |w.margin.value| == |v.margin.value| &&
        forall i :: 0 <= i < |v.margin.value| ==>
          w.margin.value[i] == Max(1.0, v.margin.value[i] - (k * visits) as real) &&
          w.margin.value[i] >= 1.0)
  {
    var prev := AfterPasses(v, visits, k - 1);
    AfterPassesShape(v, visits, k - 1);
    MarginsAfterVisits(prev, TiersAfter(k), visits);
    if k > 1 {
      MarginsAfterPasses(v, visits, k - 1);
      assert (k - 1) * visits + visits == k * visits;
    }
  }

  /** Once one visit has put an item on a tier, every further visit in the
      same pass leaves it on one of that pass's tiers. */
  lemma {:induction false} VisitsLandOnTiers(v: ItemValue, t: Tiers, visits: nat)
    requires t.title > t.subtitle > t.subsubtitle > t.normal
    requires v.IsText() && visits >= 1
    ensures RescaleTimes(v, t, visits).fontSize in {Some(t.title), Some(t.subtitle), Some(t.subsubtitle), Some(t.normal)}
  {
    if visits > 1 {
      VisitsLandOnTiers(v, t, visits - 1);
      RescaleTimesShape(v, t, visits - 1);
    }
  }

  /** Within a pass whose normal size matches no literal, an item whose size
      matches no literal ends on the normal tier however often it is visited. */
  lemma {:induction false} UnmatchedVisits(v: ItemValue, t: Tiers, visits: nat)
    requires t.title > t.subtitle > t.subsubtitle > t.normal
    requires v.IsText() && visits >= 1
    requires Unmatched(v.fontSize) && Unmatched(Some(t.normal))
    ensures RescaleTimes(v, t, visits).fontSize == Some(t.normal)
  {
    if visits > 1 {
      UnmatchedVisits(v, t, visits - 1);
      RescaleTimesShape(v, t, visits - 1);
    }
  }

  /** The exact-match quirk: from the second pass on, no size an item can
      carry equals 18, 16 or 14 any more, so every text item sits on the
      normal tier, headings included. */
  lemma {:induction false} AllNormalAfterTwoPasses(v: ItemValue, visits: nat, k: nat)
    requires v.IsText() && visits >= 1 && k >= 2
    ensures AfterPasses(v, visits, k).fontSize == Some(TiersAfter(k).normal)
  {
    var prev := AfterPasses(v, visits, k - 1);
    AfterPassesShape(v, visits, k - 1);
    if k == 2 {
      var t1 := TiersAfter(1);
      AfterPassesShape(v, visits, 0);
      VisitsLandOnTiers(AfterPasses(v, visits, 0), t1, visits);
    } else {
      AllNormalAfterTwoPasses(v, visits, k - 1);
    }
    UnmatchedVisits(prev, TiersAfter(k), visits);
  }

  /** On the first pass an item visited once keeps its rank: a size of
      exactly 18, 16 or 14 moves to 17.5, 15.5 or 13.5, anything else to 11.5. */
  lemma FirstPassKeepsRank(v: ItemValue)
    requires v.IsText()
    ensures var s := AfterPasses(v, 1, 1).fontSize;
      (s == Some(17.5) <==> v.fontSize == Some(18.0)) &&
      (s == Some(15.5) <==> v.fontSize == Some(16.0)) &&
      (s == Some(13.5) <==> v.fontSize == Some(14.0)) &&
      (s == Some(11.5) <==> Unmatched(v.fontSize))
  {
    var t1 := TiersAfter(1);
    assert t1 == Tiers(17.5, 15.5, 13.5, 11.5);
    assert AfterPasses(v, 1, 0) == v;
    assert RescaleTimes(v, t1, 0) == v;
  }

  /** A heading at 18 is a title after one pass but body text after two:
      17.5 no longer matches 18. */
  lemma HeadingDemotedOnSecondPass(v: ItemValue)
    requires v.IsText() && v.fontSize == Some(18.0)
    ensures AfterPasses(v, 1, 1).fontSize == Some(TiersAfter(1).title)
    ensures AfterPasses(v, 1, 2).fontSize == Some(TiersAfter(2).normal)
    ensures TiersAfter(2).normal < TiersAfter(2).title
  {
    FirstPassKeepsRank(v);
    var w := AfterPasses(v, 1, 1);
    AfterPassesShape(v, 1, 1);
    var t2 := TiersAfter(2);
    assert RescaleTimes(w, t2, 0) == w;
  }

  /** Running the engine again on its own output does not continue where the
      first run stopped: the second run restarts from 18/16/14/12, so after
      its first pass every text item of a first run of two or more passes
      sits back on 11.5, the normal tier of pass one, while every margin entry
      loses another point per visit, floored at 1. */
  lemma RerunRestartsAtFirstTier(v: ItemValue, visits: nat, k: nat)
    requires v.IsText() && visits >= 1 && k >= 2
    ensures var once := AfterPasses(v, visits, k);
      var w := AfterPasses(once, visits, 1);
      w.fontSize == Some(11.5) && SameShape(once, v) && SameShape(w, once) &&
      (v.margin.Some? ==>
        forall i :: 0 <= i < |v.margin.value| ==>
          w.margin.value[i] == Max(1.0, once.margin.value[i] - visits as real))
  {
    var once := AfterPasses(v, visits, k);
    AllNormalAfterTwoPasses(v, visits, k);
    AfterPassesShape(v, visits, k);
    var t1 := TiersAfter(1);
    assert t1.normal == 11.5;
    assert AfterPasses(once, visits, 1) == RescaleTimes(once, t1, visits);
    UnmatchedVisits(once, t1, visits);
    MarginsAfterVisits(once, t1, visits);
    RescaleTimesShape(once, t1, visits);
  }
}
