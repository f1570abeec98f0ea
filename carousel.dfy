/**
 * The portfolio carousel's previous/next buttons (js/script.js:614-646):
 * find the item whose centre is nearest the centre of the visible strip,
 * then scroll to its neighbour, clamped to the ends of the list.
 *
 * Layout values are whole CSS pixels. Both centres carry a division by two,
 * so distances are compared doubled: |2*left + width - (2*scroll + client)|
 * is twice the distance the script computes, and doubling keeps the order.
 */
module Carousel {
  import opened Wrappers

  /** A portfolio item's offsetLeft and offsetWidth. */
  datatype Item = Item(left: int, width: nat)

  /** Twice the distance between the item's centre and the strip's centre. */
  function Distance(it: Item, scrollLeft: int, clientWidth: nat): nat {
    var d := 2 * it.left + it.width - (2 * scrollLeft + clientWidth);
    if d < 0 then -d else d
  }

  /** The distance as the script computes it, with halves. */
  function CentreDistance(it: Item, scrollLeft: int, clientWidth: nat): real {
    var d := (it.left as real + it.width as real / 2.0) - (scrollLeft as real + clientWidth as real / 2.0);
    if d < 0.0 then -d else d
  }

  /** The doubled integer distance is exactly twice the script's distance. */
  lemma DoubledDistance(it: Item, scrollLeft: int, clientWidth: nat)
    ensures Distance(it, scrollLeft, clientWidth) as real == 2.0 * CentreDistance(it, scrollLeft, clientWidth)
  {
  }

  /** Comparing doubled distances decides the same as comparing the script's. */
  lemma {:induction false} DoubledOrder(a: Item, b: Item, scrollLeft: int, clientWidth: nat)
    ensures Distance(a, scrollLeft, clientWidth) < Distance(b, scrollLeft, clientWidth)
        <==> CentreDistance(a, scrollLeft, clientWidth) < CentreDistance(b, scrollLeft, clientWidth)
  {
    DoubledDistance(a, scrollLeft, clientWidth);
    DoubledDistance(b, scrollLeft, clientWidth);
  }

  function Distances(items: seq<Item>, scrollLeft: int, clientWidth: nat): (ds: seq<nat>)
    ensures |ds| == |items|
    ensures forall i :: 0 <= i < |items| ==> ds[i] == Distance(items[i], scrollLeft, clientWidth)
  {
    seq(|items|, i requires 0 <= i < |items| => Distance(items[i], scrollLeft, clientWidth))
  }

  /** i is the first position holding the least value of ds. */
  predicate IsFirstMinimum(ds: seq<nat>, i: nat) {
    i < |ds|
    && (forall j :: 0 <= j < |ds| ==> ds[i] <= ds[j])
    && (forall j :: 0 <= j < i ==> ds[i] < ds[j])
  }

  /**
   * The reference definition: scanning left to right and moving only on a
   * strictly smaller value; 0 for an empty list.
   */
  function FirstMinimum(ds: seq<nat>): (r: nat)
    ensures ds == [] ==> r == 0
    ensures ds != [] ==> IsFirstMinimum(ds, r)
  {
    if |ds| <= 1 then 0
    else
      var k := FirstMinimum(ds[..|ds| - 1]);
      if ds[|ds| - 1] < ds[k] then |ds| - 1 else k
  }

  /** At most one position is the first minimum. */
  lemma {:induction false} FirstMinimumUnique(ds: seq<nat>, i: nat, j: nat)
    requires IsFirstMinimum(ds, i) && IsFirstMinimum(ds, j)
    ensures i == j
  {
    assert ds[i] <= ds[j] && ds[j] <= ds[i];
  }

  /** The index of the item nearest the centre of the visible strip. */
  function CentredIndex(items: seq<Item>, scrollLeft: int, clientWidth: nat): nat {
    FirstMinimum(Distances(items, scrollLeft, clientWidth))
  }

  /**
   * getCenteredIndex: the loop keeps the best index and its distance; the
   * best distance starts at infinity (here: None), so the first item is
   * always taken, and a later item replaces it only when strictly nearer.
   */
  method GetCenteredIndex(items: seq<Item>, scrollLeft: int, clientWidth: nat) returns (bestIndex: nat)
    ensures items == [] ==> bestIndex == 0
    ensures items != [] ==> IsFirstMinimum(Distances(items, scrollLeft, clientWidth), bestIndex)
    ensures bestIndex == CentredIndex(items, scrollLeft, clientWidth)
  {
    ghost var ds := Distances(items, scrollLeft, clientWidth);
    bestIndex := 0;
    var bestDistance: Option<nat> := None;
    var idx := 0;
    while idx < |items|
      invariant 0 <= idx <= |items|
      invariant idx == 0 <==> bestDistance.None?
      invariant idx == 0 ==> bestIndex == 0
      invariant idx > 0 ==> IsFirstMinimum(ds[..idx], bestIndex) && bestDistance == Some(ds[bestIndex])
    {
      var dist := Distance(items[idx], scrollLeft, clientWidth);
      if bestDistance.None? || dist < bestDistance.value {
        bestDistance := Some(dist);
        bestIndex := idx;
      }
      idx := idx + 1;
    }
    assert ds[..|items|] == ds;
    if items != [] {
      FirstMinimumUnique(ds, bestIndex, CentredIndex(items, scrollLeft, clientWidth));
    }
  }

  /**
   * scrollToIndex: the requested index clamped to [0, len - 1]; with no
   * items the clamped index 0 names no item and nothing scrolls.
   */
  function ScrollTarget(len: nat, idx: int): (r: Option<nat>)
    ensures r.Some? <==> len > 0
    ensures r.Some? ==> r.value < len
    ensures r.Some? && 0 <= idx < len ==> r.value == idx
    ensures r.Some? && idx < 0 ==> r.value == 0
    ensures r.Some? && idx >= len ==> r.value == len - 1
  {
    var clamped := if idx < len - 1 then idx else len - 1;
    var clamped := if 0 < clamped then clamped else 0;
    if clamped < len then Some(clamped) else None
  }

  /** Clamping is idempotent: scrolling to a target scrolls to that target. */
  lemma {:induction false} ScrollTargetIdempotent(len: nat, idx: int)
    requires ScrollTarget(len, idx).Some?
    ensures ScrollTarget(len, ScrollTarget(len, idx).value) == ScrollTarget(len, idx)
  {
  }

  /** The previous button: the item before the centred one. */
  method PrevClick(items: seq<Item>, scrollLeft: int, clientWidth: nat) returns (target: Option<nat>)
    ensures target == ScrollTarget(|items|, CentredIndex(items, scrollLeft, clientWidth) - 1)
  {
    var cur := GetCenteredIndex(items, scrollLeft, clientWidth);
    target := ScrollTarget(|items|, cur as int - 1);
  }

  /** The next button: the item after the centred one. */
  method NextClick(items: seq<Item>, scrollLeft: int, clientWidth: nat) returns (target: Option<nat>)
    ensures target == ScrollTarget(|items|, CentredIndex(items, scrollLeft, clientWidth) + 1)
  {
    var cur := GetCenteredIndex(items, scrollLeft, clientWidth);
    target := ScrollTarget(|items|, cur + 1);
  }

  /**
   * The buttons move by one item and stop at the ends: previous goes to the
   * item before the centred one, or stays on the first; next goes to the
   * item after it, or stays on the last.
   */
  lemma {:induction false} ButtonsStep(items: seq<Item>, scrollLeft: int, clientWidth: nat)
    requires items != []
    ensures var c := CentredIndex(items, scrollLeft, clientWidth);
      && c < |items|
      && ScrollTarget(|items|, c - 1) == Some(if c == 0 then 0 else c - 1)
      && ScrollTarget(|items|, c + 1) == Some(if c == |items| - 1 then c else c + 1)
  {
    assert Distances(items, scrollLeft, clientWidth) != [];
  }

  /** With no items, neither button scrolls anything. */
  lemma {:induction false} EmptyCarouselStill(scrollLeft: int, clientWidth: nat)
    ensures CentredIndex([], scrollLeft, clientWidth) == 0
    ensures ScrollTarget(0, CentredIndex([], scrollLeft, clientWidth) - 1) == None
    ensures ScrollTarget(0, CentredIndex([], scrollLeft, clientWidth) + 1) == None
  {
  }

  /** Ties go to the earlier item: an item exactly as near as an earlier one is never chosen. */
  lemma {:induction false} TiesGoLeft(items: seq<Item>, scrollLeft: int, clientWidth: nat, i: nat, j: nat)
    requires i < j < |items|
    requires Distance(items[i], scrollLeft, clientWidth) == Distance(items[j], scrollLeft, clientWidth)
    ensures CentredIndex(items, scrollLeft, clientWidth) != j
  {
    var ds := Distances(items, scrollLeft, clientWidth);
    assert ds[i] == ds[j];
  }
}
