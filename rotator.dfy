/**
 * The benefit rotator: five (or more) benefit items, of which a
 * width-dependent subset is visible.  On desktop all items are shown and
 * nothing rotates; on tablet and mobile a periodic tick walks a fixed table
 * of index patterns, hiding the items that leave and showing the ones that
 * enter.
 *
 * Each item's class list is modelled by its two relevant classes, `visible`
 * and `hidden`; the browser's interval table by `TimerTable`, a set of live
 * interval ids.  The pure functions below are the specification; the class
 * `BenefitRotator` runs the source's loops over an array of items and is
 * proved against them.
 */
module Rotator {
  import opened Wrappers

  /** Fewer items than this and the rotator does not start. */
  const MinItems: int := 5

  datatype Breakpoint = Mobile | Tablet | Desktop

  /** The breakpoint of a viewport width. */
  function CurrentBreakpoint(width: int): (b: Breakpoint)
    ensures b == Mobile <==> width <= 480
    ensures b == Desktop <==> 1200 < width
  {
    if width <= 480 then Mobile
    else if width <= 1200 then Tablet
    else Desktop
  }

  /** Rotation runs on tablet and mobile only. */
  predicate ShouldRotate(b: Breakpoint)
  {
    b == Tablet || b == Mobile
  }

  /** Rotation runs exactly up to 1200 pixels. */
  lemma ShouldRotateBelowDesktop(width: int)
    ensures ShouldRotate(CurrentBreakpoint(width)) <==> width <= 1200
  {
  }

  /** Index patterns walked on tablet (the source calls this table `desktop`). */
  const TabletPatterns: seq<seq<int>> := [[0, 1, 2], [1, 2, 3], [2, 3, 4], [0, 3, 4], [0, 1, 4]]

  /** Index patterns walked on mobile: one item at a time. */
  const MobilePatterns: seq<seq<int>> := [[0], [1], [2], [3], [4]]

  predicate Distinct(s: seq<int>)
  {
    forall i, j :: 0 <= i < j < |s| ==> s[i] != s[j]
  }

  /**
   * The table `rotateBenefits` reads: the mobile one on mobile, the other
   * one otherwise.  Both have five entries of distinct indices below 5.
   */
  function PatternsFor(b: Breakpoint): (p: seq<seq<int>>)
    ensures |p| == 5
    ensures forall k, j :: 0 <= k < |p| && 0 <= j < |p[k]| ==> 0 <= p[k][j] < 5
    ensures forall k :: 0 <= k < |p| ==> Distinct(p[k])
  {
    if b == Mobile then MobilePatterns else TabletPatterns
  }

  /**
   * How many items are visible at a breakpoint; on a rotating breakpoint it
   * is the size of every pattern in that breakpoint's table.
   */
  function VisibleCount(b: Breakpoint): (n: nat)
    ensures 1 <= n <= 5
    ensures !ShouldRotate(b) ==> n == 5
    ensures ShouldRotate(b) ==> forall k :: 0 <= k < |PatternsFor(b)| ==> |PatternsFor(b)[k]| == n
  {
    match b
    case Mobile => 1
    case Tablet => 3
    case Desktop => 5
  }

  /** The indices a pattern lists. */
  function PatternSet(p: seq<int>): set<int>
  {
    set x | x in p
  }

  /** The two classes of an item that the rotator toggles. */
  datatype ItemClasses = ItemClasses(visible: bool, hidden: bool)

  /** An item after `add('visible'); remove('hidden')`. */
  const Shown := ItemClasses(true, false)

  /** An item after `add('hidden'); remove('visible')`. */
  const Concealed := ItemClasses(false, true)

  /** Indices of the items that carry the `visible` class. */
  function VisibleIndices(items: seq<ItemClasses>): set<int>
  {
    set i | 0 <= i < |items| && items[i].visible
  }

  /** Every item carries exactly one of `visible` and `hidden`. */
  predicate ExactlyOneClass(items: seq<ItemClasses>)
  {
    forall i :: 0 <= i < |items| ==> items[i].visible != items[i].hidden
  }

  /** The `filter(x => !b.includes(x))` of the tick: the entries of `a` not in `b`. */
  function Without(a: seq<int>, b: seq<int>): (r: seq<int>)
    ensures forall x :: x in r <==> x in a && x !in b
    ensures |r| <= |a|
  {
    if a == [] then []
    else if a[0] in b then Without(a[1..], b)
    else [a[0]] + Without(a[1..], b)
  }

  /**
   * The items to hide (`current \ next`) and to show (`next \ current`) are
   * disjoint, and hiding the one and showing the other yields `next`.
   */
  lemma HideAndShowPartition(current: seq<int>, next: seq<int>)
    ensures forall x :: !(x in Without(current, next) && x in Without(next, current))
    ensures forall x :: (x in current && x !in Without(current, next)) || x in Without(next, current)
                        <==> x in next
  {
  }

  /**
   * The items after one rotating tick towards `target`: those leaving the
   * visible set are concealed, those entering it are shown, the rest are
   * left as they were.
   */
  function TickItems(items: seq<ItemClasses>, target: set<int>): seq<ItemClasses>
  {
    var current := VisibleIndices(items);
    var toHide := current - target;
    var toShow := target - current;
    seq(|items|, i requires 0 <= i < |items| =>
      if i in toShow then Shown else if i in toHide then Concealed else items[i])
  }

  /**
   * After a tick the visible items are exactly the target pattern, and an
   * item that carried exactly one class still does.
   */
  lemma TickShowsTarget(items: seq<ItemClasses>, target: set<int>)
    requires forall x :: x in target ==> 0 <= x < |items|
    ensures VisibleIndices(TickItems(items, target)) == target
    ensures ExactlyOneClass(items) ==> ExactlyOneClass(TickItems(items, target))
  {
  }

  /** The items after `resetBenefits` for `n` items at breakpoint `b`. */
  function ResetItems(n: nat, b: Breakpoint): seq<ItemClasses>
  {
    seq(n, i => if !ShouldRotate(b) || i < VisibleCount(b) then Shown else Concealed)
  }

  /**
   * A reset leaves every item with exactly one class: all visible on
   * desktop, and otherwise exactly the first pattern of the table.
   */
  lemma ResetShowsFirstPattern(n: nat, b: Breakpoint)
    requires MinItems <= n
    ensures ExactlyOneClass(ResetItems(n, b))
    ensures !ShouldRotate(b) ==> forall i :: 0 <= i < n ==> i in VisibleIndices(ResetItems(n, b))
    ensures ShouldRotate(b) ==> VisibleIndices(ResetItems(n, b)) == PatternSet(PatternsFor(b)[0])
  {
  }

  /** The first tick after a reset has nothing to hide and nothing to show. */
  lemma FirstTickAfterResetIsQuiet(n: nat, b: Breakpoint)
    requires MinItems <= n && ShouldRotate(b)
    ensures var target := PatternSet(PatternsFor(b)[0]);
            var current := VisibleIndices(ResetItems(n, b));
            current - target == {} && target - current == {}
            && TickItems(ResetItems(n, b), target) == ResetItems(n, b)
  {
  }

  /** `(currentRotation + 1) % patterns.length` for the table of `b`. */
  function NextRotation(r: nat, b: Breakpoint): (n: nat)
    ensures n < 5
    ensures r < 4 ==> n == r + 1
    ensures r == 4 ==> n == 0
  {
    (r + 1) % |PatternsFor(b)|
  }

  /** The counter after one call of `rotateBenefits` at viewport width `width`. */
  function TickRotation(r: nat, width: int): nat
  {
    var b := CurrentBreakpoint(width);
    if ShouldRotate(b) then NextRotation(r, b) else r
  }

  /** The counter after one tick per width in `widths`, first to last. */
  function RotationAfter(r: nat, widths: seq<int>): nat
    decreases |widths|
  {
    if widths == [] then r else RotationAfter(TickRotation(r, widths[0]), widths[1..])
  }

  /**
   * The counter stays below 5 whatever the widths, even when the breakpoint
   * switches between mobile and tablet without a reset.
   */
  lemma {:induction false} RotationStaysInRange(r: nat, widths: seq<int>)
    requires r < 5
    ensures RotationAfter(r, widths) < 5
    decreases |widths|
  {
    if widths != [] {
      RotationStaysInRange(TickRotation(r, widths[0]), widths[1..]);
    }
  }

  /** Each rotating tick advances the counter by one, modulo 5. */
  lemma {:induction false} RotatingTicksAdvance(r: nat, widths: seq<int>)
    requires r < 5
    requires forall i :: 0 <= i < |widths| ==> ShouldRotate(CurrentBreakpoint(widths[i]))
    ensures RotationAfter(r, widths) == (r + |widths|) % 5
    decreases |widths|
  {
    if widths != [] {
      var next := TickRotation(r, widths[0]);
      assert next == (r + 1) % 5;
      RotatingTicksAdvance(next, widths[1..]);
      assert (next + (|widths| - 1)) % 5 == (r + |widths|) % 5;
    }
  }

  /** Five rotating ticks bring the counter back to where it started. */
  lemma FiveRotatingTicksReturn(r: nat, widths: seq<int>)
    requires r < 5 && |widths| == 5
    requires forall i :: 0 <= i < |widths| ==> ShouldRotate(CurrentBreakpoint(widths[i]))
    ensures RotationAfter(r, widths) == r
  {
    RotatingTicksAdvance(r, widths);
  }

  /** The host's table of running intervals, and the id the next one gets. */
  datatype TimerTable = TimerTable(live: set<nat>, nextId: nat)

  /** The ids a handle refers to (`null` refers to none). */
  function HandleSet(handle: Option<nat>): set<nat>
  {
    if handle.Some? then {handle.value} else {}
  }

  /** `clearInterval(handle)`: stops that interval, and only that one. */
  function ClearInterval(t: TimerTable, handle: Option<nat>): (r: TimerTable)
    ensures r.nextId == t.nextId
    ensures r.live <= t.live && r.live !! HandleSet(handle)
    ensures t.live - r.live <= HandleSet(handle)
  {
    t.(live := t.live - HandleSet(handle))
  }

  /** `setInterval(...)`: starts one more interval and returns its id. */
  function SetInterval(t: TimerTable): (r: (TimerTable, nat))
    ensures r.1 in r.0.live && r.0.live - {r.1} == t.live - {r.1}
    ensures r.1 !in t.live <== forall id :: id in t.live ==> id < t.nextId
  {
    (TimerTable(t.live + {t.nextId}, t.nextId + 1), t.nextId)
  }

  /** No running interval except, possibly, the one the handle refers to. */
  predicate NoLeak(t: TimerTable, handle: Option<nat>)
  {
    t.live <= HandleSet(handle)
  }

  /** Without a leak at most one interval is running. */
  lemma NoLeakAtMostOneInterval(t: TimerTable, handle: Option<nat>)
    requires NoLeak(t, handle)
    ensures |t.live| <= 1
  {
    if handle.Some? {
      assert t.live == {} || t.live == {handle.value};
    } else {
      assert t.live == {};
    }
  }

  /** Clearing before starting, as reset and resume do, leaves the new interval alone running. */
  lemma RestartLeavesOneInterval(t: TimerTable, handle: Option<nat>)
    requires NoLeak(t, handle)
    ensures var started := SetInterval(ClearInterval(t, handle));
            started.0.live == {started.1} && NoLeak(started.0, Some(started.1))
  {
  }

  class BenefitRotator {
    /** The `.benefit-item` elements, in document order. */
    const items: array<ItemClasses>
    var currentRotation: nat
    /** The handle `rotationInterval` (None for `null`). */
    var rotationInterval: Option<nat>
    /** The host's interval table. */
    var timers: TimerTable

    /** Counter and timer bookkeeping. */
    ghost predicate Consistent()
      reads this
    {
      MinItems <= items.Length && currentRotation < 5 && NoLeak(timers, rotationInterval)
    }

    /** Consistent, and every item carries exactly one of the two classes. */
    ghost predicate Valid()
      reads this, items
    {
      Consistent() && ExactlyOneClass(items[..])
    }

    /** Wiring on DOMContentLoaded: take the items and run `resetBenefits` once. */
    constructor (elements: array<ItemClasses>, width: int)
      requires MinItems <= elements.Length
      modifies elements
      ensures Valid() && items == elements
      ensures currentRotation == 0
      ensures items[..] == ResetItems(elements.Length, CurrentBreakpoint(width))
      ensures timers.live == (if ShouldRotate(CurrentBreakpoint(width)) then {0} else {})
    {
      items := elements;
      currentRotation := 0;
      rotationInterval := None;
      timers := TimerTable({}, 0);
      new;
      ResetBenefits(width);
    }

    /**
     * `resetBenefits`: stop the interval, restart the counter, show the
     * initial items for the breakpoint and, when rotating, start a new
     * interval.
     */
    method ResetBenefits(width: int)
      requires Consistent()
      modifies this`currentRotation, this`rotationInterval, this`timers, items
      ensures Valid()
      ensures currentRotation == 0
      ensures items[..] == ResetItems(items.Length, CurrentBreakpoint(width))
      ensures var cleared := ClearInterval(old(timers), old(rotationInterval));
              var started := SetInterval(cleared);
              if ShouldRotate(CurrentBreakpoint(width))
              then timers == started.0 && rotationInterval == Some(started.1)
              else timers == cleared && rotationInterval == old(rotationInterval)
      ensures timers.live ==
              (if ShouldRotate(CurrentBreakpoint(width)) then HandleSet(rotationInterval) else {})
    {
      timers := ClearInterval(timers, rotationInterval);
      currentRotation := 0;
      ghost var cleared := timers;
      var breakpoint := CurrentBreakpoint(width);
      ResetShowsFirstPattern(items.Length, breakpoint);
      if !ShouldRotate(breakpoint) {
        var i := 0;
        while i < items.Length
          invariant 0 <= i <= items.Length
          invariant forall j :: 0 <= j < i ==> items[j] == Shown
          invariant currentRotation == 0 && timers == cleared && rotationInterval == old(rotationInterval)
        {
          items[i] := Shown;
          i := i + 1;
        }
        assert items[..] == ResetItems(items.Length, breakpoint);
        return;
      }
      var visibleCount := VisibleCount(breakpoint);
      var i := 0;
      while i < items.Length
        invariant 0 <= i <= items.Length
        invariant forall j :: 0 <= j < i ==> items[j] == ResetItems(items.Length, breakpoint)[j]
        invariant currentRotation == 0 && timers == cleared && rotationInterval == old(rotationInterval)
      {
        if i < visibleCount {
          items[i] := Shown;
        } else {
          items[i] := Concealed;
        }
        i := i + 1;
      }
      assert items[..] == ResetItems(items.Length, breakpoint);
      var started := SetInterval(timers);
      timers, rotationInterval := started.0, Some(started.1);
    }

    /** `Array.from(benefitItems).filter(...)`: the indices of visible items, in order. */
    method CurrentVisible() returns (visible: seq<int>)
      ensures forall i :: i in visible <==> 0 <= i < items.Length && items[i].visible
    {
      visible := [];
      var i := 0;
      while i < items.Length
        invariant 0 <= i <= items.Length
        invariant forall j :: j in visible <==> 0 <= j < i && items[j].visible
      {
        if items[i].visible {
          visible := visible + [i];
        }
        i := i + 1;
      }
    }

    /** `animateOut`, once its delay has passed: conceal the given items. */
    method AnimateOut(elements: seq<int>)
      requires forall k :: k in elements ==> 0 <= k < items.Length
      modifies items
      ensures forall i :: 0 <= i < items.Length ==>
                items[i] == if i in elements then Concealed else old(items[i])
    {
      var n := 0;
      while n < |elements|
        invariant 0 <= n <= |elements|
        invariant forall i :: 0 <= i < items.Length ==>
                    items[i] == if i in elements[..n] then Concealed else old(items[i])
      {
        assert elements[n] in elements;
        items[elements[n]] := Concealed;
        n := n + 1;
      }
      assert elements[..n] == elements;
    }

    /** `animateIn`: show the given items. */
    method AnimateIn(elements: seq<int>)
      requires forall k :: k in elements ==> 0 <= k < items.Length
      modifies items
      ensures forall i :: 0 <= i < items.Length ==>
                items[i] == if i in elements then Shown else old(items[i])
    {
      var n := 0;
      while n < |elements|
        invariant 0 <= n <= |elements|
        invariant forall i :: 0 <= i < items.Length ==>
                    items[i] == if i in elements[..n] then Shown else old(items[i])
      {
        assert elements[n] in elements;
        items[elements[n]] := Shown;
        n := n + 1;
      }
      assert elements[..n] == elements;
    }

    /**
     * `rotateBenefits`: on desktop nothing happens; otherwise the items move
     * to the pattern at the current counter, and the counter advances.
     */
    method RotateBenefits(width: int)
      requires Valid()
      modifies this`currentRotation, items
      ensures Valid()
      ensures currentRotation == TickRotation(old(currentRotation), width)
      ensures var b := CurrentBreakpoint(width);
              if ShouldRotate(b) then
                currentRotation == NextRotation(old(currentRotation), b) &&
                items[..] == TickItems(old(items[..]), PatternSet(PatternsFor(b)[old(currentRotation)]))
              else
                currentRotation == old(currentRotation) && items[..] == old(items[..])
      ensures var b := CurrentBreakpoint(width);
              ShouldRotate(b) ==>
                VisibleIndices(items[..]) == PatternSet(PatternsFor(b)[old(currentRotation)])
    {
      var breakpoint := CurrentBreakpoint(width);
      if !ShouldRotate(breakpoint) {
        return;
      }
      var patterns := PatternsFor(breakpoint);
      var visibleIndexes := patterns[currentRotation];
      ghost var before := items[..];
      ghost var target := PatternSet(visibleIndexes);

      var currentVisible := CurrentVisible();
      var newVisible := visibleIndexes;
      var elementsToHide := Without(currentVisible, newVisible);
      var elementsToShow := Without(newVisible, currentVisible);

      if |elementsToHide| > 0 {
        AnimateOut(elementsToHide);
      }
      ghost var middle := items[..];
      if |elementsToShow| > 0 {
        AnimateIn(elementsToShow);
      }
      currentRotation := (currentRotation + 1) % |patterns|;

      forall i | 0 <= i < items.Length
        ensures items[..][i] == TickItems(before, target)[i]
      {
        assert i in elementsToShow <==> i in target - VisibleIndices(before);
        assert i in elementsToHide <==> i in VisibleIndices(before) - target;
      }
      assert items[..] == TickItems(before, target);
      TickShowsTarget(before, target);
    }

    /** `BenefitRotator.pause()`: stop the interval. */
    method Pause()
      requires Valid()
      modifies this`timers
      ensures Valid()
      ensures timers == ClearInterval(old(timers), rotationInterval) && timers.live == {}
    {
      timers := ClearInterval(timers, rotationInterval);
    }

    /** `BenefitRotator.resume()`: stop the interval, then start a fresh one. */
    method Resume()
      requires Valid()
      modifies this`timers, this`rotationInterval
      ensures Valid()
      ensures var started := SetInterval(ClearInterval(old(timers), old(rotationInterval)));
              timers == started.0 && rotationInterval == Some(started.1)
      ensures timers.live == HandleSet(rotationInterval)
    {
      timers := ClearInterval(timers, rotationInterval);
      var started := SetInterval(timers);
      timers, rotationInterval := started.0, Some(started.1);
    }
  }

  /**
   * The DOMContentLoaded guard: with fewer than five items nothing starts
   * and nothing is touched.
   */
  method Start(elements: array<ItemClasses>, width: int) returns (rotator: Option<BenefitRotator>)
    modifies elements
    ensures rotator.None? <==> elements.Length < MinItems
    ensures rotator.None? ==> elements[..] == old(elements[..])
    ensures rotator.Some? ==>
              fresh(rotator.value) && rotator.value.items == elements && rotator.value.Valid()
              && rotator.value.currentRotation == 0
              && elements[..] == ResetItems(elements.Length, CurrentBreakpoint(width))
              && rotator.value.timers.live ==
                   (if ShouldRotate(CurrentBreakpoint(width)) then {0} else {})
  {
    if elements.Length < MinItems {
      return None;
    }
    var r := new BenefitRotator(elements, width);
    rotator := Some(r);
  }
}
