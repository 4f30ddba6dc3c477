/**
 * The recommended-products carousel: an integer offset `currentIndex` into
 * `totalCards` cards, of which `cardsPerView` (derived from the viewport
 * width) are visible at once.  Buttons, the arrow keys and horizontal swipes
 * move the offset one card at a time; `GoToSlide` jumps to a clamped target;
 * a resize recomputes the view size and resets the offset.
 *
 * The pure part (state, events, `Step`) is the specification; the class
 * `RecommendedProductsSlider` updates its fields in place as the widget does
 * and each of its methods is proved to perform one `Step`.
 */
module Slider {
  import opened Wrappers

  /** A swipe must travel strictly more than this many pixels horizontally. */
  const MinSwipeDistance: int := 50

  /** The value `init` gives `cardsPerView` before the first width measurement. */
  const InitialCardsPerView: int := 5

  function Max(a: int, b: int): int { if a >= b then a else b }
  function Min(a: int, b: int): int { if a <= b then a else b }
  function Abs(x: int): nat { if x < 0 then -x else x }

  /** Number of cards shown side by side for a viewport width. */
  function CardsPerView(width: int): (n: int)
    ensures 1 <= n <= 5
  {
    if width <= 480 then 1
    else if width <= 768 then 2
    else if width <= 1200 then 4
    else 5
  }

  /** A wider viewport never shows fewer cards. */
  lemma CardsPerViewMonotone(narrow: int, wide: int)
    requires narrow <= wide
    ensures CardsPerView(narrow) <= CardsPerView(wide)
  {
  }

  /** The four bands and their boundaries. */
  lemma CardsPerViewBands(width: int)
    ensures CardsPerView(width) == 1 <==> width <= 480
    ensures CardsPerView(width) == 2 <==> 480 < width <= 768
    ensures CardsPerView(width) == 4 <==> 768 < width <= 1200
    ensures CardsPerView(width) == 5 <==> 1200 < width
  {
  }

  /**
   * The largest offset: the last window still full of cards, or 0 when all
   * cards fit in one window.
   */
  function MaxIndex(totalCards: int, cardsPerView: int): (m: int)
    ensures 0 <= m && totalCards - cardsPerView <= m
    ensures m == 0 || m == totalCards - cardsPerView
  {
    Max(0, totalCards - cardsPerView)
  }

  /** The offset `goToSlide` lands on for an arbitrary requested index. */
  function ClampIndex(index: int, totalCards: int, cardsPerView: int): (r: int)
    ensures 0 <= r <= MaxIndex(totalCards, cardsPerView)
    ensures 0 <= index <= MaxIndex(totalCards, cardsPerView) ==> r == index
    ensures index < 0 ==> r == 0
    ensures MaxIndex(totalCards, cardsPerView) < index ==> r == MaxIndex(totalCards, cardsPerView)
  {
    Max(0, Min(MaxIndex(totalCards, cardsPerView), index))
  }

  /** Clamping an already clamped index changes nothing. */
  lemma ClampIndexIdempotent(index: int, totalCards: int, cardsPerView: int)
    ensures var r := ClampIndex(index, totalCards, cardsPerView);
            ClampIndex(r, totalCards, cardsPerView) == r
  {
  }

  datatype Direction = Previous | Next

  /** Mirror image of a direction. */
  function Opposite(d: Direction): Direction
  {
    match d
    case Previous => Next
    case Next => Previous
  }

  /** The keydown handler: which navigation a key triggers, if any. */
  function KeyCommand(key: string): (d: Option<Direction>)
    ensures d == Some(Previous) <==> key == "ArrowLeft"
    ensures d == Some(Next) <==> key == "ArrowRight"
  {
    if key == "ArrowLeft" then Some(Previous)
    else if key == "ArrowRight" then Some(Next)
    else None
  }

  /**
   * The touchend decision for a gesture from (startX, startY) to
   * (endX, endY): a mostly horizontal move longer than MinSwipeDistance
   * navigates; moving the finger to the left (startX > endX) means Next.
   */
  function SwipeDirection(startX: int, startY: int, endX: int, endY: int): (d: Option<Direction>)
  {
    var diffX := startX - endX;
    var diffY := startY - endY;
    if Abs(diffX) > Abs(diffY) && Abs(diffX) > MinSwipeDistance then
      if diffX > 0 then Some(Next) else Some(Previous)
    else None
  }

  /** When a gesture navigates at all, and in which direction. */
  lemma SwipeDirectionCharacterized(startX: int, startY: int, endX: int, endY: int)
    ensures var d := SwipeDirection(startX, startY, endX, endY);
            (d.Some? <==> Abs(startX - endX) > Abs(startY - endY) && Abs(startX - endX) > MinSwipeDistance)
            && (d == Some(Next) ==> endX < startX - MinSwipeDistance)
            && (d == Some(Previous) ==> startX + MinSwipeDistance < endX)
  {
  }

  /** Both comparisons are strict: a horizontal move of exactly 50 pixels does nothing. */
  lemma SwipeOfExactlyMinDistanceIgnored(x: int, y: int)
    ensures SwipeDirection(x, y, x - MinSwipeDistance, y) == None
    ensures SwipeDirection(x, y, x + MinSwipeDistance, y) == None
    ensures SwipeDirection(x, y, x - MinSwipeDistance - 1, y) == Some(Next)
    ensures SwipeDirection(x, y, x + MinSwipeDistance + 1, y) == Some(Previous)
  {
  }

  /** A horizontal move that is no longer than the vertical one never navigates. */
  lemma DiagonalSwipeIgnored(startX: int, startY: int, endX: int, endY: int)
    requires Abs(startX - endX) <= Abs(startY - endY)
    ensures SwipeDirection(startX, startY, endX, endY) == None
  {
  }

  /** Only displacement matters: moving the whole gesture leaves the decision alone. */
  lemma SwipeDirectionTranslationInvariant(startX: int, startY: int, endX: int, endY: int, dx: int, dy: int)
    ensures SwipeDirection(startX + dx, startY + dy, endX + dx, endY + dy)
         == SwipeDirection(startX, startY, endX, endY)
  {
  }

  /** Playing a gesture backwards reverses its direction. */
  lemma SwipeDirectionReversed(startX: int, startY: int, endX: int, endY: int)
    ensures var d := SwipeDirection(startX, startY, endX, endY);
            var e := SwipeDirection(endX, endY, startX, startY);
            d.Some? == e.Some? && (d.Some? ==> e.value == Opposite(d.value))
  {
  }

  /** Sample gestures: left swipe, right swipe and a mostly vertical one. */
  lemma SwipeExamples()
    ensures SwipeDirection(100, 100, 40, 105) == Some(Next)
    ensures SwipeDirection(100, 100, 160, 105) == Some(Previous)
    ensures SwipeDirection(100, 100, 120, 180) == None
  {
  }

  /**
   * The carousel's whole state: the offset, the card count and view size,
   * and the touch handlers' closure variables.
   */
  datatype SliderState = SliderState(
    currentIndex: int,
    totalCards: nat,
    cardsPerView: int,
    startX: int,
    startY: int,
    isDragging: bool)

  /** The carousel's invariant: a sane view size and an offset inside the range. */
  predicate Inv(s: SliderState)
  {
    1 <= s.cardsPerView <= 5 &&
    0 <= s.currentIndex <= MaxIndex(s.totalCards, s.cardsPerView)
  }

  /** Everything that can happen to a carousel. */
  datatype Event =
    | Navigate(direction: Direction)   // previousSlide / nextSlide, e.g. a button click
    | GoTo(index: int)                 // goToSlide(index)
    | Resize(width: int)               // window resize, with the new width
    | KeyDown(key: string)             // keydown on the slider
    | TouchStart(x: int, y: int)       // first touch point of touchstart
    | TouchEnd(x: int, y: int)         // first changed touch point of touchend

  /** State right after `init` for a track with `totalCards` cards. */
  function Init(totalCards: nat, width: int): (s: SliderState)
    ensures Inv(s) && s.currentIndex == 0 && !s.isDragging
  {
    SliderState(0, totalCards, CardsPerView(width), 0, 0, false)
  }

  /** One step of previousSlide or nextSlide; only the offset moves. */
  function Move(s: SliderState, d: Direction): (t: SliderState)
    ensures t == s.(currentIndex := t.currentIndex)
    ensures Inv(s) ==> Inv(t)
    ensures Inv(s) && d == Previous ==>
      t.currentIndex == (if s.currentIndex == 0 then 0 else s.currentIndex - 1)
    ensures Inv(s) && d == Next ==>
      t.currentIndex ==
        (if s.currentIndex == MaxIndex(s.totalCards, s.cardsPerView) then s.currentIndex
         else s.currentIndex + 1)
  {
    match d
    case Previous => s.(currentIndex := Max(0, s.currentIndex - 1))
    case Next => s.(currentIndex := Min(MaxIndex(s.totalCards, s.cardsPerView), s.currentIndex + 1))
  }

  /** The effect of one event on the carousel. */
  function Step(s: SliderState, e: Event): (t: SliderState)
    ensures t.totalCards == s.totalCards
    ensures Inv(s) ==> Inv(t)
  {
    match e
    case Navigate(d) => Move(s, d)
    case GoTo(index) => s.(currentIndex := ClampIndex(index, s.totalCards, s.cardsPerView))
    case Resize(width) => s.(cardsPerView := CardsPerView(width), currentIndex := 0)
    case KeyDown(key) =>
      var command := KeyCommand(key);
      if command.Some? then Move(s, command.value) else s
    case TouchStart(x, y) => s.(startX := x, startY := y, isDragging := true)
    case TouchEnd(x, y) =>
      if !s.isDragging then s
      else
        var swipe := SwipeDirection(s.startX, s.startY, x, y);
        var moved := if swipe.Some? then Move(s, swipe.value) else s;
        moved.(isDragging := false)
  }

  /** The effect of a sequence of events, first to last. */
  function Run(s: SliderState, events: seq<Event>): SliderState
    decreases |events|
  {
    if events == [] then s else Run(Step(s, events[0]), events[1..])
  }

  /** `k` copies of one event. */
  function Repeat(e: Event, k: nat): (es: seq<Event>)
    ensures |es| == k && forall i :: 0 <= i < k ==> es[i] == e
  {
    if k == 0 then [] else [e] + Repeat(e, k - 1)
  }

  /** The offset stays in range, and the card count fixed, whatever the events. */
  lemma {:induction false} RunPreservesInv(s: SliderState, events: seq<Event>)
    requires Inv(s)
    ensures Inv(Run(s, events)) && Run(s, events).totalCards == s.totalCards
    decreases |events|
  {
    if events != [] {
      RunPreservesInv(Step(s, events[0]), events[1..]);
    }
  }

  /** `k` Next steps advance the offset by `k`, stopping at the last full window. */
  lemma {:induction false} RepeatedNext(s: SliderState, k: nat)
    requires Inv(s)
    ensures Run(s, Repeat(Navigate(Next), k)).currentIndex
         == Min(s.currentIndex + k, MaxIndex(s.totalCards, s.cardsPerView))
    decreases k
  {
    if k > 0 {
      var t := Step(s, Navigate(Next));
      assert Repeat(Navigate(Next), k)[1..] == Repeat(Navigate(Next), k - 1);
      RepeatedNext(t, k - 1);
    }
  }

  /** `k` Previous steps move the offset back by `k`, stopping at 0. */
  lemma {:induction false} RepeatedPrevious(s: SliderState, k: nat)
    requires Inv(s)
    ensures Run(s, Repeat(Navigate(Previous), k)).currentIndex == Max(0, s.currentIndex - k)
    decreases k
  {
    if k > 0 {
      var t := Step(s, Navigate(Previous));
      assert Repeat(Navigate(Previous), k)[1..] == Repeat(Navigate(Previous), k - 1);
      RepeatedPrevious(t, k - 1);
    }
  }

  /** With 12 cards and 5 per view, k Next presses from the start reach min(k, 7). */
  lemma TwelveCardsFivePerView(k: nat)
    ensures var s := SliderState(0, 12, 5, 0, 0, false);
            Run(s, Repeat(Navigate(Next), k)).currentIndex == Min(k, 7)
  {
    RepeatedNext(SliderState(0, 12, 5, 0, 0, false), k);
  }

  /** When every card fits in one window, Next never leaves offset 0. */
  lemma NextWhenAllCardsFit(s: SliderState)
    requires Inv(s) && s.totalCards <= s.cardsPerView
    ensures Step(s, Navigate(Next)).currentIndex == 0
  {
  }

  /** goToSlide is idempotent, and exact on targets inside the range. */
  lemma GoToSlideProperties(s: SliderState, index: int)
    ensures Step(Step(s, GoTo(index)), GoTo(index)) == Step(s, GoTo(index))
    ensures 0 <= index <= MaxIndex(s.totalCards, s.cardsPerView) ==>
      Step(s, GoTo(index)).currentIndex == index
  {
  }

  /** A resize recomputes the view size and returns to the first card, whatever the offset was. */
  lemma ResizeResets(s: SliderState, width: int)
    ensures Step(s, Resize(width)) ==
      s.(currentIndex := 0, cardsPerView := CardsPerView(width))
  {
  }

  /** ArrowLeft is previousSlide, ArrowRight is nextSlide, any other key does nothing. */
  lemma KeysActAsButtons(s: SliderState, key: string)
    ensures Step(s, KeyDown("ArrowLeft")) == Step(s, Navigate(Previous))
    ensures Step(s, KeyDown("ArrowRight")) == Step(s, Navigate(Next))
    ensures key != "ArrowLeft" && key != "ArrowRight" ==> Step(s, KeyDown(key)) == s
  {
  }

  /**
   * touchend does nothing without a preceding touchstart, always ends the
   * drag, and otherwise navigates exactly as the swipe classifier says.
   */
  lemma TouchEndRules(s: SliderState, x: int, y: int)
    ensures !Step(s, TouchEnd(x, y)).isDragging
    ensures !s.isDragging ==> Step(s, TouchEnd(x, y)) == s
    ensures s.isDragging ==>
      var d := SwipeDirection(s.startX, s.startY, x, y);
      Step(s, TouchEnd(x, y)) == (if d.Some? then Move(s, d.value) else s).(isDragging := false)
  {
  }

  /** A full gesture: touchstart at one point, touchend at another. */
  lemma SwipeGesture(s: SliderState, x0: int, y0: int, x1: int, y1: int)
    requires Inv(s)
    ensures var d := SwipeDirection(x0, y0, x1, y1);
            Run(s, [TouchStart(x0, y0), TouchEnd(x1, y1)]).currentIndex ==
              (if d.Some? then Move(s, d.value).currentIndex else s.currentIndex)
  {
    var started := Step(s, TouchStart(x0, y0));
    assert [TouchStart(x0, y0), TouchEnd(x1, y1)][1..] == [TouchEnd(x1, y1)];
    assert Run(s, [TouchStart(x0, y0), TouchEnd(x1, y1)]) == Run(started, [TouchEnd(x1, y1)]);
    assert Run(started, [TouchEnd(x1, y1)]) == Run(Step(started, TouchEnd(x1, y1)), []);
  }

  /** The snapshot `getStatus` returns. */
  datatype Status = Status(currentIndex: int, totalCards: nat, cardsPerView: int, maxIndex: int)

  class RecommendedProductsSlider {
    var currentIndex: int
    var totalCards: nat
    var cardsPerView: int
    // closure variables of the touch handlers
    var startX: int
    var startY: int
    var isDragging: bool

    /** The abstract state the fields stand for. */
    function State(): SliderState
      reads this
    {
      SliderState(currentIndex, totalCards, cardsPerView, startX, startY, isDragging)
    }

    ghost predicate Valid()
      reads this
    {
      Inv(State())
    }

    /** `init`: count the cards, start at offset 0 and measure the viewport. */
    constructor (cardCount: nat, width: int)
      ensures Valid() && State() == Init(cardCount, width)
    {
      currentIndex := 0;
      totalCards := cardCount;
      cardsPerView := InitialCardsPerView;
      startX, startY, isDragging := 0, 0, false;
      new;
      UpdateCardsPerView(width);
    }

    /** Set `cardsPerView` from the viewport width; nothing else changes. */
    method UpdateCardsPerView(width: int)
      modifies this`cardsPerView
      ensures cardsPerView == CardsPerView(width)
    {
      if width <= 480 {
        cardsPerView := 1;
      } else if width <= 768 {
        cardsPerView := 2;
      } else if width <= 1200 {
        cardsPerView := 4;
      } else {
        cardsPerView := 5;
      }
    }

    method PreviousSlide()
      requires Valid()
      modifies this`currentIndex
      ensures Valid() && State() == Step(old(State()), Navigate(Previous))
    {
      currentIndex := Max(0, currentIndex - 1);
    }

    method NextSlide()
      requires Valid()
      modifies this`currentIndex
      ensures Valid() && State() == Step(old(State()), Navigate(Next))
    {
      var maxIndex := Max(0, totalCards - cardsPerView);
      currentIndex := Min(maxIndex, currentIndex + 1);
    }

    method GoToSlide(index: int)
      requires Valid()
      modifies this`currentIndex
      ensures Valid() && State() == Step(old(State()), GoTo(index))
    {
      var maxIndex := Max(0, totalCards - cardsPerView);
      currentIndex := Max(0, Min(maxIndex, index));
    }

    /** The resize listener. */
    method OnResize(width: int)
      requires Valid()
      modifies this`cardsPerView, this`currentIndex
      ensures Valid() && State() == Step(old(State()), Resize(width))
    {
      UpdateCardsPerView(width);
      currentIndex := 0;
    }

    /** The keydown listener. */
    method OnKeyDown(key: string)
      requires Valid()
      modifies this`currentIndex
      ensures Valid() && State() == Step(old(State()), KeyDown(key))
    {
      if key == "ArrowLeft" {
        PreviousSlide();
      } else if key == "ArrowRight" {
        NextSlide();
      }
    }

    /** The touchstart listener: remember where the finger went down. */
    method OnTouchStart(x: int, y: int)
      requires Valid()
      modifies this`startX, this`startY, this`isDragging
      ensures Valid() && State() == Step(old(State()), TouchStart(x, y))
    {
      startX := x;
      startY := y;
      isDragging := true;
    }

    /** The touchend listener: classify the gesture and navigate. */
    method OnTouchEnd(endX: int, endY: int)
      requires Valid()
      modifies this`currentIndex, this`isDragging
      ensures Valid() && State() == Step(old(State()), TouchEnd(endX, endY))
    {
      if !isDragging {
        return;
      }
      var diffX := startX - endX;
      var diffY := startY - endY;
      if Abs(diffX) > Abs(diffY) && Abs(diffX) > MinSwipeDistance {
        if diffX > 0 {
          NextSlide();
        } else {
          PreviousSlide();
        }
      }
      isDragging := false;
    }

    /** `getStatus`: a snapshot whose maxIndex bounds the offset. */
    method GetStatus() returns (status: Status)
      ensures status.currentIndex == currentIndex && status.totalCards == totalCards
      ensures status.cardsPerView == cardsPerView
      ensures status.maxIndex == MaxIndex(totalCards, cardsPerView)
      ensures Valid() ==> 0 <= status.currentIndex <= status.maxIndex
    {
      status := Status(currentIndex, totalCards, cardsPerView, Max(0, totalCards - cardsPerView));
    }
  }
}
