/**
 * hooks/useScrollAnimation.ts: the scroll progress and the scroll direction
 * derived from the page's vertical position.
 */
module ScrollAnimation {
  import opened Common

  datatype Direction = Up | Down

  /** The hook's `scrollDirection` (null before the first move) and `lastScrollY`. */
  datatype DirectionState = DirectionState(direction: Option<Direction>, lastScrollY: real)

  const Initial: DirectionState := DirectionState(None, 0.0)

  /**
   * `getScrollProgress`: the position as a fraction of the scrollable height
   * (`scrollHeight - innerHeight`), capped at 1, and 0 when nothing scrolls.
   */
  function ScrollProgress(scrollY: real, docHeight: real): (p: real)
    ensures p <= 1.0
    ensures docHeight <= 0.0 ==> p == 0.0
    ensures scrollY >= 0.0 ==> p >= 0.0
    ensures docHeight > 0.0 && scrollY >= docHeight ==> p == 1.0
    ensures docHeight > 0.0 && scrollY < docHeight ==> p * docHeight == scrollY
  {
    if docHeight > 0.0 then (if scrollY / docHeight < 1.0 then scrollY / docHeight else 1.0) else 0.0
  }

  /** Scrolling further never lowers the progress. */
  lemma ProgressMonotone(y1: real, y2: real, docHeight: real)
    requires y1 <= y2
    ensures ScrollProgress(y1, docHeight) <= ScrollProgress(y2, docHeight)
  {
    if docHeight > 0.0 {
      assert y1 / docHeight <= y2 / docHeight by {
        assert y1 / docHeight * docHeight == y1 && y2 / docHeight * docHeight == y2;
      }
    }
  }

  /**
   * `updateScrollDirection` for the position `y`: a larger position is "down",
   * a smaller one "up", an equal one keeps the direction; the position is
   * remembered.
   */
  function Step(s: DirectionState, y: real): (r: DirectionState)
    ensures r.lastScrollY == y
    ensures y > s.lastScrollY <==> r.direction == Some(Down) && y != s.lastScrollY
    ensures y < s.lastScrollY <==> r.direction == Some(Up) && y != s.lastScrollY
    ensures y == s.lastScrollY ==> r.direction == s.direction
  {
    if y > s.lastScrollY then DirectionState(Some(Down), y)
    else if y < s.lastScrollY then DirectionState(Some(Up), y)
    else s.(lastScrollY := y)
  }

  /**
   * The effect runs again once `lastScrollY` has changed; that second run
   * sees an equal position and changes nothing.
   */
  lemma StepIdempotent(s: DirectionState, y: real)
    ensures Step(Step(s, y), y) == Step(s, y)
  {
  }

  /** The state after the positions `ys`, one effect run each. */
  function Run(s: DirectionState, ys: seq<real>): DirectionState
    decreases ys
  {
    if ys == [] then s else Run(Step(s, ys[0]), ys[1..])
  }

  /** After any positions the remembered one is the last of them. */
  lemma {:induction false} RunRemembersLast(s: DirectionState, ys: seq<real>)
    requires ys != []
    ensures Run(s, ys).lastScrollY == ys[|ys| - 1]
    decreases ys
  {
    if |ys| > 1 {
      RunRemembersLast(Step(s, ys[0]), ys[1..]);
    }
  }

  /**
   * With no direction yet, the direction stays null exactly as long as every
   * position equals the remembered one.
   */
  lemma {:induction false} NoDirectionUntilMoved(s: DirectionState, ys: seq<real>)
    requires s.direction.None?
    ensures Run(s, ys).direction.None? <==> forall i :: 0 <= i < |ys| ==> ys[i] == s.lastScrollY
    decreases ys
  {
    if ys != [] {
      if ys[0] == s.lastScrollY {
        NoDirectionUntilMoved(Step(s, ys[0]), ys[1..]);
        assert forall i :: 1 <= i < |ys| ==> ys[i] == ys[1..][i - 1];
      } else {
        SomeDirectionStays(Step(s, ys[0]), ys[1..]);
      }
    }
  }

  /** Once set, a direction is never null again. */
  lemma {:induction false} SomeDirectionStays(s: DirectionState, ys: seq<real>)
    requires s.direction.Some?
    ensures Run(s, ys).direction.Some?
    decreases ys
  {
    if ys != [] {
      SomeDirectionStays(Step(s, ys[0]), ys[1..]);
    }
  }

  /** The hook's direction state, updated in place on each position. */
  class ScrollDirection {
    var scrollDirection: Option<Direction>
    var lastScrollY: real

    function State(): DirectionState
      reads this
    {
      DirectionState(scrollDirection, lastScrollY)
    }

    constructor ()
      ensures State() == Initial
    {
      scrollDirection := None;
      lastScrollY := 0.0;
    }

    /** `updateScrollDirection` for the current `scrollY`. */
    method Update(scrollY: real)
      modifies this
      ensures State() == Step(old(State()), scrollY)
    {
      if scrollY > lastScrollY {
        scrollDirection := Some(Down);
      } else if scrollY < lastScrollY {
        scrollDirection := Some(Up);
      }
      lastScrollY := scrollY;
    }
  }
}

/**
 * components/ui/floating-nav.tsx: the navigation bar shows near the top of
 * the page and while scrolling up, and hides while scrolling down.
 */
module FloatingNav {
  import opened Common

  /** The position below which the bar is always shown. */
  const TopZone: real := 50.0

  datatype NavState = NavState(visible: bool, lastScrollY: real)

  const Initial: NavState := NavState(true, 0.0)

  /**
   * The `change` handler for the event value `current`, `None` when it is not
   * a number: a number sets the visibility and is remembered; anything else
   * changes nothing.
   */
  function Step(s: NavState, current: Option<real>): (r: NavState)
    ensures current.None? ==> r == s
    ensures current.Some? ==> r.lastScrollY == current.value
    ensures current.Some? ==>
              (r.visible <==> current.value < TopZone || current.value <= s.lastScrollY)
  {
    if current.None? then s
    else
      var y := current.value;
      if y < TopZone then NavState(true, y)
      else if y > s.lastScrollY then NavState(false, y)
      else NavState(true, y)
  }

  /** A second event at the same position shows the bar. */
  lemma RepeatShows(s: NavState, y: real)
    ensures Step(Step(s, Some(y)), Some(y)).visible
  {
  }

  /** The bar's state, updated in place on each scroll event. */
  class Nav {
    var visible: bool
    var lastScrollY: real

    function State(): NavState
      reads this
    {
      NavState(visible, lastScrollY)
    }

    constructor ()
      ensures State() == Initial
    {
      visible := true;
      lastScrollY := 0.0;
    }

    method OnChange(current: Option<real>)
      modifies this
      ensures State() == Step(old(State()), current)
    {
      if current.Some? {
        var y := current.value;
        if y < TopZone {
          visible := true;
        } else if y > lastScrollY {
          visible := false;
        } else {
          visible := true;
        }
        lastScrollY := y;
      }
    }
  }
}
