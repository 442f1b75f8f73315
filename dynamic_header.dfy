/** The sticky page header of both site scripts: it gains a heavier style
    past 100 pixels of scroll, and slides out of view while the page is
    scrolled further down past 200 pixels, coming back on any upward
    scroll. */
module DynamicHeader {

  const StyleThreshold: real := 100.0
  const HideThreshold: real := 200.0

  /** The hide rule: a downward scroll that ends beyond 200 pixels. */
  predicate HidesAt(lastScrollY: real, currentScrollY: real)
  {
    currentScrollY > lastScrollY && currentScrollY > HideThreshold
  }

  /** Scrolling back up always shows the header, and near the top it is never hidden. */
  lemma HideRule(lastScrollY: real, currentScrollY: real)
    ensures currentScrollY <= lastScrollY ==> !HidesAt(lastScrollY, currentScrollY)
    ensures currentScrollY <= HideThreshold ==> !HidesAt(lastScrollY, currentScrollY)
    ensures lastScrollY < currentScrollY && HideThreshold < currentScrollY ==> HidesAt(lastScrollY, currentScrollY)
  {
  }

  class Header {
    var lastScrollY: real
    var hidden: bool
    var elevated: bool

    constructor (scrollY: real)
      ensures lastScrollY == scrollY && !hidden && !elevated
    {
      lastScrollY := scrollY;
      hidden := false;
      elevated := false;
    }

    /** The (debounced) scroll handler. */
    method OnScroll(currentScrollY: real)
      modifies this
      ensures elevated == (currentScrollY > StyleThreshold)
      ensures hidden == HidesAt(old(lastScrollY), currentScrollY)
      ensures lastScrollY == currentScrollY
    {
      elevated := currentScrollY > StyleThreshold;
      if currentScrollY > lastScrollY && currentScrollY > HideThreshold {
        hidden := true;
      } else {
        hidden := false;
      }
      lastScrollY := currentScrollY;
    }
  }

  /** Two scroll events at the same position: the second one always shows the header. */
  lemma RepeatedPositionShows(y: real)
    ensures !HidesAt(y, y)
  {
  }
}
