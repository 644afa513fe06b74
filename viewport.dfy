/** The `useMobileViewport` and `useDisableAnimationOnMobile` hooks. */
module Viewport {

  /** The device classes the hook reports. */
  datatype DeviceClass = Mobile | Tablet | Desktop

  /** Widths strictly below this are mobile. */
  const MobileBelow: int := 768
  /** Widths at least `MobileBelow` and strictly below this are tablet. */
  const TabletBelow: int := 1024

  /** The `if / else if / else` chain of `handleResize` on `window.innerWidth`. */
  function Classify(width: int): (c: DeviceClass)
    ensures c == Mobile <==> width < 768
    ensures c == Tablet <==> 768 <= width < 1024
    ensures c == Desktop <==> 1024 <= width
  {
    if width < MobileBelow then Mobile
    else if width < TabletBelow then Tablet
    else Desktop
  }

  /** What the hook returns: the class, two derived flags and whether the effect has run. */
  datatype ViewportInfo = ViewportInfo(viewport: DeviceClass, isMobile: bool, isTablet: bool, isMounted: bool)

  /** The hook's return value, built from its two pieces of state. */
  function InfoOf(viewport: DeviceClass, isMounted: bool): (info: ViewportInfo)
    ensures info.viewport == viewport && info.isMounted == isMounted
    ensures info.isMobile <==> viewport == Mobile
    ensures info.isTablet <==> viewport == Tablet
    ensures !(info.isMobile && info.isTablet)
  {
    ViewportInfo(viewport, viewport == Mobile, viewport == Tablet, isMounted)
  }

  /** The flags derived from a width once the hook is mounted: mobile and tablet exclude each other. */
  lemma FlagsOfWidth(width: int)
    ensures InfoOf(Classify(width), true).isMobile <==> width < 768
    ensures InfoOf(Classify(width), true).isTablet <==> 768 <= width < 1024
    ensures !(InfoOf(Classify(width), true).isMobile && InfoOf(Classify(width), true).isTablet)
  {
  }

  /** The sections animate when `enableScrollAnimation = !isMobile`: once mounted, exactly from 768 on. */
  lemma ScrollAnimationOfWidth(width: int)
    ensures !InfoOf(Classify(width), true).isMobile <==> width >= 768
  {
  }

  /** The boundary widths land on the documented side. */
  lemma ClassifyBoundaries()
    ensures Classify(767) == Mobile
    ensures Classify(768) == Tablet && Classify(1023) == Tablet
    ensures Classify(1024) == Desktop
  {
  }

  /** The state of one `useMobileViewport` instance. */
  class ViewportHook {
    var viewport: DeviceClass
    var isMounted: bool
    /** Whether the `resize` listener is registered. */
    var listening: bool

    /** First render: `useState('desktop')` and `useState(false)`, effect not yet run. */
    constructor ()
      ensures viewport == Desktop && !isMounted && !listening
    {
      viewport := Desktop;
      isMounted := false;
      listening := false;
    }

    /** The hook's return value for the current state. */
    function Info(): (info: ViewportInfo)
      reads this
      ensures info.viewport == viewport && info.isMounted == isMounted
      ensures info.isMobile <==> viewport == Mobile
      ensures info.isTablet <==> viewport == Tablet
      ensures !(info.isMobile && info.isTablet)
    {
      InfoOf(viewport, isMounted)
    }

    /** `handleResize`: reclassify the current width. Resizing to a width of the same class changes nothing. */
    method HandleResize(width: int)
      modifies this`viewport
      ensures viewport == Classify(width)
      ensures old(viewport) == Classify(width) ==> unchanged(this)
    {
      if width < MobileBelow {
        viewport := Mobile;
      } else if width < TabletBelow {
        viewport := Tablet;
      } else {
        viewport := Desktop;
      }
    }

    /** The mount effect: mark mounted, classify the current width once, register the listener. */
    method Mount(width: int)
      modifies this
      ensures isMounted && listening
      ensures viewport == Classify(width)
    {
      isMounted := true;
      HandleResize(width);
      listening := true;
    }

    /** The effect's cleanup: remove the listener; the state is left as it was. */
    method Unmount()
      modifies this`listening
      ensures !listening
    {
      listening := false;
    }
  }

  /** `isMobile || prefersReducedMotion`: reduced motion disables animation at any width. */
  function ShouldDisable(isMobile: bool, prefersReducedMotion: bool): (disable: bool)
    ensures prefersReducedMotion ==> disable
    ensures !prefersReducedMotion ==> (disable <==> isMobile)
  {
    isMobile || prefersReducedMotion
  }

  /** With a mounted viewport hook, animation is disabled exactly below 768 or under reduced motion. */
  lemma ShouldDisableOfWidth(width: int, prefersReducedMotion: bool)
    ensures ShouldDisable(InfoOf(Classify(width), true).isMobile, prefersReducedMotion)
            <==> width < 768 || prefersReducedMotion
  {
  }

  /** The state of one `useDisableAnimationOnMobile` instance. */
  class DisableAnimationHook {
    var shouldDisable: bool

    /** First render: `useState(false)`. */
    constructor ()
      ensures !shouldDisable
    {
      shouldDisable := false;
    }

    /** The effect that runs when `isMobile` or the motion preference changes. */
    method Sync(isMobile: bool, prefersReducedMotion: bool)
      modifies this
      ensures shouldDisable == ShouldDisable(isMobile, prefersReducedMotion)
    {
      shouldDisable := isMobile || prefersReducedMotion;
    }
  }
}
