/**
  Device classification (`useDeviceDetection`): the breakpoint of a window
  width, the mobile/tablet/desktop flags and the orientation.  The window is
  a parameter: its size in CSS pixels and whether it reports touch.
 */
module DeviceDetection {
  import opened Wrappers

  /** The breakpoints, narrowest first; `Xxl` is `2xl`. */
  datatype ScreenSize = Xs | Sm | Md | Lg | Xl | Xxl
  {
    /** The breakpoint's position, narrowest first. */
    function Rank(): (n: nat)
      ensures n < 6
    {
      match this
      case Xs => 0 case Sm => 1 case Md => 2 case Lg => 3 case Xl => 4 case Xxl => 5
    }
  }

  datatype Orientation = Portrait | Landscape

  /** `DeviceInfo`. */
  datatype DeviceInfo = DeviceInfo(
    isMobile: bool,
    isTablet: bool,
    isDesktop: bool,
    isTouchDevice: bool,
    screenSize: ScreenSize,
    orientation: Orientation)

  /** What the hook reads from the window. */
  datatype Window = Window(width: int, height: int, touch: bool)

  /** The widths at which `sm`, `md`, `lg` (tablet), `xl` (desktop) and `2xl` begin. */
  const SmFrom: int := 480
  const MdFrom: int := 640
  const TabletFrom: int := 768
  const DesktopFrom: int := 1024
  const XxlFrom: int := 1280

  /** `getScreenSize`: the first breakpoint whose bound exceeds the width. */
  function ScreenSizeOf(width: int): (s: ScreenSize)
    ensures s.Xs? <==> width < SmFrom
    ensures s.Sm? <==> SmFrom <= width < MdFrom
    ensures s.Md? <==> MdFrom <= width < TabletFrom
    ensures s.Lg? <==> TabletFrom <= width < DesktopFrom
    ensures s.Xl? <==> DesktopFrom <= width < XxlFrom
    ensures s.Xxl? <==> XxlFrom <= width
  {
    if width < SmFrom then Xs
    else if width < MdFrom then Sm
    else if width < TabletFrom then Md
    else if width < DesktopFrom then Lg
    else if width < XxlFrom then Xl
    else Xxl
  }

  /** A wider window never has a narrower breakpoint. */
  lemma ScreenSizeMonotone(w1: int, w2: int)
    requires w1 <= w2
    ensures ScreenSizeOf(w1).Rank() <= ScreenSizeOf(w2).Rank()
  {
  }

  /** The information for a window, or the fixed desktop answer without one. */
  function Detect(window: Option<Window>): (d: DeviceInfo)
    ensures window.None? ==>
      !d.isMobile && !d.isTablet && d.isDesktop && !d.isTouchDevice && d.screenSize == Lg && d.orientation == Landscape
    ensures window.Some? ==> d.screenSize == ScreenSizeOf(window.value.width) && d.isTouchDevice == window.value.touch
    ensures window.Some? ==> (d.orientation == Landscape <==> window.value.width > window.value.height)
    ensures window.Some? ==> (d.isMobile <==> window.value.width < TabletFrom)
    ensures window.Some? ==> (d.isDesktop <==> window.value.width >= DesktopFrom)
  {
    match window
    case None => DeviceInfo(false, false, true, false, Lg, Landscape)
    case Some(w) =>
      DeviceInfo(
        w.width < TabletFrom,
        w.width >= TabletFrom && w.width < DesktopFrom,
        w.width >= DesktopFrom,
        w.touch,
        ScreenSizeOf(w.width),
        if w.width > w.height then Landscape else Portrait)
  }

  /** Exactly one of the three device flags holds, with or without a window. */
  predicate ExactlyOneKind(d: DeviceInfo)
  {
    (d.isMobile && !d.isTablet && !d.isDesktop) ||
    (!d.isMobile && d.isTablet && !d.isDesktop) ||
    (!d.isMobile && !d.isTablet && d.isDesktop)
  }

  lemma OneKindOfDevice(window: Option<Window>)
    ensures ExactlyOneKind(Detect(window))
  {
  }

  /** With a window, the flags follow the breakpoint: mobile up to `md`,
      tablet at `lg`, desktop from `xl`. */
  lemma FlagsFollowScreenSize(w: Window)
    ensures var d := Detect(Some(w));
      (d.isMobile <==> d.screenSize.Rank() <= Md.Rank()) &&
      (d.isTablet <==> d.screenSize == Lg) &&
      (d.isDesktop <==> d.screenSize.Rank() >= Xl.Rank())
  {
  }

  /** A square window is portrait. */
  lemma SquareIsPortrait(side: int, touch: bool)
    ensures Detect(Some(Window(side, side, touch))).orientation == Portrait
  {
  }

  /** The answer without a window pairs the desktop flag with the `lg`
      breakpoint, which no window of any size produces. */
  lemma DefaultIsNoWindowsAnswer(w: Window)
    ensures Detect(Some(w)) != Detect(None)
  {
  }
}
