/** The hero section: scroll offset to progress, progress to the bento-grid interpolations, and the
    choice between the animated and the fixed mobile styles. */
module Hero {
  import opened Clamp

  /** `scrolled / scrollableHeight` clamped to [0, 1], with `scrolled = -rect.top` and
      `scrollableHeight = 2 * innerHeight`. The source does not guard a zero height. */
  function ScrollProgress(top: real, innerHeight: real): (p: real)
    requires innerHeight > 0.0
    ensures 0.0 <= p <= 1.0
    ensures -top <= 0.0 ==> p == 0.0
    ensures -top >= 2.0 * innerHeight ==> p == 1.0
    ensures 0.0 <= -top <= 2.0 * innerHeight ==> p * (2.0 * innerHeight) == -top
  {
    var scrollableHeight := innerHeight * 2.0;
    var scrolled := -top;
    Clamp01(scrolled / scrollableHeight)
  }

  /** The more the section has scrolled up (the smaller `top`), the larger the progress. */
  lemma ScrollProgressMonotone(top1: real, top2: real, innerHeight: real)
    requires innerHeight > 0.0
    requires top2 <= top1
    ensures ScrollProgress(top1, innerHeight) <= ScrollProgress(top2, innerHeight)
  {
    var h := innerHeight * 2.0;
    DivMonotone(-top1, -top2, h);
    Clamp01Monotone(-top1 / h, -top2 / h);
  }

  /** `Math.max(0, 1 - scrollProgress / 0.2)`: the title fades out over the first fifth. */
  function TextOpacity(progress: real): (o: real)
    ensures 0.0 <= o
    ensures 0.0 <= progress ==> o <= 1.0
    ensures progress == 0.0 ==> o == 1.0
    ensures progress >= 0.2 ==> o == 0.0
    ensures progress <= 0.2 ==> o == (0.2 - progress) * 5.0
  {
    var o := 1.0 - progress / 0.2;
    if 0.0 < o then o else 0.0
  }

  /** `Math.max(0, Math.min(1, (scrollProgress - 0.2) / 0.8))`: the reshape phase runs over [0.2, 1]. */
  function ImageProgress(progress: real): (i: real)
    ensures 0.0 <= i <= 1.0
    ensures progress <= 0.2 ==> i == 0.0
    ensures progress >= 1.0 ==> i == 1.0
    ensures 0.2 <= progress <= 1.0 ==> i * 0.8 == progress - 0.2
  {
    Clamp01((progress - 0.2) / 0.8)
  }

  /** Text and reshape phases are ordered: while the title is still visible no reshape has begun,
      and once the reshape has begun the title is gone. */
  lemma FadeThenReshape(progress: real)
    ensures TextOpacity(progress) > 0.0 ==> ImageProgress(progress) == 0.0
    ensures ImageProgress(progress) > 0.0 ==> TextOpacity(progress) == 0.0
  {
  }

  /** Both phase progresses are non-decreasing in the scroll progress. */
  lemma PhasesMonotone(p1: real, p2: real)
    requires p1 <= p2
    ensures TextOpacity(p1) >= TextOpacity(p2)
    ensures ImageProgress(p1) <= ImageProgress(p2)
  {
    Clamp01Monotone((p1 - 0.2) / 0.8, (p2 - 0.2) / 0.8);
  }

  /** The interpolated values computed on every render (percent, pixels, or unitless opacity). */
  datatype Frame = Frame(
    textOpacity: real,
    imageProgress: real,
    centerWidth: real,
    centerHeight: real,
    sideWidth: real,
    sideOpacity: real,
    sideTranslateLeft: real,
    sideTranslateRight: real,
    borderRadius: real,
    gap: real,
    sideTranslateY: real)

  /** The interpolations of lines 77-87, from the title opacity and the reshape progress `i`. */
  function FrameOf(textOpacity: real, i: real): (f: Frame)
    ensures f.textOpacity == textOpacity && f.imageProgress == i
    ensures f.sideTranslateRight == -f.sideTranslateLeft
  {
    Frame(
      textOpacity,
      i,
      100.0 - i * 58.0,
      100.0 - i * 30.0,
      i * 22.0,
      i,
      -100.0 + i * 100.0,
      100.0 - i * 100.0,
      i * 24.0,
      i * 16.0,
      -(i * 15.0))
  }

  /** The interpolated values for one scroll progress. */
  function FrameAt(progress: real): (f: Frame)
    ensures f.textOpacity == TextOpacity(progress) && f.imageProgress == ImageProgress(progress)
  {
    FrameOf(TextOpacity(progress), ImageProgress(progress))
  }

  /** The reshape start state: full-size centre image, side columns collapsed and off-screen. */
  predicate AtStart(f: Frame) {
    && f.centerWidth == 100.0 && f.centerHeight == 100.0
    && f.sideWidth == 0.0 && f.sideOpacity == 0.0
    && f.sideTranslateLeft == -100.0 && f.sideTranslateRight == 100.0
    && f.borderRadius == 0.0 && f.gap == 0.0 && f.sideTranslateY == 0.0
  }

  /** The reshape end state: the 22 / 42 / 22 bento grid with rounded corners. */
  predicate AtEnd(f: Frame) {
    && f.centerWidth == 42.0 && f.centerHeight == 70.0
    && f.sideWidth == 22.0 && f.sideOpacity == 1.0
    && f.sideTranslateLeft == 0.0 && f.sideTranslateRight == 0.0
    && f.borderRadius == 24.0 && f.gap == 16.0 && f.sideTranslateY == -15.0
  }

  /** The start state holds exactly when the reshape progress is 0, whatever the title opacity;
      the end state exactly when it is 1. */
  lemma StartEndOf(textOpacity: real, i: real)
    ensures AtStart(FrameOf(textOpacity, i)) <==> i == 0.0
    ensures AtEnd(FrameOf(textOpacity, i)) <==> i == 1.0
  {
  }

  /** For every progress up to 0.2 the start state holds; at full progress the end state holds and
      the title is invisible. */
  lemma StartEndState(progress: real)
    ensures progress <= 0.2 ==> AtStart(FrameAt(progress))
    ensures progress >= 1.0 ==> AtEnd(FrameAt(progress)) && FrameAt(progress).textOpacity == 0.0
  {
    StartEndOf(TextOpacity(progress), ImageProgress(progress));
  }

  /** The two side columns mirror each other, and the three columns never exceed the full width. */
  lemma FrameShape(progress: real)
    ensures FrameAt(progress).sideTranslateRight == -FrameAt(progress).sideTranslateLeft
    ensures FrameAt(progress).centerWidth + 2.0 * FrameAt(progress).sideWidth <= 100.0
    ensures 42.0 <= FrameAt(progress).centerWidth <= 100.0
    ensures 70.0 <= FrameAt(progress).centerHeight <= 100.0
    ensures 0.0 <= FrameAt(progress).sideWidth <= 22.0
    ensures 0.0 <= FrameAt(progress).borderRadius <= 24.0 && 0.0 <= FrameAt(progress).gap <= 16.0
    ensures 0.0 <= FrameAt(progress).sideOpacity <= 1.0
    ensures -100.0 <= FrameAt(progress).sideTranslateLeft <= 0.0
    ensures 0.0 <= FrameAt(progress).sideTranslateRight <= 100.0
    ensures -15.0 <= FrameAt(progress).sideTranslateY <= 0.0
  {
  }

  /** Scrolling further only shrinks the centre image and only grows the side columns, radius and gap. */
  lemma FrameMonotone(p1: real, p2: real)
    requires p1 <= p2
    ensures FrameAt(p1).centerWidth >= FrameAt(p2).centerWidth
    ensures FrameAt(p1).centerHeight >= FrameAt(p2).centerHeight
    ensures FrameAt(p1).sideWidth <= FrameAt(p2).sideWidth
    ensures FrameAt(p1).borderRadius <= FrameAt(p2).borderRadius
    ensures FrameAt(p1).gap <= FrameAt(p2).gap
  {
    PhasesMonotone(p1, p2);
  }

  /** Progress 0.1 is mid-fade: the title is at half opacity. */
  lemma MidFadeOpacity()
    ensures FrameAt(0.1).textOpacity == 0.5
  {
  }

  /** Progress 0.1 is still before the reshape: the start state holds. */
  lemma MidFadeStart()
    ensures AtStart(FrameAt(0.1))
  {
    assert ImageProgress(0.1) == 0.0;
    StartEndOf(TextOpacity(0.1), 0.0);
  }

  /** Progress 0.6 is mid-reshape: reshape progress 0.5, centre width 71, side width 11, radius 12. */
  lemma MidReshape()
    ensures FrameAt(0.6).imageProgress == 0.5
    ensures FrameAt(0.6).centerWidth == 71.0 && FrameAt(0.6).sideWidth == 11.0
    ensures FrameAt(0.6).borderRadius == 12.0
  {
    assert ImageProgress(0.6) == 0.5;
  }

  /** The style values the section hands to the page, after choosing between animated and fixed. */
  datatype Style = Style(
    gridGap: real,
    gridPadding: real,
    gridPaddingBottom: real,
    sideWidth: real,
    sideColumnGap: real,
    leftTranslateX: real,
    rightTranslateX: real,
    sideTranslateY: real,
    sideOpacity: real,
    sideImageRadius: real,
    centerWidth: real,
    centerHeight: real,
    centerRadius: real,
    textOpacity: real)

  /** The inline styles for one scroll progress and one value of `enableScrollAnimation`. The side
      column gap and the side image radius are taken from the frame in both modes. */
  function StyleAt(progress: real, enable: bool): (s: Style)
    ensures !enable ==>
      && s.gridGap == 12.0 && s.gridPadding == 16.0 && s.gridPaddingBottom == 60.0
      && s.sideWidth == 0.0 && s.sideOpacity == 0.0
      && s.leftTranslateX == 0.0 && s.rightTranslateX == 0.0 && s.sideTranslateY == 0.0
      && s.centerWidth == 100.0 && s.centerHeight == 100.0 && s.centerRadius == 0.0
      && s.textOpacity == 0.0
    ensures enable ==>
      && s.gridGap == FrameAt(progress).gap
      && s.gridPadding == FrameAt(progress).imageProgress * 16.0
      && s.gridPaddingBottom == 60.0 + FrameAt(progress).imageProgress * 40.0
      && s.sideWidth == FrameAt(progress).sideWidth && s.sideOpacity == FrameAt(progress).sideOpacity
      && s.leftTranslateX == FrameAt(progress).sideTranslateLeft
      && s.rightTranslateX == FrameAt(progress).sideTranslateRight
      && s.sideTranslateY == FrameAt(progress).sideTranslateY
      && s.centerWidth == FrameAt(progress).centerWidth && s.centerHeight == FrameAt(progress).centerHeight
      && s.centerRadius == FrameAt(progress).borderRadius
      && s.textOpacity == FrameAt(progress).textOpacity
    ensures s.sideColumnGap == FrameAt(progress).gap && s.sideImageRadius == FrameAt(progress).borderRadius
  {
    var f := FrameAt(progress);
    Style(
      if enable then f.gap else 12.0,
      if enable then f.imageProgress * 16.0 else 16.0,
      if enable then 60.0 + f.imageProgress * 40.0 else 60.0,
      if enable then f.sideWidth else 0.0,
      f.gap,
      if enable then f.sideTranslateLeft else 0.0,
      if enable then f.sideTranslateRight else 0.0,
      if enable then f.sideTranslateY else 0.0,
      if enable then f.sideOpacity else 0.0,
      f.borderRadius,
      if enable then f.centerWidth else 100.0,
      if enable then f.centerHeight else 100.0,
      if enable then f.borderRadius else 0.0,
      if enable then f.textOpacity else 0.0)
  }

  /** The fixed mobile style: what is rendered once the effect has reset the progress to 0. */
  const DisabledStyle: Style :=
    Style(12.0, 16.0, 60.0, 0.0, 0.0, 0.0, 0.0, 0.0, 0.0, 0.0, 100.0, 100.0, 0.0, 0.0)

  /** With animation disabled, every style value is the fixed record as long as the reshape has not
      begun, in particular once `HeroSection.Effect` has reset the progress to 0. */
  lemma DisabledStyleFixed(progress: real)
    requires progress <= 0.2
    ensures StyleAt(progress, false) == DisabledStyle
  {
  }

  /** When animating, the grid padding grows from 0 to 16 and its bottom padding from 60 to 100,
      the side columns mirror each other, and the animated style at progress 0 has the centre at
      full size with an opaque title. */
  lemma EnabledStyleShape(progress: real)
    ensures 0.0 <= StyleAt(progress, true).gridPadding <= 16.0
    ensures 60.0 <= StyleAt(progress, true).gridPaddingBottom <= 100.0
    ensures StyleAt(progress, true).rightTranslateX == -StyleAt(progress, true).leftTranslateX
    ensures progress == 0.0 ==>
      StyleAt(progress, true).centerWidth == 100.0 && StyleAt(progress, true).textOpacity == 1.0
  {
  }

  /** The React state of one hero section: the sampled progress and whether the scroll listener is on. */
  class HeroSection {
    var scrollProgress: real
    var listening: bool

    /** The progress always lies in [0, 1]. */
    predicate Valid()
      reads this
    {
      0.0 <= scrollProgress <= 1.0
    }

    /** First render: `useState(0)`, no listener yet. */
    constructor ()
      ensures Valid() && scrollProgress == 0.0 && !listening
    {
      scrollProgress := 0.0;
      listening := false;
    }

    /** The styles rendered from the current state. */
    function CurrentStyle(enable: bool): (s: Style)
      reads this
      requires Valid()
      ensures 0.0 <= s.textOpacity <= 1.0
      ensures 42.0 <= s.centerWidth <= 100.0 && 70.0 <= s.centerHeight <= 100.0
      ensures s.centerWidth + 2.0 * s.sideWidth <= 100.0
      ensures s.rightTranslateX == -s.leftTranslateX
      ensures enable && scrollProgress == 0.0 ==> s.textOpacity == 1.0
    {
      FrameShape(scrollProgress);
      StyleAt(scrollProgress, enable)
    }

    /** `handleScroll`: without the section element it does nothing; otherwise it samples the progress. */
    method HandleScroll(hasSection: bool, top: real, innerHeight: real)
      requires Valid()
      requires hasSection ==> innerHeight > 0.0
      modifies this`scrollProgress
      ensures Valid()
      ensures hasSection ==> scrollProgress == ScrollProgress(top, innerHeight)
      ensures !hasSection ==> unchanged(this)
    {
      if !hasSection {
        return;
      }
      var scrollableHeight := innerHeight * 2.0;
      var scrolled := -top;
      scrollProgress := Clamp01(scrolled / scrollableHeight);
    }

    /** The effect that runs when `enableScrollAnimation` changes, after the previous run's `Cleanup`:
        when disabled the progress is reset to 0 and no listener is added, otherwise the listener is
        added and the progress sampled once. */
    method Effect(enable: bool, hasSection: bool, top: real, innerHeight: real)
      requires Valid() && !listening
      requires enable && hasSection ==> innerHeight > 0.0
      modifies this
      ensures Valid()
      ensures listening == enable
      ensures !enable ==> scrollProgress == 0.0
      ensures enable && hasSection ==> scrollProgress == ScrollProgress(top, innerHeight)
      ensures enable && !hasSection ==> scrollProgress == old(scrollProgress)
    {
      if !enable {
        scrollProgress := 0.0;
        return;
      }
      listening := true;
      HandleScroll(hasSection, top, innerHeight);
    }

    /** The effect's cleanup removes the listener the effect added. */
    method Cleanup()
      modifies this`listening
      ensures !listening
    {
      listening := false;
    }
  }
}
