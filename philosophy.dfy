/** The philosophy section: two product panels slide in from opposite sides while the background
    title fades, with scroll updates coalesced into at most one pending animation frame. */
module Philosophy {
  import opened Clamp

  /** `scrolled / scrollableRange` clamped to [0, 1], with `scrolled = -rect.top` and
      `scrollableRange = sectionHeight - windowHeight`. The source does not guard an empty range. */
  function Progress(top: real, windowHeight: real, sectionHeight: real): (p: real)
    requires sectionHeight > windowHeight
    ensures 0.0 <= p <= 1.0
    ensures -top <= 0.0 ==> p == 0.0
    ensures -top >= sectionHeight - windowHeight ==> p == 1.0
    ensures 0.0 <= -top <= sectionHeight - windowHeight ==> p * (sectionHeight - windowHeight) == -top
  {
    var scrollableRange := sectionHeight - windowHeight;
    var scrolled := -top;
    RatioFacts(scrolled, scrollableRange);
    Clamp01(scrolled / scrollableRange)
  }

  /** The further the section has moved up, the larger the progress. */
  lemma ProgressMonotone(top1: real, top2: real, windowHeight: real, sectionHeight: real)
    requires sectionHeight > windowHeight
    requires top2 <= top1
    ensures Progress(top1, windowHeight, sectionHeight) <= Progress(top2, windowHeight, sectionHeight)
  {
    var range := sectionHeight - windowHeight;
    DivMonotone(-top1, -top2, range);
    Clamp01Monotone(-top1 / range, -top2 / range);
  }

  /** The three animated state values: the two panels' horizontal translates (percent) and the title opacity. */
  datatype Transforms = Transforms(alpineTranslateX: real, forestTranslateX: real, titleOpacity: real)

  /** The values `useState` starts from and the reset branch of `updateTransforms` restores. */
  const Initial: Transforms := Transforms(-100.0, 100.0, 1.0)

  /** `(1 - p) * -100`, `(1 - p) * 100` and `1 - p` for one progress. */
  function TransformsAt(p: real): (t: Transforms)
    ensures t.alpineTranslateX == -t.forestTranslateX
    ensures 0.0 <= p <= 1.0 ==>
      && -100.0 <= t.alpineTranslateX <= 0.0
      && 0.0 <= t.forestTranslateX <= 100.0
      && 0.0 <= t.titleOpacity <= 1.0
  {
    Transforms((1.0 - p) * -100.0, (1.0 - p) * 100.0, 1.0 - p)
  }

  /** Progress 0 gives the initial layout; progress 1 brings both panels flush and hides the title. */
  lemma TransformsEndpoints(p: real)
    ensures p == 0.0 <==> TransformsAt(p) == Initial
    ensures p == 1.0 <==> TransformsAt(p) == Transforms(0.0, 0.0, 0.0)
  {
  }

  /** Scrolling further moves both panels towards the centre and fades the title. */
  lemma TransformsMonotone(p1: real, p2: real)
    requires p1 <= p2
    ensures TransformsAt(p1).alpineTranslateX <= TransformsAt(p2).alpineTranslateX
    ensures TransformsAt(p1).forestTranslateX >= TransformsAt(p2).forestTranslateX
    ensures TransformsAt(p1).titleOpacity >= TransformsAt(p2).titleOpacity
  {
  }

  /** What the section renders: title opacity and the two `translate3d` x offsets. */
  datatype Rendered = Rendered(titleOpacity: real, alpineX: real, forestX: real)

  /** The animated values when scroll animation is enabled; all zero otherwise. */
  function RenderedOf(t: Transforms, enable: bool): (r: Rendered)
    ensures !enable ==> r == Rendered(0.0, 0.0, 0.0)
    ensures enable ==> r.alpineX == t.alpineTranslateX && r.forestX == t.forestTranslateX
    ensures enable ==> r.titleOpacity == t.titleOpacity
  {
    Rendered(
      if enable then t.titleOpacity else 0.0,
      if enable then t.alpineTranslateX else 0.0,
      if enable then t.forestTranslateX else 0.0)
  }

  /** Animation frame handles. The browser hands out non-zero ones. */
  type FrameId = nat

  datatype Option<T> = None | Some(value: T)

  /** `if (rafRef.current)`: the slot holds a handle that JavaScript treats as true. */
  predicate Truthy(slot: Option<FrameId>) {
    slot.Some? && slot.value != 0
  }

  /** The React state of one philosophy section, plus the browser's queue of frames that will still
      run `updateTransforms`. */
  class PhilosophySection {
    var alpineTranslateX: real
    var forestTranslateX: real
    var titleOpacity: real
    /** `rafRef.current`: the last handle scheduled, never cleared when its frame fires. */
    var rafSlot: Option<FrameId>
    /** Frames requested and neither fired nor cancelled. */
    var pending: set<FrameId>
    /** Whether the `scroll` listener is registered. */
    var listening: bool

    function State(): Transforms
      reads this
    {
      Transforms(alpineTranslateX, forestTranslateX, titleOpacity)
    }

    /** Coalescing: the only frame that can still be pending is the one in the slot, so at most one
        is; and the panels always mirror each other. */
    predicate Valid()
      reads this
    {
      && pending <= (if Truthy(rafSlot) then {rafSlot.value} else {})
      && alpineTranslateX == -forestTranslateX
    }

    /** At most one update is ever pending. */
    lemma AtMostOnePending()
      requires Valid()
      ensures |pending| <= 1
    {
      if Truthy(rafSlot) {
        assert pending <= {rafSlot.value};
        SubsetOfSingleton(pending, rafSlot.value);
      } else {
        assert pending == {};
      }
    }

    /** First render: `useState(-100)`, `useState(100)`, `useState(1)`, `useRef(null)`. */
    constructor ()
      ensures Valid() && State() == Initial
      ensures rafSlot == None && pending == {} && !listening
    {
      alpineTranslateX, forestTranslateX, titleOpacity := -100.0, 100.0, 1.0;
      rafSlot := None;
      pending := {};
      listening := false;
    }

    /** `updateTransforms`: reset when animation is disabled or the element is absent; otherwise
        sample the progress and set the three values from it. */
    method UpdateTransforms(enable: bool, hasSection: bool, top: real, windowHeight: real, sectionHeight: real)
      requires Valid()
      requires enable && hasSection ==> sectionHeight > windowHeight
      modifies this`alpineTranslateX, this`forestTranslateX, this`titleOpacity
      ensures Valid()
      ensures !(enable && hasSection) ==> State() == Initial
      ensures enable && hasSection ==> State() == TransformsAt(Progress(top, windowHeight, sectionHeight))
    {
      if !enable || !hasSection {
        alpineTranslateX := -100.0;
        forestTranslateX := 100.0;
        titleOpacity := 1.0;
        return;
      }
      var scrollableRange := sectionHeight - windowHeight;
      var scrolled := -top;
      var progress := Clamp01(scrolled / scrollableRange);
      alpineTranslateX := (1.0 - progress) * -100.0;
      forestTranslateX := (1.0 - progress) * 100.0;
      titleOpacity := 1.0 - progress;
    }

    /** `handleScroll`: cancel the frame in the slot, if any, then request a new one. */
    method HandleScroll(newId: FrameId)
      requires Valid() && newId != 0
      modifies this`rafSlot, this`pending
      ensures Valid()
      ensures rafSlot == Some(newId) && pending == {newId}
    {
      if Truthy(rafSlot) {
        pending := pending - {rafSlot.value};
      }
      rafSlot := Some(newId);
      pending := pending + {newId};
    }

    /** The browser runs a pending frame: it leaves the queue, the slot keeps its now stale handle,
        and the transforms are updated. */
    method FireFrame(id: FrameId, enable: bool, hasSection: bool, top: real, windowHeight: real, sectionHeight: real)
      requires Valid() && id in pending
      requires enable && hasSection ==> sectionHeight > windowHeight
      modifies this`pending, this`alpineTranslateX, this`forestTranslateX, this`titleOpacity
      ensures Valid()
      ensures pending == {} && rafSlot == old(rafSlot)
      ensures !(enable && hasSection) ==> State() == Initial
      ensures enable && hasSection ==> State() == TransformsAt(Progress(top, windowHeight, sectionHeight))
    {
      pending := pending - {id};
      assert pending == {};
      UpdateTransforms(enable, hasSection, top, windowHeight, sectionHeight);
    }

    /** The effect, run after the previous run's `Cleanup`: when disabled, reset once and add no
        listener; otherwise add the listener and update once. */
    method Effect(enable: bool, hasSection: bool, top: real, windowHeight: real, sectionHeight: real)
      requires Valid() && !listening
      requires enable && hasSection ==> sectionHeight > windowHeight
      modifies this
      ensures Valid()
      ensures listening == enable && rafSlot == old(rafSlot) && pending == old(pending)
      ensures !(enable && hasSection) ==> State() == Initial
      ensures enable && hasSection ==> State() == TransformsAt(Progress(top, windowHeight, sectionHeight))
    {
      if !enable {
        UpdateTransforms(enable, hasSection, top, windowHeight, sectionHeight);
        return;
      }
      listening := true;
      UpdateTransforms(enable, hasSection, top, windowHeight, sectionHeight);
    }

    /** The effect's cleanup: remove the listener and cancel the frame in the slot. The handle may be
        stale; cancelling it is then a no-op. Nothing is left pending. */
    method Cleanup()
      requires Valid()
      modifies this`listening, this`pending
      ensures Valid()
      ensures !listening && pending == {} && rafSlot == old(rafSlot)
    {
      listening := false;
      if Truthy(rafSlot) {
        pending := pending - {rafSlot.value};
      }
    }

    /** The values rendered from the current state. */
    function CurrentRendered(enable: bool): (r: Rendered)
      reads this
      requires Valid()
      ensures enable ==> r.alpineX == -r.forestX
      ensures !enable ==> r == Rendered(0.0, 0.0, 0.0)
    {
      RenderedOf(State(), enable)
    }
  }

  /** A subset of a one-element set has at most one element. */
  lemma SubsetOfSingleton(s: set<FrameId>, x: FrameId)
    requires s <= {x}
    ensures |s| <= 1
  {
    if s != {} {
      assert s == {x};
    }
  }
}
