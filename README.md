# Scroll and menu state of the RafRaf International landing page

This project models the small amount of logic in the landing page. The rest of the page is declarative markup.

- **Viewport classifier** (`useMobileViewport`). It maps the window width to `mobile`, `tablet` or `desktop`, using the two strict thresholds 768 and 1024. It reports `isMobile`, `isTablet` and `isMounted`. The companion hook `useDisableAnimationOnMobile` gives `isMobile || prefersReducedMotion`.
- **Hero section**.
  - The section's top offset becomes a clamped progress, `-top / (2 * innerHeight)`.
  - A title fade runs over progress [0, 0.2].
  - A reshape of the bento grid runs over [0.2, 1]. It drives the centre and side widths, the translates, the corner radius, the gap and the padding.
  - When animation is disabled (on mobile), the effect resets the progress to 0 and the page renders a fixed style record.
- **Philosophy section**.
  - A second clamped progress, `-top / (sectionHeight - windowHeight)`, slides two panels in from opposite sides and fades a title.
  - When animation is disabled or the element is missing, the values reset.
  - Scroll events are coalesced into at most one pending animation frame. Cleanup cancels that frame.
- **Header**. `isScrolled` turns on strictly past `scrollY = 50`. `isMenuOpen` flips with the menu button and is cleared by every mobile-menu link.

JavaScript numbers are modelled as `real`, so there is no rounding. The window width is an `int`. DOM measurements are parameters of the operations that read them: `rect.top`, `innerHeight`, `offsetHeight`, `scrollY`, `innerWidth`, and whether the element ref is attached. So is the handle `requestAnimationFrame` returns. React state holders become classes whose methods are the event handlers and effects. The pure formulas are functions, and lemmas state the properties about them.

Neither scroll division is guarded against a zero range. `Hero.ScrollProgress` therefore requires `innerHeight > 0`, and `Philosophy.Progress` requires `sectionHeight > windowHeight`. The animation constants are literals in the code. There is no per-device configuration table, and tablet and desktop animate identically. The hero has no resize handler of its own. A resize changes its progress only when it crosses 768: that flips `enableScrollAnimation` and reruns the effect, modelled as `Hero.HeroSection.Cleanup` followed by `Hero.HeroSection.Effect`. With animation disabled, the hero renders a fixed 100 % by 100 % centre image.

Both sections animate when `enableScrollAnimation = !isMobile`. The models take that value as their `enable` parameter.

Files: `clamp.dfy` holds the shared `Math.max(0, Math.min(1, x))`. Next come `viewport.dfy`, `hero.dfy`, `philosophy.dfy` and `header.dfy`, one module per source file.

## Model

| member | source | states |
|---|---|---|
| `Viewport.Classify` | hooks/use-mobile-viewport.ts:14-23 | mobile exactly below 768, tablet exactly on [768, 1024), desktop exactly from 1024 on; so every width gets exactly one class |
| `Viewport.ClassifyBoundaries` | hooks/use-mobile-viewport.ts:16-21 | 767 is mobile, 768 and 1023 are tablet, 1024 is desktop |
| `Viewport.InfoOf` | hooks/use-mobile-viewport.ts:30 | `isMobile` iff the class is mobile, `isTablet` iff tablet, never both; class and `isMounted` passed through |
| `Viewport.FlagsOfWidth` | hooks/use-mobile-viewport.ts:15-30 | once mounted, `isMobile` iff width < 768 and `isTablet` iff 768 <= width < 1024, never both |
| `Viewport.ScrollAnimationOfWidth` | hooks/use-mobile-viewport.ts:15-30 | once mounted, `!isMobile` (the sections' `enableScrollAnimation`) holds exactly for widths from 768 on |
| `Viewport.ViewportHook.constructor` | hooks/use-mobile-viewport.ts:8-9 | before the effect runs: `desktop`, not mounted, no listener |
| `Viewport.ViewportHook.Info` | hooks/use-mobile-viewport.ts:30 | the returned class and `isMounted` are the state fields; `isMobile` iff the class is mobile, `isTablet` iff tablet, never both |
| `Viewport.ViewportHook.HandleResize` | hooks/use-mobile-viewport.ts:14-23 | the class becomes `Classify(width)`; when it already was, nothing changes, so a second resize to the same width is a no-op |
| `Viewport.ViewportHook.Mount` | hooks/use-mobile-viewport.ts:11-26 | after the effect: mounted, listener registered, class is `Classify(currentWidth)` |
| `Viewport.ViewportHook.Unmount` | hooks/use-mobile-viewport.ts:27 | the resize listener is removed |
| `Viewport.ShouldDisable` | hooks/use-mobile-viewport.ts:45 | reduced motion disables animation whatever the class; otherwise disabled iff mobile |
| `Viewport.ShouldDisableOfWidth` | hooks/use-mobile-viewport.ts:37-46 | with a mounted viewport hook, disabled iff width < 768 or reduced motion is preferred |
| `Viewport.DisableAnimationHook.constructor` | hooks/use-mobile-viewport.ts:38 | starts with animation enabled |
| `Viewport.DisableAnimationHook.Sync` | hooks/use-mobile-viewport.ts:44-46 | after the effect, `shouldDisable` is `ShouldDisable(isMobile, prefersReducedMotion)` |
| `Clamp.Clamp01` | components/sections/hero-section.tsx:57 | the result lies in [0, 1], is 0 at or below 0, 1 at or above 1 and the identity on [0, 1] |
| `Clamp.Clamp01Monotone` | components/sections/philosophy-section.tsx:34 | clamping preserves order |
| `Hero.ScrollProgress` | components/sections/hero-section.tsx:54-57 | for `innerHeight > 0` the progress lies in [0, 1]; it is 0 before the section scrolls, 1 once it has scrolled two viewport heights, and in between progress times `2 * innerHeight` is the scrolled amount |
| `Hero.ScrollProgressMonotone` | components/sections/hero-section.tsx:54-57 | progress never decreases as the section scrolls further up |
| `Hero.TextOpacity` | components/sections/hero-section.tsx:71 | non-negative, at most 1 for non-negative progress, 1 at 0, 0 from 0.2 on, and `(0.2 - p) * 5` below 0.2 |
| `Hero.ImageProgress` | components/sections/hero-section.tsx:74 | lies in [0, 1], is 0 up to 0.2, 1 from 1 on, and times 0.8 equals `p - 0.2` on [0.2, 1] |
| `Hero.FadeThenReshape` | components/sections/hero-section.tsx:70-74 | while the title is visible the reshape has not begun, and once it has begun the title is gone |
| `Hero.PhasesMonotone` | components/sections/hero-section.tsx:71-74 | title opacity never increases and reshape progress never decreases with progress |
| `Hero.FrameOf` | components/sections/hero-section.tsx:77-87 | the right side column's translate is the negation of the left one's |
| `Hero.FrameAt` | components/sections/hero-section.tsx:70-87 | the frame carries `TextOpacity` and `ImageProgress` of the progress |
| `Hero.StartEndOf` | components/sections/hero-section.tsx:77-87 | the start state (centre 100 by 100, sides 0 wide and transparent, translates -100 and 100, radius 0, gap 0) holds iff reshape progress is 0; the end state (42 by 70, sides 22, translates 0, radius 24, gap 16, translateY -15) iff it is 1 |
| `Hero.StartEndState` | components/sections/hero-section.tsx:74-87 | every progress up to 0.2 gives the start state; progress 1 gives the end state with the title invisible |
| `Hero.FrameShape` | components/sections/hero-section.tsx:77-87 | the side translates mirror each other, centre width plus both side widths is at most 100, and every value (centre width and height, side width and opacity, both side translates, `sideTranslateY`, radius, gap) stays between its start and end value |
| `Hero.FrameMonotone` | components/sections/hero-section.tsx:77-84 | centre width and height never grow; side width, radius and gap never shrink as progress grows |
| `Hero.MidFadeOpacity` | components/sections/hero-section.tsx:71 | progress 0.1 gives title opacity 0.5 |
| `Hero.MidFadeStart` | components/sections/hero-section.tsx:74-87 | progress 0.1 still gives the reshape start state |
| `Hero.MidReshape` | components/sections/hero-section.tsx:74-83 | progress 0.6 gives reshape 0.5, centre width 71, side width 11, radius 12 |
| `Hero.StyleAt` | components/sections/hero-section.tsx:98-154 | animated: every rendered value is the frame's (grid gap, side width, opacity and translates, centre size and radius, title opacity), grid padding is `imageProgress * 16` and bottom padding `60 + imageProgress * 40`; disabled: grid gap 12, padding 16, bottom padding 60, sides 0 wide, transparent and untranslated, centre 100 by 100 with radius 0, title opacity 0; side-column gap and side-image radius follow the frame in both modes |
| `Hero.DisabledStyleFixed` | components/sections/hero-section.tsx:98-154 | disabled, with the progress reset (anything up to 0.2), every style value equals the fixed mobile record |
| `Hero.EnabledStyleShape` | components/sections/hero-section.tsx:98-110 | animated: padding stays in [0, 16], bottom padding in [60, 100], side translates mirror each other, and progress 0 shows the full centre with an opaque title |
| `Hero.HeroSection.constructor` | components/sections/hero-section.tsx:38 | progress starts at 0 with no listener |
| `Hero.HeroSection.CurrentStyle` | components/sections/hero-section.tsx:89-154 | with the stored progress in [0, 1], the rendered title opacity lies in [0, 1], the centre in [42, 100] by [70, 100], centre plus both sides at most 100 wide, the side translates mirror each other, and an animated, unscrolled page shows an opaque title |
| `Hero.HeroSection.HandleScroll` | components/sections/hero-section.tsx:51-60 | without the element nothing changes; otherwise the stored progress becomes `ScrollProgress(top, innerHeight)`, keeping it in [0, 1] |
| `Hero.HeroSection.Effect` | components/sections/hero-section.tsx:44-68 | disabled: progress reset to 0, no listener; enabled: listener added and progress sampled once (kept if the element is absent) |
| `Hero.HeroSection.Cleanup` | components/sections/hero-section.tsx:65-67 | the scroll listener is removed |
| `Philosophy.Progress` | components/sections/philosophy-section.tsx:27-34 | for `sectionHeight > windowHeight` the progress lies in [0, 1], is 0 before scrolling and 1 once the whole range has scrolled, and in between progress times the range is the scrolled amount |
| `Philosophy.ProgressMonotone` | components/sections/philosophy-section.tsx:32-34 | progress never decreases as the section scrolls further up |
| `Philosophy.TransformsAt` | components/sections/philosophy-section.tsx:36-43 | alpine is always minus forest; for progress in [0, 1] alpine lies in [-100, 0], forest in [0, 100], title opacity in [0, 1] |
| `Philosophy.TransformsEndpoints` | components/sections/philosophy-section.tsx:9-43 | progress 0, and only it, gives the initial and reset state (-100, 100, 1); progress 1, and only it, gives (0, 0, 0) |
| `Philosophy.TransformsMonotone` | components/sections/philosophy-section.tsx:36-43 | as progress grows both panels move towards the centre and the title never brightens |
| `Philosophy.RenderedOf` | components/sections/philosophy-section.tsx:81-120 | disabled: title opacity and both translates are 0; enabled: the state values are rendered as they are |
| `Philosophy.PhilosophySection.AtMostOnePending` | components/sections/philosophy-section.tsx:53-61 | under the coalescing invariant at most one animation frame is pending |
| `Philosophy.PhilosophySection.constructor` | components/sections/philosophy-section.tsx:9-12 | starts at (-100, 100, 1) with an empty slot and nothing pending |
| `Philosophy.PhilosophySection.UpdateTransforms` | components/sections/philosophy-section.tsx:18-44 | disabled or without the element: reset to the initial state; otherwise the state is `TransformsAt(Progress(...))`; the panels keep mirroring each other |
| `Philosophy.PhilosophySection.HandleScroll` | components/sections/philosophy-section.tsx:53-61 | the frame in the slot is cancelled before the new one is requested, so afterwards exactly the new frame is pending and it is in the slot |
| `Philosophy.PhilosophySection.FireFrame` | components/sections/philosophy-section.tsx:60 | a fired frame leaves nothing pending, the slot keeps its stale handle, and the transforms are updated |
| `Philosophy.PhilosophySection.Effect` | components/sections/philosophy-section.tsx:46-64 | disabled: one reset, no listener; enabled: listener added and one update |
| `Philosophy.PhilosophySection.Cleanup` | components/sections/philosophy-section.tsx:66-71 | listener removed and nothing left pending, even though the handle in the slot may be stale |
| `Philosophy.PhilosophySection.CurrentRendered` | components/sections/philosophy-section.tsx:81-120 | enabled: rendered translates mirror each other; disabled: all three rendered values are 0 |
| `Header.IsScrolledAt` | components/header.tsx:13 | not scrolled up to and including 50, scrolled strictly past it |
| `Header.IsScrolledBoundary` | components/header.tsx:13 | 50 gives false, 51 gives true |
| `Header.IsScrolledMonotone` | components/header.tsx:13 | once past the threshold, further down stays past it |
| `Header.ViewOf` | components/header.tsx:22-83 | the mobile menu is shown iff it is open, the button shows the close icon iff it is open, and the solid background iff scrolled |
| `Header.HeaderState.constructor` | components/header.tsx:8-9 | menu closed, not scrolled |
| `Header.HeaderState.CurrentView` | components/header.tsx:83 | the mobile menu is rendered iff `isMenuOpen` |
| `Header.HeaderState.HandleScroll` | components/header.tsx:12-14 | `isScrolled` becomes `scrollY > 50`; the menu is untouched |
| `Header.HeaderState.ToggleMenu` | components/header.tsx:74 | the menu flips; the scrolled look is untouched |
| `Header.HeaderState.ClickMobileLink` | components/header.tsx:86-120 | every one of the five links closes the menu; the scrolled look is untouched |
| `Header.ToggleTwice` | components/header.tsx:74 | two presses of the menu button restore both state values |

## Left out

- Browser APIs become inputs. `getBoundingClientRect`, `offsetHeight`, `innerHeight`, `innerWidth`, `scrollY`, `matchMedia` and `requestAnimationFrame` handles are parameters. Listener registration is a `listening` flag. The browser's frame queue is the `pending` set.
- IEEE floating point is not modelled: no rounding, NaN or Infinity. A zero scroll range, which the code would divide by, is excluded by a precondition.
- Frame handles are nonzero. `Philosophy.PhilosophySection.HandleScroll` requires this, because the HTML standard hands out non-zero handles. The truthiness test `if (rafRef.current)` is modelled exactly: a handle 0 in the slot would not be cancelled.
- React scheduling is one method call per handler or effect run. Batching, re-renders driven by dependency arrays, and the order of one component's effects against another's are not modelled.
- Each section calls `useMobileViewport` itself. The sections take `enableScrollAnimation = !isMobile` as the `enable` parameter. So the hero and philosophy models do not capture the first render before mount, which reports `desktop` on every device.
- Hero.HeroSection.Effect: states that the disabled branch resets the progress to 0, but not the rendered style. That style is stated for every progress up to 0.2 by `Hero.DisabledStyleFixed`, which a caller combines with the effect's postcondition.
- Header.HeaderState.ClickMobileLink: it requires the menu to be shown, because the links are absent otherwise. Idempotence is therefore only the fact that the result is closed whatever came before, not a second click on a closed menu.
- String formatting of style values (`%`, `px`, `translate3d(...)`), Tailwind classes, image loading, CSS transitions and keyframe animations are presentation and are not modelled.
- The reduced-motion hook file holds no application code, only planning text. It is not part of this model.
- The contact form's `submitted` flag and its browser-side field validation are not part of this model. Neither are the static content sections, the footer, the accessibility wrapper or the page layout.
