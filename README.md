# Portfolio site core — a Dafny model

This project models the behavioural core of a single-page React portfolio site.
It covers nine parts of the site:

- the device-detection hook and its rendering-tier table (`useDeviceDetection`,
  `getPerformanceConfig`);
- the Skills section: skill-level bars, the 3D/grid switch and the WebGL fallback;
- the Gallery page: the 3D photo-wall layout and its low-end grid switch;
- the scroll-spy navigation bar and its mobile menu;
- the contact form, which submits to a Google Apps Script endpoint with a no-cors fallback;
- the light/dark theme toggle and its persistence;
- the loading overlay: rotating messages, simulated progress and the completion timer;
- the `useLoading` hook that decides when the site is ready;
- the intensity and split rules of the transparent particle background.

Each source module is one Dafny module:

- **Pure logic becomes functions and lemmas.** This covers classification, the
  tier table, the bar rule, the gallery layout, the message updater, the progress
  updaters, the theme helpers and the particle configuration.
- **React state becomes a class.** A component's `useState` variables are the
  class's fields. Each event handler, effect run or timer firing is a `method`
  with `modifies this` that states the whole new state.
- **Loops stay loops.** The two loops in the source are the Gallery layout loop
  and the navigation scan. Each is a method with a `while` loop, proved against
  a specification function.

Some inputs come from outside the component. They are parameters of the model:

- the browser readings (`innerWidth`, `devicePixelRatio`, `hardwareConcurrency`,
  whether a WebGL context was obtained);
- the section offsets seen by the navigation scan;
- each `Math.random()` draw, as a real `r` with `0 <= r < 1`;
- the outcome of each network request.

JavaScript numbers are modelled as exact reals. Where the code chooses between
branches, the model takes the same branches. Integers that the code rounds are
rounded explicitly (`Math.ceil`, `Math.floor`).

The low-end rule follows the code. A phone is not low-end merely because it is a
phone. A device is low-end only when its pixel ratio is above 2, or when it
reports between 1 and 3 logical cores. A missing or zero core count never makes
a device low-end.

## Model

| member | source | states |
|---|---|---|
| DeviceDetection.EffectivePixelRatio | src/hooks/useDeviceDetection.ts:30 | a missing or zero pixel ratio reads as 1; any other value is kept |
| DeviceDetection.Measure | src/hooks/useDeviceDetection.ts:27-57 | exactly one viewport class holds; mobile iff width < 768, tablet iff 768 <= width < 1024, desktop iff width >= 1024; low-end iff effective ratio > 2 or the core count is 1, 2 or 3; WebGL flag, ratio and screen size are copied from the reading |
| DeviceDetection.DeviceDetector.constructor | src/hooks/useDeviceDetection.ts:15-24 | before the first measurement the device is a 1920x1080 desktop, ratio 1, with WebGL, not low-end |
| DeviceDetection.DeviceDetector.UpdateDeviceInfo | src/hooks/useDeviceDetection.ts:60-61 | a mount or a resize replaces the whole state with the measurement of the current reading |
| DeviceDetection.GetPerformanceConfig | src/hooks/useDeviceDetection.ts:69-114 | 3D is enabled iff WebGL is available; without WebGL there are no particles and low quality; the pixel-ratio range is non-empty and within (0,2]; antialiasing iff high-performance power preference; at most 500 particles; high quality iff 500 particles |
| DeviceDetection.WidthBoundaries | src/hooks/useDeviceDetection.ts:33-35 | 767 is mobile, 768 is tablet, 1023 is tablet and 1024 is desktop |
| DeviceDetection.ClassificationMonotone | src/hooks/useDeviceDetection.ts:33-35 | a wider viewport never gets a smaller viewport class |
| DeviceDetection.LowEndIgnoresWidth | src/hooks/useDeviceDetection.ts:39-41 | changing only the width never changes the low-end flag |
| DeviceDetection.PriorityOrder | src/hooks/useDeviceDetection.ts:70-113 | the WebGL rule wins over every class, then mobile (100 particles, low power), then tablet (300), then desktop (250 when low-end, else 500) |
| DeviceDetection.InitialStateIsDesktop | src/hooks/useDeviceDetection.ts:15-24 | the initial state gets the full desktop tier: 3D, 500 particles, high quality |
| DeviceDetection.MeasuredParticleBudget | src/hooks/useDeviceDetection.ts:83-113 | for any measured device with WebGL the particle count is 100, 300, 250 or 500, according to its class and low-end flag |
| DeviceDetection.Scenarios | src/hooks/useDeviceDetection.ts:28-114 | a 400-pixel screen at ratio 3 is mobile and low-end with 100 particles; any reading without WebGL gives no 3D and no particles |
| DeviceDetection.BudgetAlongWidth | src/hooks/useDeviceDetection.ts:94-113 | a low-end desktop at width 1024 gets fewer particles (250) than a tablet at 1023 (300) |
| SkillsSection.ActiveBars | src/components/SkillsSection.tsx:21-29 | six bars; bar i is lit iff i < level / 16.67 |
| SkillsSection.ActiveCount | src/components/SkillsSection.tsx:29 | the number of lit bars is the ceiling of level / 16.67, clamped to 0..6 |
| SkillsSection.ActiveBarsArePrefix | src/components/SkillsSection.tsx:29 | the lit bars are exactly the first ActiveCount(level) bars |
| SkillsSection.BarsForLevels | src/components/SkillsSection.tsx:146-153 | under the bar rule, levels 100, 95, 90, 88 and 85 light all six bars and 82 and 80 light five (the levels are those listed in `Skills3D`; the bar indicator itself is never rendered) |
| SkillsSection.ActiveCountMonotone | src/components/SkillsSection.tsx:29 | a higher level never lights fewer bars |
| SkillsSection.Skills3DView | src/components/SkillsSection.tsx:141-156 | the flat fallback is shown iff WebGL is missing or a canvas error was seen; otherwise the canvas uses the device's tier |
| SkillsSection.Skills3DState.constructor | src/components/SkillsSection.tsx:144 | no canvas error at mount |
| SkillsSection.Skills3DState.OnCanvasError | src/components/SkillsSection.tsx:206-209 | a canvas error sets the error flag for the rest of this mount of `Skills3D`, so its view becomes the fallback; a later mount starts again from the constructor |
| SkillsSection.Skills3DState.View | src/components/SkillsSection.tsx:155-156 | the rendered view is Skills3DView of the device and the current error flag |
| SkillsSection.SectionPanelFor | src/components/SkillsSection.tsx:389-412 | grid when the 3D view is off; otherwise the unavailable panel iff the section's error flag is set, else the 3D scene |
| SkillsSection.SkillsSectionState.constructor | src/components/SkillsSection.tsx:303-305 | starts in 3D view, not loading, no error |
| SkillsSection.SkillsSectionState.ClickView3D | src/components/SkillsSection.tsx:365-368 | turns the 3D view on and clears loading; the error flag is unchanged |
| SkillsSection.SkillsSectionState.ClickGridView | src/components/SkillsSection.tsx:376-379 | turns the 3D view off and clears loading; the panel becomes the grid |
| SkillsSection.SkillsSectionState.ClickSwitchToGrid | src/components/SkillsSection.tsx:402-404 | turns the 3D view off and changes nothing else |
| SkillsSection.UnavailablePanelUnreachable | src/components/SkillsSection.tsx:305 | no handler ever sets the section's error flag, so the unavailable panel is never shown |
| Gallery.PerRow | src/pages/Gallery.tsx:26 | the smallest count p with p * rows >= n |
| Gallery.Layout | src/pages/Gallery.tsx:25-33 | one position per photo |
| Gallery.BuildPositions | src/pages/Gallery.tsx:22-34 | the nested loop yields exactly Layout(photos, isMobile): row-major slots with x = c*2.6 - perRow and y = 2.2 - r*2.2, stopping after the last photo |
| Gallery.PlacedPosition | src/pages/Gallery.tsx:45 | the computed position when one exists, else the origin |
| Gallery.NoOriginFallback | src/pages/Gallery.tsx:44-46 | every photo has a computed position, so the origin fallback is never used |
| Gallery.LayoutFillsRowsInOrder | src/pages/Gallery.tsx:28-31 | a later photo never sits in a higher row, and within a row it sits further right |
| Gallery.LayoutInjective | src/pages/Gallery.tsx:28-30 | no two photos share a position in the plane |
| Gallery.GalleryViewAsWritten | src/pages/Gallery.tsx:84 | the page shows the grid iff the device is low-end |
| Gallery.AsWrittenMountsCanvasWithoutWebGL | src/pages/Gallery.tsx:84 | a desktop without WebGL that is not low-end gets the 3D canvas although its tier disables 3D |
| Gallery.GalleryViewFor | src/pages/Gallery.tsx:84 | the grid iff the device is low-end or its tier disables 3D; it agrees with the code whenever WebGL is available |
| Gallery.PageViews | src/pages/Gallery.tsx:82-91 | as written: both photo sets get the same view, the grid iff the device is low-end |
| Gallery.CorrectedPageViews | src/pages/Gallery.tsx:82-91 | corrected page: both photo sets agree, no canvas is mounted unless WebGL is available and the tier enables 3D, and the page equals the one as written on every device with WebGL |
| Navigation.FirstHit | src/components/Navigation.tsx:33-40 | the first index whose section exists and contains the probe position, or the list length when there is none |
| Navigation.ActiveAtSpec | src/components/Navigation.tsx:32-43 | the active id becomes the first listed section containing scrollY + 120; if none contains it, the active id is unchanged |
| Navigation.NavigationState.constructor | src/components/Navigation.tsx:27-28 | starts on "hero" with the menu closed |
| Navigation.NavigationState.OnScroll | src/components/Navigation.tsx:31-44 | the scan loop with its early exit sets the active id to ActiveAfterScroll of the previous id; the menu is untouched |
| Navigation.NavigationState.HandleClick | src/components/Navigation.tsx:49-53 | closes the menu whether or not the target exists, and leaves the active id to the scroll handler |
| Navigation.NavigationState.ToggleMenu | src/components/Navigation.tsx:101 | flips the menu |
| Navigation.NavigationState.CloseOverlay | src/components/Navigation.tsx:127 | closes the menu |
| ContactSection.DecimalString | src/components/ContactSection.tsx:62 | the status code is written as a non-empty string of decimal digits that spells exactly that number |
| ContactSection.PrimaryFailure | src/components/ContactSection.tsx:39-67 | an empty endpoint fails with "Missing VITE_GAS_ENDPOINT"; a thrown fetch fails with its message; a non-ok response fails with "GAS returned <status>: <text>"; a body with ok false fails with its error, or "Unknown error"; anything else succeeds |
| ContactSection.SettledOutcome | src/components/ContactSection.tsx:68-96 | success clears the form; a primary failure is recovered by the fallback unless the fallback throws, in which case the status is error, the form is kept and the message is the primary failure's |
| ContactSection.AttemptsOutcome | src/components/ContactSection.tsx:53-88 | with a non-empty endpoint one CORS request is sent, followed by one no-cors request iff the primary failed; with an empty endpoint only the no-cors request is sent; every request carries the submitted form |
| ContactSection.SubmitButtonState | src/components/ContactSection.tsx:208 | the button is disabled while submitting and enabled again once the submission settles |
| ContactSection.WithField | src/components/ContactSection.tsx:100-105 | the named field takes the new value and the other two are kept |
| ContactSection.ContactForm.constructor | src/components/ContactSection.tsx:12-19 | empty form, idle, no error message |
| ContactSection.ContactForm.HandleInputChange | src/components/ContactSection.tsx:100-105 | replaces one field; status and error message are unchanged |
| ContactSection.ContactForm.BeginSubmit | src/components/ContactSection.tsx:35-37 | the submission proceeds iff no field is the empty string (whitespace-only fields pass); an incomplete form changes nothing, a complete one moves to submitting and disables the button |
| ContactSection.ContactForm.SettleSubmit | src/components/ContactSection.tsx:38-97 | the new state is Settled of the submitted form and the outcomes; the requests sent are Attempts |
| ContactSection.ContactForm.HandleSubmit | src/components/ContactSection.tsx:34-98 | the whole handler: nothing happens for an incomplete form, otherwise the state settles as SettleSubmit says |
| ThemeToggle.StoredTheme | src/components/ThemeToggle.tsx:6-7 | only the strings "light" and "dark" are stored themes |
| ThemeToggle.GetInitialTheme | src/components/ThemeToggle.tsx:4-10 | dark without a window; otherwise a stored theme wins; otherwise dark iff the system prefers dark |
| ThemeToggle.Toggle | src/components/ThemeToggle.tsx:42 | toggling always changes the theme |
| ThemeToggle.ToggleInvolution | src/components/ThemeToggle.tsx:42 | toggling twice restores the theme |
| ThemeToggle.ApplyTheme | src/components/ThemeToggle.tsx:12-16 | the root has class "dark" iff the theme is dark; no other class changes |
| ThemeToggle.ApplyThemeIdempotent | src/components/ThemeToggle.tsx:12-16 | applying twice equals applying the last theme once |
| ThemeToggle.SyncListenerNeverInstalled | src/components/ThemeToggle.tsx:23-31 | after the persistence effect has stored a theme, the sync effect finds storage non-empty and never installs its listener |
| ThemeToggle.IntendedListener | src/components/ThemeToggle.tsx:28-31 | the listener is wanted iff no theme was stored before mount |
| ThemeToggle.ThemeState.constructor | src/components/ThemeToggle.tsx:21-40 | mount as written: the initial theme is applied and stored, and no system listener is installed |
| ThemeToggle.ThemeState.Intended | src/components/ThemeToggle.tsx:28-31 | corrected mount: the listener is installed iff no theme was stored before mount |
| ThemeToggle.ThemeState.ClickToggle | src/components/ThemeToggle.tsx:42 | flips the theme, then applies and stores it |
| ThemeToggle.ThemeState.SystemSchemeChanged | src/components/ThemeToggle.tsx:33-37 | with a listener, the theme follows the system and is applied and stored; without one nothing changes; root classes other than "dark" are always kept |
| LoadingScreen.IndexOf | src/components/LoadingScreen.tsx:28 | the first index of the element, or -1 iff it is absent |
| LoadingScreen.NextIn | src/components/LoadingScreen.tsx:27-30 | the result is always in the list; an element not in the list is followed by the first one |
| LoadingScreen.NextOfIndex | src/components/LoadingScreen.tsx:28-30 | in a list without repeats, element i is followed by element (i+1) mod n |
| LoadingScreen.RotateFrom | src/components/LoadingScreen.tsx:26-32 | k ticks from element i reach element (i+k) mod n |
| LoadingScreen.RotationCycleIn | src/components/LoadingScreen.tsx:26-32 | n ticks bring any element back; an element not in the list joins the cycle at the first one |
| LoadingScreen.MessagesDistinct | src/components/LoadingScreen.tsx:12-18 | the five messages are pairwise distinct |
| LoadingScreen.NextMessage | src/components/LoadingScreen.tsx:27-31 | the next message is one of the five; an unknown message is followed by "Initializing..." |
| LoadingScreen.RotationCycle | src/components/LoadingScreen.tsx:12-32 | five ticks bring every message back; an unknown message goes to "Initializing..." |
| LoadingScreen.ProgressStep | src/components/LoadingScreen.tsx:35-46 | below 80 the step is in [2,7); from 80 to 95 in [1,4); from 95 it is in [0.5,2.5) unless capped at 100, and the result never exceeds 100; progress never goes down |
| LoadingScreen.ProgressStaysInRange | src/components/LoadingScreen.tsx:34-47 | from any value in [0,100], any run of ticks stays within [start,100] |
| LoadingScreen.LoadingScreenState.constructor | src/components/LoadingScreen.tsx:9-10 | starts on "Initializing..." at 0 with nothing scheduled |
| LoadingScreen.LoadingScreenState.LoadingChanged | src/components/LoadingScreen.tsx:20-24 | starting to load resets progress to 0 and schedules the timers; stopping cancels them and keeps progress |
| LoadingScreen.LoadingScreenState.MessageTick | src/components/LoadingScreen.tsx:26-32 | a live interval advances the message by NextMessage |
| LoadingScreen.LoadingScreenState.ProgressTick | src/components/LoadingScreen.tsx:34-47 | a live interval advances progress by ProgressStep; progress stays within [0,100] and never goes down |
| LoadingScreen.LoadingScreenState.CompletionTimerFires | src/components/LoadingScreen.tsx:50-52 | the pending completion timer sets progress to exactly 100 |
| UseLoading.Step | src/hooks/useLoading.ts:13-20 | from 100 or more the value is pinned at 100; below it the value rises, by at least 3 unless capped at 100, and never passes 100 |
| UseLoading.RunBounds | src/hooks/useLoading.ts:12-21 | from [0,100] any run stays within [start,100] and rises by at least 3 per tick until it reaches 100 |
| UseLoading.RunReachesFull | src/hooks/useLoading.ts:12-21 | from 0, any 34 ticks reach exactly 100 |
| UseLoading.LoadingHook.constructor | src/hooks/useLoading.ts:4-9 | loading at progress 0, with the interval and the minimum-time timer live |
| UseLoading.LoadingHook.ProgressTick | src/hooks/useLoading.ts:12-21 | a live interval advances progress by Step; the first tick that finds progress at 100 cancels the interval |
| UseLoading.LoadingHook.MinTimeElapsed | src/hooks/useLoading.ts:24-30 | sets progress to 100 and schedules one hide timer |
| UseLoading.LoadingHook.ResourcesChecked | src/hooks/useLoading.ts:33-41 | a complete document sets progress to 100 and schedules one hide timer; any other ready state changes nothing |
| UseLoading.LoadingHook.HideTimerFires | src/hooks/useLoading.ts:27-29 | a pending hide timer ends loading for good; with none pending nothing changes |
| TransparentParticleBackground.GetParticleConfig | src/components/TransparentParticleBackground.tsx:21-32 | low is 200 particles at half speed; high is 1000 at 1.5 times speed; medium and any other value are 500 at the given speed |
| TransparentParticleBackground.Systems | src/components/TransparentParticleBackground.tsx:60-97 | points is one point system of the full count; shapes is one shape system of half the count, rounded down; mixed is a point system followed by a shape system; any other type draws nothing |
| TransparentParticleBackground.SplitPreservesCount | src/components/TransparentParticleBackground.tsx:80-97 | for every intensity the mixed split is 7/10 and 3/10 of the configured count with nothing lost to rounding, and no type draws more than the configured count |

## Left out

- The browser is not modelled: the WebGL context probe, `window`, `navigator`, the DOM and the registration and removal of event listeners. Their readings are inputs.
- Timers and intervals are not scheduled in time. Each firing is a method call, and nothing is said about which interleavings real timings allow. Effect cleanup on unmount is not modelled.
- `Math.random()` is a parameter in [0,1). Floating-point rounding is not modelled: numbers are exact reals.
- The Gallery's z coordinate (a sine of the photo index) is not modelled, nor is the unused radius, the camera or the orbit controls. The model places photos in the plane only.
- The contents of the Skills 3D scene are not modelled: lights, camera, floating shapes and the skill descriptions.
- Fetch, the 15-second abort timer, the URL-encoded body fields (`to_email`, `source`, `ts`) and `res.json()` are outside the model. The network is an oracle: the primary outcome and whether the fallback throws are inputs.
- ContactSection.SettledOutcome: the `'Failed to send'` message for a thrown non-Error value is not modelled. Every failure of the primary path is an `Error` in the code.
- Navigation.NavigationState.HandleClick: smooth scrolling is not modelled. The active section changes only through later scroll events.
- Navigation offsets and `scrollY` are integers; fractional scroll positions are not modelled.
- ThemeToggle: exceptions from `localStorage` (private mode) are not modelled.
- ThemeToggle.ThemeState: the page mounts three toggles at once (one on the home page and two in the navigation bar). Each keeps its own `theme` but they share the root class list and `localStorage`, so a click on one leaves the others' `theme` stale. The model is a single instance and does not capture that sharing.
- ThemeToggle.ThemeState.Intended: corrects the first visit only. On later visits storage already holds the theme the previous visit wrote, and telling that apart from an explicit choice would need a flag the code does not keep.
- SkillsSection.ActiveBars: `AnimatedSkillIndicator` is defined but never rendered (`Skills3D` draws icons without bars), so the bar rule is modelled as written but is not visible on the page.
- SkillsSection.Skills3DState.OnCanvasError: the sequence of mounts is not modelled. Leaving the 3D view unmounts `Skills3D` and the next mount starts with the error flag clear; each mount is a fresh `Skills3DState`.
- SkillsSection: `is3DLoading` is kept as a field but is never read by the section.
- The rest of the repository is not part of this model: `ParticleBackground`, `App`, the static sections, routing, styling and the content-protection script.

## Findings

| source | as written | input that shows it | evidently intended | confidence | as-written member | corrected member |
|---|---|---|---|---|---|---|
| src/pages/Gallery.tsx:84 | the 3D gallery is chosen on `!isLowEnd` alone | a 1920x1080 screen at ratio 1 with 8 cores and no WebGL context: not low-end, so the canvas mounts although the tier disables 3D | show the grid whenever the device is low-end or its tier disables 3D, as the Skills section does | medium, not executed | Gallery.AsWrittenMountsCanvasWithoutWebGL | Gallery.CorrectedPageViews |
| src/components/ThemeToggle.tsx:23-31 | the sync effect skips its listener whenever storage holds a theme, but the persistence effect declared just before it has already stored one on mount | a first visit with empty storage, then the system switching to dark: the page stays light | follow the system scheme while the user has never chosen a theme; the corrected mount achieves this on a first visit only, because the code keeps no record of an explicit choice | high, not executed | ThemeToggle.SyncListenerNeverInstalled | ThemeToggle.ThemeState.Intended |
