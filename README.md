# Endspace theme: loading cover, mobile navigation and floating table of contents

This project models three client components of the Endspace blog theme in Dafny and
proves properties of the models.

- **Loading cover** (`loading_cover.dfy`, module `LoadingCover`). This is the
  full-screen overlay shown while a page boots. One effect counts the page's
  resources, listens for resource-timing entries, runs a 50 ms interval that sets a
  target percentage, and eases an animated value toward that target once per
  animation frame. It also starts a 100 ms init timer and a 5000 ms safety timer.
  A second effect sets a completion latch the first time it sees the progress at 100
  or more. It then runs the exit sequence: `complete`, `sweeping`, `fadeout`, and
  finally the cover becomes invisible.
  - The component is a class, `Cover`. Each browser event is one method.
  - Timers are pending events with due times on a logical clock `now`.
  - `Commit` is one React commit. It re-runs an effect when that effect's dependency
    changed.
- **Mobile navigation** (`mobile_nav.dfy`, module `MobileNav`).
  - The menu entries and the switches that hide them.
  - The `includes` chain that picks the highlighted tab from the route.
  - The slide-in menu and the body-scroll lock it holds.
  - The icon tables and the contact links.
  - The component state is a class, `NavState`.
- **Floating table of contents** (`floating_toc.dfy`, module `FloatingToc`).
  - The reading-progress percentage.
  - The scroll-spy scan that picks the highlighted heading. It is a loop proved
    against a recursive specification.
  - The auto-scroll target of the list.
  - The guard that renders nothing for an empty table of contents.
  - The component state is a class, `TocWidget`.
- `js.dfy` (module `Js`) holds the JavaScript notions the three share: configuration
  values, truthiness and `String.prototype.includes`.

## Where the loading cover behaves unexpectedly

A progress overlay could be expected to show a percentage that only rises and never passes
100. Its exit sequence could be expected to run once and strictly forward, in the order
the phase comment at LoadingCover.js:15 lists (init, loading, complete, sweeping,
fadeout). Unmount or hiding could be expected to stop everything. The model follows the
code, which differs on each point. Each difference is shown by a method whose `ensures`
fixes the outcome.

- **The displayed progress can drop.** An animation frame writes
  `floor(animationProgress)` over whatever `updateProgress` wrote before.
  `ProgressCanDrop` shows a drop from 50 to 5.
- **The displayed progress can exceed 100.** Resource-timing entries are counted
  without a cap, and `updateProgress` has no 95 or 100 cap.
  `ProgressCanExceedHundred` reaches 200.
- **Completion can be lost.** A new progress value makes the completion effect run
  its cleanup, which clears the pending first exit timer. The latch is already set,
  so the timer is never scheduled again. `CompletionCanBeLost` leaves the cover
  visible with nothing pending.
- **The phase can go back.** A change of the global loading flag re-runs the resource
  effect, and that run schedules a new init timer, which sets `loading`.
  `PhaseCanGoBack` goes from `complete` back to `loading`.
- **The nested exit timers are never cleared.** On unmount only the first exit timer
  is cleared. The later steps stay pending; after unmount their state updates are
  no-ops (`Cover.Unmount`, `Cover.FireSweepTimer`).
- **Hiding is not unmounting.** `isVisible = false` makes the component render
  nothing. The component stays mounted, and the interval and the animation frames go
  on. `ExitSequenceRuns` ends hidden while still mounted, with the interval and a
  frame request still active.

## Model

| member | source | states |
|---|---|---|
| Js.IncludesIff | themes/endspace/components/MobileNav.js:98-103 | the left-to-right scan used for `includes` finds the fragment exactly when it occurs at some index of the path |
| LoadingCover.TotalResources | themes/endspace/components/LoadingCover.js:71-77 | the resource total (`TotalResources`) is exactly 1 for a page with no images, scripts or stylesheet links, and otherwise exactly their number |
| LoadingCover.CompleteCount | themes/endspace/components/LoadingCover.js:79-82 | the already-complete images never outnumber the images |
| LoadingCover.RealProgressIsFloor | themes/endspace/components/LoadingCover.js:46 | the loaded share is the floor of `loaded / total * 100`: r·total ≤ 100·loaded < (r+1)·total (the share is `RealProgress`) |
| LoadingCover.RealProgressMonotone | themes/endspace/components/LoadingCover.js:44-52 | more loaded resources never give a smaller share |
| LoadingCover.RealProgressFull | themes/endspace/components/LoadingCover.js:108-110 | the share reaches 100 exactly when every counted resource is loaded, and stays at or below 100 while loaded ≤ total |
| LoadingCover.ObservedProgress | themes/endspace/components/LoadingCover.js:44-52 | `updateProgress` never lowers the displayed value; it acts only on a share above the last recorded one, and then the result is at least that share |
| LoadingCover.TickTarget | themes/endspace/components/LoadingCover.js:106-119 | the tick target (`TickTarget`) is 100 with the flag cleared; while loading it is exactly `min(95, max(target, share))`: at least the old target and the share when those are at most 95, no more than the larger of them, and 95 once either reaches 95 |
| LoadingCover.EaseStep | themes/endspace/components/LoadingCover.js:92-100 | below the target, one frame moves strictly up and never past the target; it snaps onto the target exactly when less than 0.5 would remain, and otherwise removes a tenth of the gap; at or above the target nothing changes |
| LoadingCover.FramesReachTarget | themes/endspace/components/LoadingCover.js:92-103 | with a fixed target, 20·gap frames (rounded up) bring the animated value exactly onto it (n frames are `Frames`) |
| LoadingCover.AnimationConverges | themes/endspace/components/LoadingCover.js:92-103 | from any value at or below the target, some number of frames lands exactly on the target |
| LoadingCover.StatusLine | themes/endspace/components/LoadingCover.js:184-188 | the five `phase === … && text` conditionals together render exactly the label of the current phase |
| LoadingCover.Render | themes/endspace/components/LoadingCover.js:158-188 | an invisible cover renders nothing; a visible one shows its phase, its progress and that phase's label |
| LoadingCover.WithoutComplete | themes/endspace/components/LoadingCover.js:154 | the completion effect's cleanup removes a pending first exit timer and leaves any later exit timer in place |
| LoadingCover.Cover.constructor | themes/endspace/components/LoadingCover.js:12-135 | mount: visible, phase `init`, latch clear, nothing in the exit sequence; the resource effect has run once with the current flag (counters from the snapshot, interval and frame running, both timers scheduled), and the progress is the loaded share |
| LoadingCover.Cover.UpdateProgress | themes/endspace/components/LoadingCover.js:44-52 | with no resources nothing changes; otherwise the recorded maximum becomes the larger of itself and the share, and the displayed value is `ObservedProgress` of the share |
| LoadingCover.Cover.CountResources | themes/endspace/components/LoadingCover.js:71-85 | the loop counts exactly the complete images, the total is `TotalResources`, and the recorded share is the loaded share |
| LoadingCover.Cover.RunResourceEffect | themes/endspace/components/LoadingCover.js:30-125 | one run of the resource effect leaves the counters of that run, the animator reset, the interval and frame active, and the init and safety timers due 100 ms and 5000 ms from now |
| LoadingCover.Cover.StartCounters | themes/endspace/components/LoadingCover.js:40-85 | the counters restart from the snapshot and the observer is connected when available |
| LoadingCover.Cover.Arm | themes/endspace/components/LoadingCover.js:35-37 | the animator is reset, a frame is requested, the interval runs, and the init and safety timers are scheduled |
| LoadingCover.Cover.CleanupResourceEffect | themes/endspace/components/LoadingCover.js:127-134 | the cleanup clears the init timer, the interval and the safety timer, cancels the frame and disconnects the observer |
| LoadingCover.Cover.RerunResourceEffect | themes/endspace/components/LoadingCover.js:30-135 | a re-run is the cleanup followed by a fresh run with the new flag |
| LoadingCover.Cover.RerunCompletionEffect | themes/endspace/components/LoadingCover.js:138-156 | the latch is set exactly when it was set or the progress is at least 100; the first time it is set, the first exit timer is scheduled 100 ms from now; otherwise the cleanup's removal of a pending first exit timer is all that happens |
| LoadingCover.Cover.Commit | themes/endspace/components/LoadingCover.js:30-156 | a commit keeps the invariants and never undoes a lost completion; the resource effect re-runs exactly when the flag changed (otherwise its state is unchanged), and the completion effect exactly when the rendered progress changed, with the latch and pending-timer outcomes above |
| LoadingCover.Cover.FireInitTimer | themes/endspace/components/LoadingCover.js:35-37 | the init timer sets the phase to `loading`, whatever it was |
| LoadingCover.Cover.ObserverCallback | themes/endspace/components/LoadingCover.js:58-63 | each entry adds one loaded resource, with no cap; the displayed value and the recorded share never decrease, and the share stays the exact loaded share |
| LoadingCover.Cover.IntervalTick | themes/endspace/components/LoadingCover.js:106-119 | the target becomes `TickTarget`: 100 with the flag cleared, otherwise non-decreasing and at most 95 |
| LoadingCover.Cover.AnimationFrame | themes/endspace/components/LoadingCover.js:92-102 | the animated value takes one `EaseStep`; when it was below the target, the displayed progress becomes its floor, whatever it was before |
| LoadingCover.Cover.FireMaxWaitTimer | themes/endspace/components/LoadingCover.js:121-125 | the safety timer forces the displayed progress to 100 unless the latch is set |
| LoadingCover.Cover.FireCompleteTimer | themes/endspace/components/LoadingCover.js:142-152 | the first exit step sets `complete` and schedules the 150 ms timer; it is the first step taken |
| LoadingCover.Cover.FireSweepTimer | themes/endspace/components/LoadingCover.js:145-151 | the second step sets `sweeping` (a no-op after unmount) and schedules the 500 ms timer |
| LoadingCover.Cover.FireFadeTimer | themes/endspace/components/LoadingCover.js:147-150 | the third step sets `fadeout` (a no-op after unmount) and schedules the 400 ms timer |
| LoadingCover.Cover.FireHideTimer | themes/endspace/components/LoadingCover.js:149 | the last step hides the cover (a no-op after unmount); nothing is pending and all four steps have been taken |
| LoadingCover.Cover.Unmount | themes/endspace/components/LoadingCover.js:127-134 | both cleanups run: the init and safety timers, interval, frame and observer are released and a pending first exit timer is cleared, while a later exit timer stays pending |
| LoadingCover.ProgressCanDrop | themes/endspace/components/LoadingCover.js:50-99 | with one of two images complete, the displayed progress starts at 50 and the first frame writes 5 |
| LoadingCover.ProgressCanExceedHundred | themes/endspace/components/LoadingCover.js:58-63 | a page with no resources and two resource-timing entries shows 200 |
| LoadingCover.HalfLoaded | themes/endspace/components/LoadingCover.js:106-119 | with one of two images complete, a commit changes nothing and one tick raises the target to 50 |
| LoadingCover.CompletionLatched | themes/endspace/components/LoadingCover.js:121-156 | the safety timer forces 100, and the commit of 100 sets the latch |
| LoadingCover.CompletionCanBeLost | themes/endspace/components/LoadingCover.js:92-156 | a frame after the latch writes a lower value, and the commit of it clears the first exit timer for good: the cover stays visible with nothing pending |
| LoadingCover.ExitSequenceStarts | themes/endspace/components/LoadingCover.js:138-153 | a fully loaded page latches on the first commit and schedules the first exit timer at 100 ms |
| LoadingCover.LatchedAtMount | themes/endspace/components/LoadingCover.js:138-153 | the same while the global flag still says loading; the init timer is still pending |
| LoadingCover.PhaseCanGoBack | themes/endspace/components/LoadingCover.js:35-37 | the flag clearing after `complete` re-runs the resource effect, and its new init timer sets the phase back to `loading` |
| LoadingCover.ExitSequenceHalfway | themes/endspace/components/LoadingCover.js:142-152 | the first two exit steps are taken at 100 and 250 ms and the 500 ms timer is due at 750 |
| LoadingCover.ExitSequenceRuns | themes/endspace/components/LoadingCover.js:142-158 | the four steps are taken at 100, 250, 750 and 1150 ms; the cover ends invisible in `fadeout` and renders nothing, while it stays mounted with the interval and a frame request still active |
| MobileNav.KeepShown | themes/endspace/components/MobileNav.js:75 | the filter never adds entries |
| MobileNav.KeepShownMembers | themes/endspace/components/MobileNav.js:75 | the filter keeps exactly the entries whose `show` is not strictly `false` |
| MobileNav.KeepShownAppend | themes/endspace/components/MobileNav.js:75 | the filter distributes over concatenation, so it keeps the order |
| MobileNav.KeepShownCons | themes/endspace/components/MobileNav.js:75 | filtering a list is filtering its head, then its tail |
| MobileNav.MenuLayout | themes/endspace/components/MobileNav.js:67-75 | the menu is Home, then Category, Tag and Archive each unless switched off, then Portfolio and Friends, then Search unless switched off (the menu is `MenuItems`, the filter over `AllMenuItems`) |
| MobileNav.FixedEntriesAlwaysShown | themes/endspace/components/MobileNav.js:67-75 | Home, Portfolio and Friends are always in the menu, and Home is first |
| MobileNav.MenuNamesDistinct | themes/endspace/components/MobileNav.js:67-74 | no two menu entries share a name |
| MobileNav.SwitchedEntries | themes/endspace/components/MobileNav.js:69-75 | each switchable entry is in the menu exactly when its switch is not `false`, so `null`, an absent key, `0` and `""` keep it |
| MobileNav.SwitchedEntry | themes/endspace/components/MobileNav.js:75 | among entries with distinct names, an entry's name survives the filter exactly when the entry is shown |
| MobileNav.NextActiveTab | themes/endspace/components/MobileNav.js:95-104 | the exact root path selects Home |
| MobileNav.NextActiveTabFollowsRules | themes/endspace/components/MobileNav.js:97-103 | for any other path, the `else if` chain is the rule table Category, Tag, Archive, Search, Friends, Portfolio tried in order, with the previous tab as fallback |
| MobileNav.FirstRuleCons | themes/endspace/components/MobileNav.js:98-103 | one step of the chain: the first rule decides if its fragment occurs, otherwise the rest of the chain does |
| MobileNav.FirstRuleDecides | themes/endspace/components/MobileNav.js:98-104 | the first rule whose fragment occurs decides; if no fragment occurs, the previous tab stays (the rule chain is `FirstRule`) |
| MobileNav.FirstRuleNeverHome | themes/endspace/components/MobileNav.js:98-104 | no rule selects Home, so the chain yields Home only as an unchanged fallback |
| MobileNav.HomeOnlyForRoot | themes/endspace/components/MobileNav.js:95-104 | the tab becomes Home exactly for `/`, or when Home was already selected and no rule matched |
| MobileNav.CategoryComesFirst | themes/endspace/components/MobileNav.js:98 | any path other than `/` that contains `/category` selects Category, whatever else it contains |
| MobileNav.UnmatchedRouteKeepsTab | themes/endspace/components/MobileNav.js:95-104 | a path other than `/` that contains none of the fragments keeps the previous tab |
| MobileNav.RootWithQueryKeepsTab | themes/endspace/components/MobileNav.js:97-103 | `/?p=1` is not the root and matches no rule, so the previous tab stays |
| MobileNav.NavState.SyncLock | themes/endspace/components/MobileNav.js:112-121 | when the menu state changed, the cleanup releases the body scroll and the body sets it to `hidden` when open or `""` when closed; otherwise nothing changes |
| MobileNav.NavState.constructor | themes/endspace/components/MobileNav.js:60-61 | mount: the tab is the one the route selects starting from Home, the menu is closed and the body scroll is free |
| MobileNav.NavState.Navigate | themes/endspace/components/MobileNav.js:95-109 | a route change re-selects the tab and closes the menu; the same route changes nothing; the body is locked exactly while the menu is open |
| MobileNav.NavState.Toggle | themes/endspace/components/MobileNav.js:160 | the hamburger flips the menu, and the body is locked exactly when it is now open |
| MobileNav.NavState.BackdropClick | themes/endspace/components/MobileNav.js:178 | a backdrop click closes the menu and frees the body scroll |
| MobileNav.NavState.Unmount | themes/endspace/components/MobileNav.js:118-120 | unmount frees the body scroll |
| MobileNav.NavigatingClosesMenu | themes/endspace/components/MobileNav.js:106-121 | opening the menu and then navigating to `/tag` leaves it closed, the body free and the Tag tab selected |
| MobileNav.RenderIcon | themes/endspace/components/MobileNav.js:124-128 | an icon is rendered exactly for a name in the icon table, and it is that name's icon |
| MobileNav.MenuIconsComplete | themes/endspace/components/MobileNav.js:33-41 | every entry the menu can show has an icon |
| MobileNav.MenuIconsDistinct | themes/endspace/components/MobileNav.js:33-41 | no two entries share an icon |
| MobileNav.RenderSocialIcon | themes/endspace/components/MobileNav.js:131-140 | a truthy image path wins and renders as an image with the label as alt text; otherwise the key's table icon is rendered, or nothing for a key not in the table |
| MobileNav.ContactLinksAllHaveIcons | themes/endspace/components/MobileNav.js:44-90 | every listed contact link has something to render |
| MobileNav.ConfiguredLinks | themes/endspace/components/MobileNav.js:226-228 | a contact link is rendered exactly when its configured URL is truthy |
| MobileNav.ConfiguredLinksAppend | themes/endspace/components/MobileNav.js:226-241 | the rendered links keep the list order |
| MobileNav.NoContactConfigured | themes/endspace/components/MobileNav.js:226-228 | with nothing configured, no contact link is rendered |
| FloatingToc.ReadingProgressBounds | themes/endspace/components/FloatingToc.js:31-36 | the figure is at most 100 and is 0 on a page that does not scroll; it is exactly 100 at or past the bottom; it is negative exactly when the scroll position is (no lower clamp) (the figure is `ReadingProgress`) |
| FloatingToc.ReadingProgressMonotone | themes/endspace/components/FloatingToc.js:31-36 | scrolling further down never lowers the figure (of `ReadingProgress`) |
| FloatingToc.Headings | themes/endspace/components/FloatingToc.js:42-47 | the heading elements are at most the collection's entries |
| FloatingToc.Offset | themes/endspace/components/FloatingToc.js:52-53 | the offset is exactly `max(150, gap/4)`: at least 150 and at least a quarter of the gap to the previous passed heading, and equal to one of them; it is exactly 150 for the first heading tested |
| FloatingToc.SpyChoosesByPassedPrefix | themes/endspace/components/FloatingToc.js:44-61 | non-Element entries play no part; when exactly the first k headings pass, the result is the last of them (or the starting id if k = 0), replaced by heading k's id when that is falsy and the scan stopped at heading k (the scan is the recursive `Spy`) |
| FloatingToc.PassedCount | themes/endspace/components/FloatingToc.js:45-60 | there is always such a k: the run of passing headings ends at the first heading that does not pass |
| FloatingToc.SpyFromNull | themes/endspace/components/FloatingToc.js:44-61 | from a null start: no headings give null; a first heading that does not pass is chosen itself; otherwise the choice follows the run of passing headings |
| FloatingToc.ScrollSpy | themes/endspace/components/FloatingToc.js:42-61 | the loop, with its `continue` and `break`, returns the scan's result |
| FloatingToc.IndexOf | themes/endspace/components/FloatingToc.js:65 | the result is the first position holding the id, or -1 when no position holds it (a null id is never found) |
| FloatingToc.AutoScrollTarget | themes/endspace/components/FloatingToc.js:63-66 | the list scrolls only when mounted with ids; the target is 32·index − 60 for the first position holding the id, and −92 for a missing id, since `-1 \|\| 0` is -1 (the target is `AutoScrollTop`) |
| FloatingToc.TocIds | themes/endspace/components/FloatingToc.js:72-78 | a missing or empty toc renders nothing; otherwise the ids are the items' ids mapped through `uuidToId`, in order |
| FloatingToc.TocWidget.Render | themes/endspace/components/FloatingToc.js:72-78 | the guard hides the panel and leaves `tocIds` as it was; otherwise `tocIds` is rebuilt; the list exists exactly when the panel is rendered and expanded |
| FloatingToc.TocWidget.SpyListener | themes/endspace/components/FloatingToc.js:19-22 | the listener registered at mount always starts the scan from null, whatever is highlighted now, and scrolls the list when the target exists |
| FloatingToc.TocWidget.ProgressListener | themes/endspace/components/FloatingToc.js:31-36 | the progress state becomes the reading progress, at most 100 |
| FloatingToc.TocWidget.constructor | themes/endspace/components/FloatingToc.js:11-28 | mount: expanded; the first render's guard and ids; then both listeners run once |
| FloatingToc.TocWidget.Toggle | themes/endspace/components/FloatingToc.js:102 | the toggle flips the panel, and the list exists exactly while it is expanded |
| FloatingToc.SpyRestartsFromNull | themes/endspace/components/FloatingToc.js:44-49 | after `usage` was highlighted, scrolling back above every heading highlights the first heading `intro`, not the previous one, because each scan starts from null |

## Left out

- JSX markup, class names, inline styles and the styled-jsx CSS are presentation only. The overlay is reduced to `Render`'s phase, percent and label. Icons are reduced to their names.
- The DOM is an input. The resource effect reads a `Snapshot`: per-image completeness, script and stylesheet counts, and whether a resource-timing observer could be set up. The scroll spy reads `Node`s. Element enumeration, `getBoundingClientRect` and `PerformanceObserver` themselves are not modelled.
- Real scheduling is replaced by a logical clock `now`. A timer may fire at any time at or after its due time. The browser's first-in-first-out order for timers due together is not imposed, so the model allows some orders the browser does not. The interval and the animation frame fire whenever they are active.
- React's batching of state updates and re-renders is collapsed into `Commit` and the `NavState` and `TocWidget` methods. A commit is an explicit event, so an animation frame may come between a state update and the commit that renders it.
- `document.body.style.overflow` written by the loading cover is not modelled. That style is shared with the mobile menu, whose lock is modelled as its own field.
- Floating point: the loaded share uses exact integer division (the floor of the exact ratio). Easing and scroll geometry use exact reals. NaN and infinities are not modelled.
- `lodash.throttle` is not modelled. Each `SpyListener` call is one call the throttle lets through.
- `uuidToId` is a parameter `toId` of `TocIds` and the widget.
- `siteConfig` lookups are inputs: `MenuConfig`, the contact `map<string, Value>`, and `Labels` (with the defaults `DefaultLabels`).
- LoadingCover.Cover.AnimationFrame: the invariant that the animated value stays at or below the target is not carried by `Valid`. It is stated one step at a time by `EaseStep`.
- LoadingCover.Cover.Commit: the two effects' cleanups and bodies run per effect rather than all cleanups first. They touch disjoint state, so the result is the same.
- FloatingToc.TocWidget.Toggle: the re-render is taken to use the same toc, so `tocIds` is not rebuilt.
- The mobile menu's e-mail link (MobileNav.js:217-225), the avatar, the music player and the copyright line are plain rendering with no logic beyond a truthiness test.
- `Math.round(progress)` in the table-of-contents panel is display only.
- themes/endspace/components/BlogPostCard.js and FloatingRecentLogs.js are rendering and a single boolean toggle. They are not part of this model.
