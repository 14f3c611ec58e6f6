/** The boot-progress engine and exit sequencer of the full-screen loading cover.

    The component is a sequential state machine driven by the browser: each method of
    `Cover` is one event (a React commit, a timer callback, an interval tick, an
    animation frame, a batch of resource-timing entries, unmount), delivered one at a
    time. Timers are pending events with a due time on a logical clock `now`. */
module LoadingCover {
  import opened Js

  /** The values of the `phase` state, in the order the exit sequence sets them. */
  datatype Phase = Init | Loading | Complete | Sweeping | Fadeout

  /** The one-shot timers the component schedules with `setTimeout`. */
  datatype Timer = InitTimer | MaxWaitTimer | CompleteTimer | SweepTimer | FadeTimer | HideTimer

  /** Each timer's delay in milliseconds. */
  function Delay(t: Timer): nat
  {
    match t
    case InitTimer => 100
    case MaxWaitTimer => 5000
    case CompleteTimer => 100
    case SweepTimer => 150
    case FadeTimer => 500
    case HideTimer => 400
  }

  /** What the document holds when the resource effect runs: one completeness flag per
      image, the number of scripts and of stylesheet links, and whether a
      resource-timing observer could be set up. */
  datatype Snapshot = Snapshot(images: seq<bool>, scripts: nat, stylesheets: nat, observerAvailable: bool)

  /** The status texts, one per phase (configuration inputs). */
  datatype Labels = Labels(init: string, loading: string, complete: string, sweeping: string, fadeout: string)

  const DefaultLabels := Labels("INITIALIZING", "LOADING", "READY", "LAUNCHING", "WELCOME")

  /** What a visible cover shows. */
  datatype Overlay = Overlay(phase: Phase, percent: int, status: string)

  // ---------------------------------------------------------------------------
  // Specification functions

  /** The number of discovered resources, never zero. */
  function TotalResources(snap: Snapshot): (n: nat)
    ensures n >= 1
    ensures |snap.images| + snap.scripts + snap.stylesheets > 0 ==> n == |snap.images| + snap.scripts + snap.stylesheets
    ensures n == 1 || n == |snap.images| + snap.scripts + snap.stylesheets
  {
    var n := |snap.images| + snap.scripts + snap.stylesheets;
    if n == 0 then 1 else n
  }

  /** The number of images that already report themselves complete. */
  function CompleteCount(images: seq<bool>): (n: nat)
    ensures n <= |images|
  {
    if images == [] then 0
    else CompleteCount(images[..|images| - 1]) + (if images[|images| - 1] then 1 else 0)
  }

  /** The loaded share as a whole percentage, `floor(loaded / total * 100)` taken exactly. */
  function RealProgress(loaded: nat, total: nat): nat
    requires total >= 1
  {
    (loaded * 100) / total
  }

  /** RealProgress is the floor of the loaded share in percent. */
  lemma RealProgressIsFloor(loaded: nat, total: nat)
    requires total >= 1
    ensures var r := RealProgress(loaded, total); r * total <= loaded * 100 < (r + 1) * total
  {
  }

  /** The displayed progress after `updateProgress` sees the ratio t with the recorded
      maximum `last`: it only acts when t is new, and then never lowers the value. */
  function ObservedProgress(progress: int, last: int, t: int): (r: int)
    ensures r >= progress
    ensures r == progress || r == t
    ensures t > last ==> r >= t
    ensures t <= last ==> r == progress
  {
    if t > last then (if progress >= t then progress else t) else progress
  }

  /** The target the 50ms interval computes from the loaded share. */
  function TickTarget(onLoading: bool, target: int, share: int): (r: int)
    ensures !onLoading ==> r == 100
    ensures onLoading ==> r <= 95 && (r == 95 || r == target || r == share)
    ensures onLoading && target <= 95 ==> r >= target
    ensures onLoading && share <= 95 ==> r >= share
    ensures onLoading ==> r <= target || r <= share
    ensures onLoading && (target >= 95 || share >= 95) ==> r == 95
  {
    if !onLoading then 100
    else
      var m := if target >= share then target else share;
      if m <= 95 then m else 95
  }

  /** One animation frame's easing step toward the target. */
  function EaseStep(anim: real, target: real): (r: real)
    ensures anim < target ==> anim < r <= target
    ensures anim < target ==> (r == target <==> 0.9 * (target - anim) < 0.5)
    ensures anim < target && r != target ==> target - r == 0.9 * (target - anim)
    ensures anim >= target ==> r == anim
  {
    if anim < target then
      var next := anim + (target - anim) * 0.1;
      if target - next < 0.5 then target else next
    else anim
  }

  /** The animated value after n frames with a fixed target. */
  function Frames(anim: real, target: real, n: nat): real
    decreases n
  {
    if n == 0 then anim else Frames(EaseStep(anim, target), target, n - 1)
  }

  /** The status line renders the label of the current phase (five `phase === … && text`
      conditionals, of which exactly one contributes). */
  function PhaseLabel(phase: Phase, labels: Labels): string
  {
    match phase
    case Init => labels.init
    case Loading => labels.loading
    case Complete => labels.complete
    case Sweeping => labels.sweeping
    case Fadeout => labels.fadeout
  }

  function StatusLine(phase: Phase, labels: Labels): (s: string)
    ensures s == PhaseLabel(phase, labels)
  {
    (if phase == Init then labels.init else "")
    + (if phase == Loading then labels.loading else "")
    + (if phase == Complete then labels.complete else "")
    + (if phase == Sweeping then labels.sweeping else "")
    + (if phase == Fadeout then labels.fadeout else "")
  }

  /** The rendered cover: nothing once it is invisible. */
  function Render(isVisible: bool, progress: int, phase: Phase, labels: Labels): (r: Option<Overlay>)
    ensures r.None? <==> !isVisible
    ensures r.Some? ==> r.value == Overlay(phase, progress, PhaseLabel(phase, labels))
  {
    if !isVisible then None else Some(Overlay(phase, progress, StatusLine(phase, labels)))
  }

  // ---------------------------------------------------------------------------
  // Lemmas about the specification functions

  lemma RealProgressMonotone(a: nat, b: nat, total: nat)
    requires total >= 1 && a <= b
    ensures RealProgress(a, total) <= RealProgress(b, total)
  {
    var ra, rb := RealProgress(a, total), RealProgress(b, total);
    RealProgressIsFloor(a, total);
    RealProgressIsFloor(b, total);
    if ra > rb {
      MulMonotone(rb + 1, ra, total);
      assert false;
    }
  }

  /** The loaded share reaches 100 exactly when loaded reaches total, and stays at or
      below 100 while loaded does not exceed total. */
  lemma RealProgressFull(loaded: nat, total: nat)
    requires total >= 1
    ensures RealProgress(loaded, total) >= 100 <==> loaded >= total
    ensures loaded <= total ==> RealProgress(loaded, total) <= 100
  {
    var r := RealProgress(loaded, total);
    RealProgressIsFloor(loaded, total);
    if loaded >= total {
      if r < 100 { MulMonotone(r + 1, 100, total); }
    } else {
      if r >= 100 { MulMonotone(100, r, total); }
    }
    if loaded <= total && r > 100 {
      MulMonotone(101, r, total);
    }
  }

  lemma MulMonotone(a: int, b: int, c: nat)
    requires a <= b
    ensures a * c <= b * c
  {
  }

  /** With a fixed target at or above the animated value, at most ceil(20 * gap) frames
      bring the animated value exactly onto the target: every frame that does not snap
      removes a tenth of a gap of at least 0.5/0.9. */
  lemma {:induction false} FramesReachTarget(anim: real, target: real, n: nat)
    requires anim <= target
    requires target - anim <= n as real / 20.0
    ensures Frames(anim, target, n) == target
    decreases n
  {
    if n > 0 {
      var next := EaseStep(anim, target);
      if anim < target && next != target {
        assert target - next == 0.9 * (target - anim);
        assert target - anim >= 0.5 / 0.9;
      }
      FramesReachTarget(next, target, n - 1);
    }
  }

  /** The easing always terminates on the target. */
  lemma AnimationConverges(anim: real, target: real)
    requires anim <= target
    ensures exists n: nat :: Frames(anim, target, n) == target
  {
    var n: nat := ((target - anim) * 20.0).Floor + 1;
    FramesReachTarget(anim, target, n);
  }

  // ---------------------------------------------------------------------------
  // The component

  /** The exit timer that takes step k of the exit sequence. */
  function ExitTimer(k: nat): Timer
    requires k < 4
  {
    if k == 0 then CompleteTimer else if k == 1 then SweepTimer else if k == 2 then FadeTimer else HideTimer
  }

  /** A scheduled one-shot timer and its due time. */
  datatype PendingTimer = PendingTimer(timer: Timer, due: int)

  /** A pending exit timer with the `completeTimer` (the only one the completion
      effect's cleanup can clear) taken away. */
  function WithoutComplete(p: Option<PendingTimer>): (r: Option<PendingTimer>)
    ensures r.Some? ==> r == p && r.value.timer != CompleteTimer
    ensures p.Some? && p.value.timer != CompleteTimer ==> r == p
  {
    if p.Some? && p.value.timer == CompleteTimer then None else p
  }

  class Cover {
    // React state (the three useState hooks and the completion latch ref)
    var isVisible: bool
    var progress: int
    var phase: Phase
    var hasCompleted: bool

    // The `onLoading` flag as captured by the current run of the resource effect
    var onLoading: bool

    // Closure-local variables of the current run of the resource effect
    var totalResources: nat
    var loadedResources: nat
    var lastProgress: nat
    var animationProgress: real
    var targetProgress: int

    // Host scheduling: the clock; the due times of the init timer and the safety timer;
    // the pending timer of the exit sequence; the interval, the requested animation
    // frame and the resource observer
    var now: int
    var initDue: Option<int>
    var maxWaitDue: Option<int>
    var exitPending: Option<PendingTimer>
    var intervalActive: bool
    var frameRequested: bool
    var observing: bool
    var mounted: bool

    // The `progress` value the completion effect last ran with (its dependency list)
    var committedProgress: int

    // History of the exit sequence: when each step taken so far was taken (step k is
    // the callback of ExitTimer(k)), and when the latch was set
    ghost var exitTimes: seq<int>
    ghost var latchedAt: int

    ghost predicate Valid()
      reads this
    {
      ValidRun() && ValidHost() && ValidExit()
    }

    /** The closure state of the current resource-effect run. */
    ghost predicate ValidRun()
      reads this`totalResources, this`targetProgress, this`onLoading
    {
      && totalResources >= 1
      && (onLoading ==> targetProgress <= 95)
      && (!onLoading ==> targetProgress == 0 || targetProgress == 100)
    }

    /** `lastProgress` is the loaded share of the current run (kept apart from `Valid`,
        which the events that do not touch the counters then need not unfold). */
    ghost predicate ShareTracked()
      reads this`totalResources, this`loadedResources, this`lastProgress
    {
      totalResources >= 1 && lastProgress == RealProgress(loadedResources, totalResources)
    }

    /** After unmount nothing the two cleanups release is still active. */
    ghost predicate ValidHost()
      reads this`mounted, this`intervalActive, this`frameRequested, this`observing,
            this`initDue, this`maxWaitDue, this`exitPending
    {
      !mounted ==> && !intervalActive && !frameRequested && !observing
                   && initDue.None? && maxWaitDue.None? && !(exitPending.Some? && exitPending.value.timer == CompleteTimer)
    }

    /** The exit sequence is taken in its fixed order, each step at most once, with at
        least the chained delays between its steps; the pending exit timer is the one
        for the next step. */
    ghost predicate ValidExit()
      reads this`hasCompleted, this`exitPending, this`exitTimes, this`latchedAt,
            this`now, this`phase, this`isVisible
    {
      && |exitTimes| <= 4
      && (!hasCompleted ==> exitTimes == [] && exitPending.None?)
      && (exitPending.Some? ==>
            && |exitTimes| < 4 && exitPending.value.timer == ExitTimer(|exitTimes|)
            && exitPending.value.due
               == (if exitTimes == [] then latchedAt else exitTimes[|exitTimes| - 1]) + Delay(exitPending.value.timer))
      && (|exitTimes| > 0 ==> exitTimes[0] >= latchedAt + Delay(CompleteTimer))
      && (|exitTimes| > 1 ==> exitTimes[1] >= exitTimes[0] + Delay(SweepTimer))
      && (|exitTimes| > 2 ==> exitTimes[2] >= exitTimes[1] + Delay(FadeTimer))
      && (|exitTimes| > 3 ==> exitTimes[3] >= exitTimes[2] + Delay(HideTimer))
      && (|exitTimes| > 0 ==> exitTimes[|exitTimes| - 1] <= now)
      && (exitTimes == [] ==> phase == Init || phase == Loading)
      && (!isVisible ==> |exitTimes| == 4)
    }

    /** The latch is set but the exit sequence neither ran nor is scheduled: nothing
        can start it any more, so the cover stays visible. */
    ghost predicate CompletionLost()
      reads this
    {
      hasCompleted && exitTimes == [] && exitPending.None?
    }

    /** The closure state right after the resource effect ran with `flag` over `snap`. */
    ghost predicate FreshRun(flag: bool, snap: Snapshot)
      reads this
    {
      FreshCounters(flag, snap) && Armed()
    }

    /** The counters and the observer of a run that started with `flag` over `snap`. */
    ghost predicate FreshCounters(flag: bool, snap: Snapshot)
      reads this`onLoading, this`totalResources, this`loadedResources, this`observing
    {
      && onLoading == flag
      && totalResources == TotalResources(snap)
      && loadedResources == CompleteCount(snap.images)
      && observing == snap.observerAvailable
    }

    /** The animator reset, a frame requested, the interval running and both timers of
        a run scheduled at the current time. */
    ghost predicate Armed()
      reads this`animationProgress, this`targetProgress, this`intervalActive, this`frameRequested,
            this`initDue, this`maxWaitDue, this`now
    {
      && animationProgress == 0.0 && targetProgress == 0
      && intervalActive && frameRequested
      && initDue == Some(now + Delay(InitTimer)) && maxWaitDue == Some(now + Delay(MaxWaitTimer))
    }

    /** Mount: the first render, then the resource effect with the current flag; the
        completion effect's first run sees progress 0 and does nothing. */
    constructor (flag: bool, snap: Snapshot)
      ensures Valid() && ShareTracked() && mounted
      ensures isVisible && phase == Init && !hasCompleted && now == 0 && committedProgress == 0
      ensures exitTimes == [] && exitPending.None?
      ensures FreshRun(flag, snap)
      ensures progress == RealProgress(loadedResources, totalResources)
    {
      isVisible, progress, phase, hasCompleted := true, 0, Init, false;
      onLoading := flag;
      totalResources, loadedResources, lastProgress := 1, 0, 0;
      animationProgress, targetProgress := 0.0, 0;
      now, initDue, maxWaitDue, exitPending := 0, None, None, None;
      intervalActive, frameRequested, observing, mounted := false, false, false, true;
      committedProgress := 0;
      exitTimes, latchedAt := [], 0;
      new;
      RunResourceEffect(flag, snap);
      assert ValidExit();
    }

    /** `updateProgress`: raise the displayed progress to the loaded share when that
        share is new, with no 95 or 100 cap. */
    method UpdateProgress()
      modifies this`progress, this`lastProgress
      ensures totalResources == 0 ==> progress == old(progress) && lastProgress == old(lastProgress)
      ensures totalResources >= 1 ==>
        var t := RealProgress(loadedResources, totalResources);
        && lastProgress == (if t > old(lastProgress) then t else old(lastProgress))
        && progress == ObservedProgress(old(progress), old(lastProgress), t)
    {
      if totalResources == 0 {
        return;
      }
      var t := (loadedResources * 100) / totalResources;
      if t > lastProgress {
        lastProgress := t;
        progress := if progress >= t then progress else t;
      }
    }

    /** `countResources`: the number of discovered resources (at least 1) and of the
        images already complete, then `updateProgress`. */
    method CountResources(snap: Snapshot)
      requires loadedResources == 0 && lastProgress == 0
      modifies this`totalResources, this`loadedResources, this`lastProgress, this`progress
      ensures totalResources == TotalResources(snap)
      ensures loadedResources == CompleteCount(snap.images)
      ensures lastProgress == RealProgress(loadedResources, totalResources)
      ensures progress == ObservedProgress(old(progress), 0, lastProgress)
    {
      var images := snap.images;
      totalResources := |images| + snap.scripts + snap.stylesheets;
      if totalResources == 0 {
        totalResources := 1;
      }
      var i := 0;
      while i < |images|
        modifies this`loadedResources
        invariant 0 <= i <= |images|
        invariant loadedResources == CompleteCount(images[..i])
      {
        assert images[..i + 1][..i] == images[..i];
        if images[i] {
          loadedResources := loadedResources + 1;
        }
        i := i + 1;
      }
      assert images[..i] == images;
      UpdateProgress();
    }

    /** The body of the resource effect: schedule the init timer, reset the counters,
        connect the observer, count the initial resources, reset the animator, request
        a frame, start the interval and schedule the safety timer. (The clock does not
        move while the effect runs, so the timers can be scheduled last.) */
    method RunResourceEffect(flag: bool, snap: Snapshot)
      modifies this`onLoading, this`totalResources, this`loadedResources, this`lastProgress,
               this`animationProgress, this`targetProgress, this`initDue, this`maxWaitDue,
               this`intervalActive, this`frameRequested, this`observing, this`progress
      ensures ValidRun() && ShareTracked() && FreshRun(flag, snap)
      ensures progress == ObservedProgress(old(progress), 0, lastProgress)
    {
      StartCounters(flag, snap);
      Arm();
    }

    /** Reset the counters, connect the observer and count the initial resources. */
    method StartCounters(flag: bool, snap: Snapshot)
      modifies this`onLoading, this`totalResources, this`loadedResources, this`lastProgress,
               this`observing, this`progress
      ensures FreshCounters(flag, snap) && ShareTracked()
      ensures progress == ObservedProgress(old(progress), 0, lastProgress)
    {
      onLoading := flag;
      totalResources, loadedResources, lastProgress := 0, 0, 0;
      observing := snap.observerAvailable;
      CountResources(snap);
    }

    /** Reset the animator, request a frame, start the interval, schedule both timers. */
    method Arm()
      modifies this`animationProgress, this`targetProgress, this`intervalActive,
               this`frameRequested, this`initDue, this`maxWaitDue
      ensures Armed()
    {
      initDue := Some(now + Delay(InitTimer));
      animationProgress, targetProgress := 0.0, 0;
      frameRequested := true;
      intervalActive := true;
      maxWaitDue := Some(now + Delay(MaxWaitTimer));
    }

    /** The resource effect's cleanup: clear the init timer, the interval and the safety
        timer, cancel the frame and disconnect the observer. */
    method CleanupResourceEffect()
      modifies this`initDue, this`maxWaitDue, this`intervalActive, this`frameRequested, this`observing
      ensures initDue.None? && maxWaitDue.None? && !intervalActive && !frameRequested && !observing
    {
      initDue, maxWaitDue := None, None;
      intervalActive, frameRequested, observing := false, false, false;
    }

    /** The resource effect re-runs: its cleanup, then its body. */
    method RerunResourceEffect(flag: bool, snap: Snapshot)
      modifies this`onLoading, this`totalResources, this`loadedResources, this`lastProgress,
               this`animationProgress, this`targetProgress, this`initDue, this`maxWaitDue,
               this`intervalActive, this`frameRequested, this`observing, this`progress
      ensures ValidRun() && ShareTracked() && FreshRun(flag, snap)
      ensures progress == ObservedProgress(old(progress), 0, lastProgress)
    {
      CleanupResourceEffect();
      RunResourceEffect(flag, snap);
    }

    /** The completion effect re-runs for a new rendered progress. Its cleanup clears a
        pending `completeTimer`; its body, the first time it sees `progress >= 100`,
        sets the latch and schedules the exit sequence. */
    method RerunCompletionEffect(rendered: int)
      requires ValidExit() && mounted
      modifies this`committedProgress, this`hasCompleted, this`latchedAt, this`exitPending
      ensures ValidExit()
      ensures committedProgress == rendered
      ensures hasCompleted == (old(hasCompleted) || rendered >= 100)
      ensures rendered >= 100 && !old(hasCompleted) ==>
        exitPending == Some(PendingTimer(CompleteTimer, now + Delay(CompleteTimer)))
      ensures !(rendered >= 100 && !old(hasCompleted)) ==> exitPending == WithoutComplete(old(exitPending))
    {
      exitPending := WithoutComplete(exitPending);
      committedProgress := rendered;
      if rendered >= 100 && !hasCompleted {
        hasCompleted := true;
        latchedAt := now;
        exitPending := Some(PendingTimer(CompleteTimer, now + Delay(CompleteTimer)));
      }
    }

    /** A React commit of a render that read `flag` from the global state. The resource
        effect re-runs when the flag changed, the completion effect when the rendered
        progress changed. React runs the cleanups of both before either body; the two
        effects touch disjoint state, so running each effect's cleanup and body together
        leaves the same state. `snap` is the document a re-run of the resource effect
        sees. */
    method Commit(flag: bool, snap: Snapshot)
      requires Valid() && ShareTracked() && mounted
      modifies this`onLoading, this`totalResources, this`loadedResources, this`lastProgress,
               this`animationProgress, this`targetProgress, this`initDue, this`maxWaitDue,
               this`intervalActive, this`frameRequested, this`observing, this`progress,
               this`committedProgress, this`hasCompleted, this`latchedAt, this`exitPending
      ensures Valid() && ShareTracked() && mounted
      ensures committedProgress == old(progress)
      ensures hasCompleted == (old(hasCompleted) || (old(progress) != old(committedProgress) && old(progress) >= 100))
      ensures old(CompletionLost()) ==> CompletionLost()
      ensures flag == old(onLoading) ==>
        && onLoading == old(onLoading) && totalResources == old(totalResources)
        && loadedResources == old(loadedResources) && lastProgress == old(lastProgress)
        && animationProgress == old(animationProgress) && targetProgress == old(targetProgress)
        && intervalActive == old(intervalActive) && frameRequested == old(frameRequested)
        && observing == old(observing) && progress == old(progress)
        && initDue == old(initDue) && maxWaitDue == old(maxWaitDue)
      ensures flag != old(onLoading) ==>
        FreshRun(flag, snap) && progress == ObservedProgress(old(progress), 0, lastProgress)
      ensures old(progress) == old(committedProgress) ==> exitPending == old(exitPending)
      ensures old(progress) != old(committedProgress) && old(progress) >= 100 && !old(hasCompleted) ==>
        exitPending == Some(PendingTimer(CompleteTimer, now + Delay(CompleteTimer)))
      ensures old(progress) != old(committedProgress) && !(old(progress) >= 100 && !old(hasCompleted)) ==>
        exitPending == WithoutComplete(old(exitPending))
    {
      var rendered := progress;
      if rendered != committedProgress {
        RerunCompletionEffect(rendered);
      }
      if flag != onLoading {
        RerunResourceEffect(flag, snap);
      }
    }

    /** The logical clock advances; nothing else changes. */
    method Advance(dt: nat)
      requires Valid()
      modifies this`now
      ensures Valid() && now == old(now) + dt
    {
      now := now + dt;
    }

    /** The 100ms init timer: the phase becomes `loading`, whatever it was. */
    method FireInitTimer()
      requires Valid() && initDue.Some? && initDue.value <= now
      modifies this`phase, this`initDue
      ensures Valid()
      ensures phase == Loading && initDue.None?
    {
      initDue := None;
      phase := Loading;
    }

    /** A batch of resource-timing entries: each adds one loaded resource, uncapped, and
        runs `updateProgress`. */
    method ObserverCallback(entries: nat)
      requires Valid() && ShareTracked() && observing
      modifies this`loadedResources, this`lastProgress, this`progress
      ensures Valid() && ShareTracked()
      ensures loadedResources == old(loadedResources) + entries
      ensures progress == ObservedProgress(old(progress), old(lastProgress), lastProgress)
      ensures progress >= old(progress) && lastProgress >= old(lastProgress)
    {
      var i := 0;
      while i < entries
        modifies this`loadedResources, this`lastProgress, this`progress
        invariant 0 <= i <= entries
        invariant loadedResources == old(loadedResources) + i
        invariant lastProgress == RealProgress(loadedResources, totalResources)
        invariant old(lastProgress) <= lastProgress
        invariant progress == ObservedProgress(old(progress), old(lastProgress), lastProgress)
      {
        loadedResources := loadedResources + 1;
        RealProgressMonotone(loadedResources - 1, loadedResources, totalResources);
        UpdateProgress();
        i := i + 1;
      }
    }

    /** The 50ms interval: recompute the target from the loaded share. */
    method IntervalTick()
      requires Valid() && intervalActive
      modifies this`targetProgress
      ensures Valid()
      ensures targetProgress == TickTarget(onLoading, old(targetProgress), RealProgress(loadedResources, totalResources))
      ensures onLoading ==> old(targetProgress) <= targetProgress <= 95
      ensures !onLoading ==> targetProgress == 100
    {
      var realProgress := if totalResources > 0 then (loadedResources * 100) / totalResources else 0;
      if !onLoading {
        targetProgress := 100;
      } else {
        var m := if targetProgress >= realProgress then targetProgress else realProgress;
        targetProgress := if m <= 95 then m else 95;
      }
    }

    /** One animation frame: ease toward the target and, when below it, write the
        floor of the eased value to the displayed progress (unconditionally, so this
        can lower it); then request the next frame. */
    method AnimationFrame()
      requires Valid() && frameRequested
      modifies this`animationProgress, this`progress
      ensures Valid()
      ensures animationProgress == EaseStep(old(animationProgress), targetProgress as real)
      ensures progress == if old(animationProgress) < targetProgress as real
                          then animationProgress.Floor else old(progress)
    {
      var target := targetProgress as real;
      if animationProgress < target {
        animationProgress := animationProgress + (target - animationProgress) * 0.1;
        if target - animationProgress < 0.5 {
          animationProgress := target;
        }
        progress := animationProgress.Floor;
      }
    }

    /** The 5000ms safety timer: force the displayed progress to 100 unless the latch
        is already set. */
    method FireMaxWaitTimer()
      requires Valid() && maxWaitDue.Some? && maxWaitDue.value <= now
      modifies this`progress, this`maxWaitDue
      ensures Valid()
      ensures progress == if old(hasCompleted) then old(progress) else 100
      ensures maxWaitDue.None?
    {
      maxWaitDue := None;
      if !hasCompleted {
        progress := 100;
      }
    }

    /** The pending exit timer is `t` and it is due. */
    predicate ExitDue(t: Timer)
      reads this`exitPending, this`now
    {
      exitPending.Some? && exitPending.value.timer == t && exitPending.value.due <= now
    }

    /** The exit sequence's first timer: phase `complete`, and the 150ms timer. */
    method FireCompleteTimer()
      requires Valid() && ExitDue(CompleteTimer)
      modifies this`phase, this`exitPending, this`exitTimes
      ensures Valid()
      ensures phase == Complete
      ensures exitPending == Some(PendingTimer(SweepTimer, now + Delay(SweepTimer)))
      ensures exitTimes == [now]
    {
      phase := Complete;
      exitPending := Some(PendingTimer(SweepTimer, now + Delay(SweepTimer)));
      exitTimes := exitTimes + [now];
    }

    /** The 150ms timer: phase `sweeping` (ignored once unmounted), and the 500ms timer. */
    method FireSweepTimer()
      requires Valid() && ExitDue(SweepTimer)
      modifies this`phase, this`exitPending, this`exitTimes
      ensures Valid()
      ensures phase == if mounted then Sweeping else old(phase)
      ensures exitPending == Some(PendingTimer(FadeTimer, now + Delay(FadeTimer)))
      ensures |exitTimes| == 2 && exitTimes == old(exitTimes) + [now]
    {
      if mounted {
        phase := Sweeping;
      }
      exitPending := Some(PendingTimer(FadeTimer, now + Delay(FadeTimer)));
      exitTimes := exitTimes + [now];
    }

    /** The 500ms timer: phase `fadeout` (ignored once unmounted), and the 400ms timer. */
    method FireFadeTimer()
      requires Valid() && ExitDue(FadeTimer)
      modifies this`phase, this`exitPending, this`exitTimes
      ensures Valid()
      ensures phase == if mounted then Fadeout else old(phase)
      ensures exitPending == Some(PendingTimer(HideTimer, now + Delay(HideTimer)))
      ensures |exitTimes| == 3 && exitTimes == old(exitTimes) + [now]
    {
      if mounted {
        phase := Fadeout;
      }
      exitPending := Some(PendingTimer(HideTimer, now + Delay(HideTimer)));
      exitTimes := exitTimes + [now];
    }

    /** The 400ms timer: the cover becomes invisible (ignored once unmounted). */
    method FireHideTimer()
      requires Valid() && ExitDue(HideTimer)
      modifies this`isVisible, this`exitPending, this`exitTimes
      ensures Valid()
      ensures isVisible == (old(isVisible) && !mounted)
      ensures exitPending.None?
      ensures |exitTimes| == 4 && exitTimes == old(exitTimes) + [now]
    {
      if mounted {
        isVisible := false;
      }
      exitPending := None;
      exitTimes := exitTimes + [now];
    }

    /** Unmount: both cleanups run. The exit sequence's nested timers are not cleared
        and stay pending. */
    method Unmount()
      requires Valid() && mounted
      modifies this`mounted, this`initDue, this`maxWaitDue, this`exitPending, this`intervalActive,
               this`frameRequested, this`observing
      ensures Valid() && !mounted
      ensures initDue.None? && maxWaitDue.None? && exitPending == WithoutComplete(old(exitPending))
      ensures !intervalActive && !frameRequested && !observing
    {
      initDue, maxWaitDue := None, None;
      intervalActive, frameRequested, observing := false, false, false;
      exitPending := WithoutComplete(exitPending);
      mounted := false;
      assert ValidExit();
    }
  }

  // ---------------------------------------------------------------------------
  // Event sequences

  /** One image of two is already complete: the displayed progress starts at 50, and
      the first animation frame writes the eased value 5 over it. */
  method ProgressCanDrop() returns (before: int, after: int)
    ensures before == 50 && after == 5
  {
    var snap := Snapshot([true, false], 0, 0, true);
    assert CompleteCount(snap.images) == 1 by {
      assert snap.images[..1] == [true];
    }
    var c := new Cover(true, snap);
    before := c.progress;
    c.IntervalTick();
    c.AnimationFrame();
    after := c.progress;
  }

  /** A page with no discovered resources counts as one; two resource-timing entries
      then push the displayed progress to 200. */
  method ProgressCanExceedHundred() returns (p: int)
    ensures p == 200
  {
    var c := new Cover(true, Snapshot([], 0, 0, true));
    c.ObserverCallback(2);
    p := c.progress;
  }

  /** One image of two is complete: the commit of 50 does nothing, and the interval
      raises the target to 50. */
  method HalfLoaded() returns (c: Cover, snap: Snapshot)
    ensures fresh(c) && c.Valid() && c.ShareTracked() && c.mounted && c.onLoading
    ensures !c.hasCompleted && c.frameRequested && c.now == 0
    ensures c.maxWaitDue == Some(Delay(MaxWaitTimer))
    ensures c.progress == 50 && c.committedProgress == 50
    ensures c.animationProgress == 0.0 && c.targetProgress == 50
  {
    snap := Snapshot([true, false], 0, 0, true);
    assert CompleteCount(snap.images) == 1 by {
      assert snap.images[..1] == [true];
    }
    c := new Cover(true, snap);
    c.Commit(true, snap);
    c.IntervalTick();
  }

  /** The safety timer forces 100 and the commit of that value sets the latch and
      schedules the exit sequence, while the interval has already raised the target
      to 50. */
  method CompletionLatched() returns (c: Cover, snap: Snapshot)
    ensures fresh(c) && c.Valid() && c.ShareTracked() && c.mounted && c.onLoading
    ensures c.hasCompleted && c.exitTimes == [] && c.frameRequested
    ensures c.progress == 100 && c.committedProgress == 100
    ensures c.animationProgress == 0.0 && c.targetProgress == 50
  {
    c, snap := HalfLoaded();
    c.Advance(Delay(MaxWaitTimer));
    c.FireMaxWaitTimer();
    c.Commit(true, snap);
  }

  /** An animation frame then writes 5, and the commit of that value clears the pending
      timer without rescheduling it: the cover stays visible for good. */
  method CompletionCanBeLost() returns (c: Cover)
    ensures c.Valid() && c.CompletionLost() && c.isVisible
  {
    var snap;
    c, snap := CompletionLatched();
    c.AnimationFrame();
    c.Commit(true, snap);
  }

  /** A page whose one image is complete: the commit of 100 sets the latch and schedules
      the exit sequence. */
  method ExitSequenceStarts() returns (c: Cover)
    ensures fresh(c) && c.Valid() && c.mounted && c.hasCompleted && c.now == 0 && c.exitTimes == []
    ensures c.exitPending == Some(PendingTimer(CompleteTimer, Delay(CompleteTimer)))
    ensures c.intervalActive && c.frameRequested
  {
    var snap := Snapshot([true], 0, 0, true);
    assert CompleteCount(snap.images) == 1 by {
      assert snap.images[..0] == [];
    }
    c := new Cover(false, snap);
    c.Commit(false, snap);
  }

  /** A page whose one image is complete while the global flag still says loading:
      the first commit sets the latch at once. */
  method LatchedAtMount() returns (c: Cover, snap: Snapshot)
    ensures fresh(c) && c.Valid() && c.ShareTracked() && c.mounted && c.onLoading
    ensures c.hasCompleted && c.now == 0 && c.exitTimes == [] && c.phase == Init
    ensures c.initDue == Some(Delay(InitTimer))
    ensures c.exitPending == Some(PendingTimer(CompleteTimer, Delay(CompleteTimer)))
  {
    snap := Snapshot([true], 0, 0, true);
    assert CompleteCount(snap.images) == 1 by {
      assert snap.images[..0] == [];
    }
    c := new Cover(true, snap);
    c.Commit(true, snap);
  }

  /** The phase is not strictly forward: the flag clearing after the first exit step
      re-runs the resource effect, whose new init timer puts the phase back to
      `loading` between `complete` and `sweeping`. */
  method PhaseCanGoBack() returns (first: Phase, second: Phase, third: Phase)
    ensures first == Loading && second == Complete && third == Loading
  {
    var c, snap := LatchedAtMount();
    c.Advance(Delay(InitTimer));
    c.FireInitTimer();
    first := c.phase;
    c.FireCompleteTimer();
    second := c.phase;
    c.Advance(20);
    c.Commit(false, snap);
    c.Advance(Delay(InitTimer));
    c.FireInitTimer();
    third := c.phase;
  }

  /** The first two timers: phase `sweeping`, and the 500ms timer pending. */
  method ExitSequenceHalfway() returns (c: Cover)
    ensures fresh(c) && c.Valid() && c.mounted && c.now == 250 && c.exitTimes == [100, 250]
    ensures c.exitPending == Some(PendingTimer(FadeTimer, 750))
    ensures c.intervalActive && c.frameRequested
  {
    c := ExitSequenceStarts();
    c.Advance(Delay(CompleteTimer));
    c.FireCompleteTimer();
    c.Advance(Delay(SweepTimer));
    c.FireSweepTimer();
  }

  /** The four chained timers take the cover through `complete`, `sweeping` and
      `fadeout` to invisible, after which it renders nothing. */
  method ExitSequenceRuns() returns (c: Cover)
    ensures c.Valid() && !c.isVisible && c.phase == Fadeout
    ensures Render(c.isVisible, c.progress, c.phase, DefaultLabels).None?
    ensures c.exitTimes == [100, 250, 750, 1150]
    ensures c.mounted && c.intervalActive && c.frameRequested
  {
    c := ExitSequenceHalfway();
    c.Advance(Delay(FadeTimer));
    c.FireFadeTimer();
    c.Advance(Delay(HideTimer));
    c.FireHideTimer();
  }
}
