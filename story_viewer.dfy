/** Full-screen story playback (components/StoryViewer.tsx). Each story plays for 5000 ms; an animation-frame loop
    turns elapsed time into a progress percentage, holding the screen pauses, and taps step back and forth. The
    parent's callbacks (`onStorySeen`, `onClose`, router navigation) are recorded as call logs. React effects run
    at the end of the handler whose state change triggers them. */
module StoryViewer {
  import opened Options
  import opened Database

  const StoryDuration: real := 5000.0

  /** `Math.min((elapsed / STORY_DURATION) * 100, 100)` */
  function ProgressOf(elapsed: real): (p: real)
    ensures p <= 100.0
    ensures elapsed >= 0.0 ==> p >= 0.0
    ensures p < 100.0 <==> elapsed < StoryDuration
  {
    var raw := elapsed / StoryDuration * 100.0;
    if raw < 100.0 then raw else 100.0
  }

  /** The time a progress percentage stands for: what pausing saves. */
  function OffsetOf(progress: real): real {
    progress / 100.0 * StoryDuration
  }

  /** Saving the offset at a pause and computing progress from it after the resume gives back the same
      progress: a held story continues where it was. */
  lemma PauseRoundTrip(progress: real)
    requires 0.0 <= progress <= 100.0
    ensures 0.0 <= OffsetOf(progress) <= StoryDuration
    ensures ProgressOf(OffsetOf(progress)) == progress
  {
  }

  /** Held after 1200 ms of playback, a story resumes counting from 1200 ms. */
  lemma HoldAt1200Resumes()
    ensures OffsetOf(ProgressOf(1200.0)) == 1200.0
  {
  }

  /** The width, in percent, of the progress segment at position idx. */
  function SegmentWidth(idx: int, current: int, progress: real): real {
    if idx == current then progress else if idx < current then 100.0 else 0.0
  }

  /** Earlier segments are full, later ones empty, the current one shows the progress, and the bar never fills
      further to the right. */
  lemma SegmentsFillLeftToRight(i: int, j: int, current: int, progress: real)
    requires 0.0 <= progress <= 100.0 && i < j
    ensures SegmentWidth(i, current, progress) >= SegmentWidth(j, current, progress)
    ensures i < current ==> SegmentWidth(i, current, progress) == 100.0
    ensures j > current ==> SegmentWidth(j, current, progress) == 0.0
    ensures SegmentWidth(current, current, progress) == progress
  {
  }

  /** `!startTimeRef.current`: null and 0 are both falsy. */
  predicate Unset(start: Option<int>) {
    start.None? || start.value == 0
  }

  class Viewer {
    const stories: seq<Story>
    var currentIndex: int
    var progress: real
    var isPaused: bool
    /** `startTimeRef`: the frame timestamp the running segment of time started at. */
    var startTime: Option<int>
    /** `pausedProgressRef`: milliseconds already played before the running segment. */
    var pausedOffset: real
    /** `requestRef`: an animation frame is scheduled. */
    var frameRequested: bool
    /** The ids passed to `onStorySeen`, in call order. */
    var seenCalls: seq<string>
    /** How often `onClose` was called. */
    var closeCalls: nat
    /** The links passed to `navigate`. */
    var navigations: seq<string>

    ghost predicate Valid()
      reads this
    {
      && 0 <= currentIndex < |stories|
      && 0.0 <= progress <= 100.0
      && 0.0 <= pausedOffset <= StoryDuration
      && (isPaused ==> !frameRequested)
    }

    /** Mounting: the initial story is reported seen and the frame loop starts. */
    constructor(stories: seq<Story>, initialIndex: int)
      requires 0 <= initialIndex < |stories|
      ensures Valid()
      ensures this.stories == stories && currentIndex == initialIndex
      ensures progress == 0.0 && !isPaused && startTime == None && pausedOffset == 0.0
      ensures frameRequested
      ensures seenCalls == [stories[initialIndex].id] && closeCalls == 0 && navigations == []
    {
      this.stories := stories;
      currentIndex := initialIndex;
      progress := 0.0;
      isPaused := false;
      startTime := None;
      pausedOffset := 0.0;
      frameRequested := true;
      seenCalls := [stories[initialIndex].id];
      closeCalls := 0;
      navigations := [];
    }

    /** The effect on `currentIndex`: report the shown story. */
    method SeenEffect()
      requires Valid()
      modifies this`seenCalls
      ensures seenCalls == old(seenCalls) + [stories[currentIndex].id]
    {
      seenCalls := seenCalls + [stories[currentIndex].id];
    }

    /** The effect on `currentIndex` and `isPaused`: cancel the pending frame, then either save the played time
        (paused) or schedule a frame (playing). */
    method PlaybackEffect()
      requires 0.0 <= progress <= 100.0
      modifies this`frameRequested, this`pausedOffset, this`startTime
      ensures isPaused ==> !frameRequested && pausedOffset == OffsetOf(progress) && startTime == None
      ensures !isPaused ==> frameRequested && pausedOffset == old(pausedOffset) && startTime == old(startTime)
      ensures 0.0 <= pausedOffset <= StoryDuration || pausedOffset == old(pausedOffset)
    {
      frameRequested := false;
      if isPaused {
        pausedOffset := OffsetOf(progress);
        startTime := None;
      } else {
        frameRequested := true;
      }
    }

    /** `handleNext`: the next story from the start, or `onClose` after the last one. */
    method Next()
      requires Valid()
      modifies this`currentIndex, this`progress, this`startTime, this`pausedOffset, this`frameRequested,
               this`seenCalls, this`closeCalls
      ensures Valid()
      ensures old(currentIndex) < |stories| - 1 ==>
        && currentIndex == old(currentIndex) + 1
        && progress == 0.0 && startTime == None && pausedOffset == 0.0
        && frameRequested == !isPaused
        && seenCalls == old(seenCalls) + [stories[currentIndex].id]
        && closeCalls == old(closeCalls)
      ensures old(currentIndex) == |stories| - 1 ==>
        && currentIndex == old(currentIndex) && progress == old(progress)
        && startTime == old(startTime) && pausedOffset == old(pausedOffset)
        && frameRequested == old(frameRequested) && seenCalls == old(seenCalls)
        && closeCalls == old(closeCalls) + 1
    {
      if currentIndex < |stories| - 1 {
        currentIndex := currentIndex + 1;
        progress := 0.0;
        startTime := None;
        pausedOffset := 0.0;
        SeenEffect();
        PlaybackEffect();
      } else {
        closeCalls := closeCalls + 1;
      }
    }

    /** `handlePrev`: the previous story from the start; on the first story, that story from the start. */
    method Prev()
      requires Valid()
      modifies this`currentIndex, this`progress, this`startTime, this`pausedOffset, this`frameRequested,
               this`seenCalls
      ensures Valid()
      ensures progress == 0.0 && startTime == None && pausedOffset == 0.0
      ensures old(currentIndex) > 0 ==>
        && currentIndex == old(currentIndex) - 1
        && frameRequested == !isPaused
        && seenCalls == old(seenCalls) + [stories[currentIndex].id]
      ensures old(currentIndex) == 0 ==>
        currentIndex == 0 && frameRequested == old(frameRequested) && seenCalls == old(seenCalls)
    {
      if currentIndex > 0 {
        currentIndex := currentIndex - 1;
        progress := 0.0;
        startTime := None;
        pausedOffset := 0.0;
        SeenEffect();
        PlaybackEffect();
      } else {
        progress := 0.0;
        startTime := None;
        pausedOffset := 0.0;
      }
    }

    /** `animate(timestamp)`, run when the scheduled frame fires: the first frame of a running segment records
        its start; progress is the elapsed time plus the saved offset; a full bar moves on. Without a scheduled
        frame nothing runs. Frame timestamps never go back. */
    method Tick(timestamp: int)
      requires Valid()
      requires startTime.Some? ==> timestamp >= startTime.value
      modifies this`currentIndex, this`progress, this`startTime, this`pausedOffset, this`frameRequested,
               this`seenCalls, this`closeCalls
      ensures Valid()
      ensures !old(frameRequested) ==>
        && currentIndex == old(currentIndex) && progress == old(progress) && startTime == old(startTime)
        && pausedOffset == old(pausedOffset) && !frameRequested
        && seenCalls == old(seenCalls) && closeCalls == old(closeCalls)
      ensures old(frameRequested) ==>
        var start := if Unset(old(startTime)) then timestamp else old(startTime).value;
        var p := ProgressOf((timestamp - start) as real + old(pausedOffset));
        && (p < 100.0 ==>
              && currentIndex == old(currentIndex) && progress == p && startTime == Some(start)
              && pausedOffset == old(pausedOffset) && frameRequested
              && seenCalls == old(seenCalls) && closeCalls == old(closeCalls))
        && (p == 100.0 && old(currentIndex) < |stories| - 1 ==>
              && currentIndex == old(currentIndex) + 1 && progress == 0.0 && startTime == None
              && pausedOffset == 0.0 && frameRequested
              && seenCalls == old(seenCalls) + [stories[currentIndex].id] && closeCalls == old(closeCalls))
        && (p == 100.0 && old(currentIndex) == |stories| - 1 ==>
              && currentIndex == old(currentIndex) && progress == 100.0 && !frameRequested
              && seenCalls == old(seenCalls) && closeCalls == old(closeCalls) + 1)
    {
      if !frameRequested {
        return;
      }
      frameRequested := false;
      if Unset(startTime) {
        startTime := Some(timestamp);
      }
      var elapsed := (timestamp - startTime.value) as real + pausedOffset;
      var newProgress := ProgressOf(elapsed);
      progress := newProgress;
      if newProgress < 100.0 {
        frameRequested := true;
      } else {
        Next();
      }
    }

    /** `handleTouchStart` / mouse down: pause, which saves the played time and cancels the frame. */
    method HoldStart()
      requires Valid()
      modifies this`isPaused, this`frameRequested, this`pausedOffset, this`startTime
      ensures Valid()
      ensures isPaused && !frameRequested
      ensures !old(isPaused) ==> pausedOffset == OffsetOf(progress) && startTime == None
      ensures old(isPaused) ==> pausedOffset == old(pausedOffset) && startTime == old(startTime)
    {
      if !isPaused {
        isPaused := true;
        PlaybackEffect();
      }
    }

    /** `handleTouchEnd` / mouse up: play again from the saved offset; the start time is cleared even when
        nothing was paused. */
    method HoldEnd()
      requires Valid()
      modifies this`isPaused, this`frameRequested, this`pausedOffset, this`startTime
      ensures Valid()
      ensures !isPaused && startTime == None
      ensures old(isPaused) ==> frameRequested
      ensures !old(isPaused) ==> frameRequested == old(frameRequested)
      ensures pausedOffset == old(pausedOffset)
    {
      if isPaused {
        isPaused := false;
        PlaybackEffect();
      }
      startTime := None;
    }

    /** The close button. */
    method Close()
      modifies this`closeCalls
      ensures closeCalls == old(closeCalls) + 1
    {
      closeCalls := closeCalls + 1;
    }

    /** The call-to-action button, present when the story has CTA text: close, then follow the link if any. */
    method CallToAction()
      requires Valid()
      modifies this`closeCalls, this`navigations
      ensures var s := stories[currentIndex];
        if s.ctaText.Some? && s.ctaText.value != [] then
          && closeCalls == old(closeCalls) + 1
          && navigations == old(navigations)
               + (if s.ctaLink.Some? && s.ctaLink.value != [] then [s.ctaLink.value] else [])
        else closeCalls == old(closeCalls) && navigations == old(navigations)
    {
      var s := stories[currentIndex];
      if s.ctaText.Some? && s.ctaText.value != [] {
        closeCalls := closeCalls + 1;
        if s.ctaLink.Some? && s.ctaLink.value != [] {
          navigations := navigations + [s.ctaLink.value];
        }
      }
    }
  }

  /** Holding and releasing the screen, then the next frame at a non-zero timestamp t, shows the progress that
      was on screen when the hold began. */
  method HoldAndRelease(v: Viewer, t: int)
    requires v.Valid() && !v.isPaused && v.progress < 100.0 && t != 0
    modifies v
    ensures v.Valid()
    ensures v.progress == old(v.progress) && v.currentIndex == old(v.currentIndex)
    ensures v.frameRequested && v.startTime == Some(t)
  {
    v.HoldStart();
    v.HoldEnd();
    v.Tick(t);
    PauseRoundTrip(old(v.progress));
  }
}
