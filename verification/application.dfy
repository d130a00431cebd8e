/**
 * The application shell: a list of registered frames, started in order,
 * then driven once per animation frame. Every tick advances an FPS clock;
 * once a second's worth of time has accumulated every frame is told how
 * many ticks that took, and then every frame is updated.
 *
 * Frames are identified by `FrameId`s and the callbacks they receive are
 * recorded in order, as `FrameEvent`s; the browser's animation-frame
 * scheduling is the caller of `Tick`.
 */
module Application {
  import opened Wrappers

  type FrameId = nat

  datatype Callback = OnStart | OnFpsUpdate(fps: nat) | OnUpdate

  datatype FrameEvent = FrameEvent(frame: FrameId, callback: Callback)

  /** One callback delivered to every frame, in registration order. */
  function Broadcast(frames: seq<FrameId>, cb: Callback): (events: seq<FrameEvent>)
    ensures |events| == |frames|
    ensures forall i :: 0 <= i < |frames| ==> events[i] == FrameEvent(frames[i], cb)
  {
    if frames == [] then [] else Broadcast(frames[..|frames| - 1], cb) + [FrameEvent(frames[|frames| - 1], cb)]
  }

  // ---------------------------------------------------------------------
  // The FPS clock

  /** One second, in the millisecond units of animation-frame timestamps. */
  const ReportInterval: real := 1000.0

  /** `frameCount`, `last` and `elapsed` of the frame callback's closure. */
  datatype Clock = Clock(frameCount: nat, last: real, elapsed: real)

  const StartClock: Clock := Clock(0, 0.0, 0.0)

  /** The clock after one tick at `time`, and the FPS value reported on it, if any. */
  datatype TickResult = TickResult(clock: Clock, report: Option<nat>)

  function TickStep(c: Clock, time: real): TickResult {
    var elapsed := c.elapsed + (time - c.last);
    var count := c.frameCount + 1;
    if elapsed >= ReportInterval then TickResult(Clock(0, time, elapsed - ReportInterval), Some(count))
    else TickResult(Clock(count, time, elapsed), None)
  }

  /** The callbacks one tick delivers: the FPS report to every frame when due, then the update to every frame. */
  function TickEvents(frames: seq<FrameId>, report: Option<nat>): seq<FrameEvent> {
    (if report.Some? then Broadcast(frames, OnFpsUpdate(report.value)) else []) + Broadcast(frames, OnUpdate)
  }

  /**
   * With timestamps that never go back, the accumulated time never goes
   * negative; a report takes exactly one interval off it and restarts the
   * count.
   */
  lemma TickKeepsElapsedNonNegative(c: Clock, time: real)
    requires c.elapsed >= 0.0 && time >= c.last
    ensures var r := TickStep(c, time);
      && r.clock.elapsed >= 0.0 && r.clock.last == time
      && (r.report.Some? <==> c.elapsed + (time - c.last) >= ReportInterval)
      && (r.report.Some? ==> r.clock.elapsed == c.elapsed + (time - c.last) - ReportInterval && r.clock.frameCount == 0)
  {
  }

  /** The clock after ticks at `times`, in order. */
  function ClockAfter(c: Clock, times: seq<real>): Clock {
    if times == [] then c else TickStep(ClockAfter(c, times[..|times| - 1]), times[|times| - 1]).clock
  }

  /** What each of the ticks at `times` reported. */
  function Reports(c: Clock, times: seq<real>): (rs: seq<Option<nat>>)
    ensures |rs| == |times|
  {
    if times == [] then []
    else Reports(c, times[..|times| - 1]) + [TickStep(ClockAfter(c, times[..|times| - 1]), times[|times| - 1]).report]
  }

  /** Ticks since the last report (or since the start). */
  function Quiet(rs: seq<Option<nat>>): nat {
    if rs == [] || rs[|rs| - 1].Some? then 0 else Quiet(rs[..|rs| - 1]) + 1
  }

  /**
   * From the start of `main`, `frameCount` is the number of ticks since the
   * last report, and a report gives the number of ticks since the one
   * before it, itself included.
   */
  lemma {:induction false} FrameCountCountsTicks(times: seq<real>)
    ensures ClockAfter(StartClock, times).frameCount == Quiet(Reports(StartClock, times))
    ensures times != [] && Reports(StartClock, times)[|times| - 1].Some? ==>
      Reports(StartClock, times)[|times| - 1].value == Quiet(Reports(StartClock, times[..|times| - 1])) + 1
  {
    if times != [] {
      var init := times[..|times| - 1];
      FrameCountCountsTicks(init);
      var rs := Reports(StartClock, times);
      assert rs[..|rs| - 1] == Reports(StartClock, init);
    }
  }

  // ---------------------------------------------------------------------
  // The application

  class Application {
    /** `s_AppFrames`. */
    var frames: seq<FrameId>
    /** Every callback delivered so far, in order. */
    var events: seq<FrameEvent>
    var frameCount: nat
    var last: real
    var elapsed: real

    function FpsClock(): Clock
      reads this
    {
      Clock(frameCount, last, elapsed)
    }

    ghost predicate Valid()
      reads this
    {
      elapsed >= 0.0
    }

    constructor ()
      ensures Valid() && frames == [] && events == [] && FpsClock() == StartClock
    {
      frames := [];
      events := [];
      frameCount := 0;
      last := 0.0;
      elapsed := 0.0;
    }

    /** `registerAppFrame`: appended after the frames already registered. */
    method RegisterAppFrame(frame: FrameId)
      modifies this`frames
      ensures frames == old(frames) + [frame]
    {
      frames := frames + [frame];
    }

    /** `main`: starts every frame in order, then sets up the FPS clock the ticks run on. */
    method Start()
      modifies this`events, this`frameCount, this`last, this`elapsed
      ensures Valid()
      ensures events == old(events) + Broadcast(frames, OnStart)
      ensures FpsClock() == StartClock
    {
      Notify(OnStart);
      frameCount := 0;
      last := 0.0;
      elapsed := 0.0;
    }

    /**
     * The frame request callback at timestamp `time`. Animation-frame
     * timestamps never go back, and then the accumulated time stays
     * non-negative.
     */
    method Tick(time: real)
      modifies this`events, this`frameCount, this`last, this`elapsed
      ensures old(Valid()) && time >= old(last) ==> Valid()
      ensures var r := TickStep(old(FpsClock()), time);
        FpsClock() == r.clock && events == old(events) + TickEvents(frames, r.report)
    {
      elapsed := elapsed + (time - last);
      last := time;
      frameCount := frameCount + 1;
      ghost var events0 := events;
      ghost var report: Option<nat> := None;
      if elapsed >= ReportInterval {
        report := Some(frameCount);
        Notify(OnFpsUpdate(frameCount));
        frameCount := 0;
        elapsed := elapsed - ReportInterval;
      }
      Notify(OnUpdate);
      assert events0 + (if report.Some? then Broadcast(frames, OnFpsUpdate(report.value)) else []) + Broadcast(frames, OnUpdate)
        == events0 + TickEvents(frames, report);
    }

    /** A `forEach` over the frames. */
    method Notify(cb: Callback)
      modifies this`events
      ensures events == old(events) + Broadcast(frames, cb)
    {
      var i := 0;
      while i < |frames|
        invariant 0 <= i <= |frames|
        invariant events == old(events) + Broadcast(frames[..i], cb)
      {
        events := events + [FrameEvent(frames[i], cb)];
        assert frames[..i + 1][..i] == frames[..i];
        i := i + 1;
      }
      assert frames[..i] == frames;
    }
  }
}
