/**
 * Value-level model of one camera stream: the capture state a CameraStream
 * owns, the configuration it is built from, and one function per state
 * transition (start, stop, one capture-loop iteration, cleanup).  The class
 * in camera_stream.dfy is proved against these functions; the lemmas at the
 * end of this module are about whole sequences of such transitions.
 *
 * Time is an integer clock in milliseconds, passed in by the caller.
 */
module StreamModel {

  datatype Option<+T> = None | Some(value: T)

  type CameraId = int

  /** An image as captured from the device; only its identity matters here. */
  datatype Frame = Frame(pixels: seq<int>)

  /** What one device read returns: `(ret, frame)` with `ret` true, or a failure. */
  datatype ReadResult = Captured(frame: Frame) | ReadFailed

  /** The argument handed to the capture device: a local device index or a URL. */
  datatype Source = DeviceIndex(index: nat) | Url(url: string)

  /** One camera configuration record; `fps` is None when the record has no fps key. */
  datatype CameraConfig = CameraConfig(id: CameraId, name: string, streamUrl: string, fps: Option<int>)

  /** Frame rate used when the configuration record does not give one. */
  const DefaultFps: int := 30

  function Fps(cfg: CameraConfig): (f: int)
    ensures cfg.fps.None? ==> f == DefaultFps
    ensures cfg.fps.Some? ==> f == cfg.fps.value
  {
    match cfg.fps
    case None => DefaultFps
    case Some(f) => f
  }

  // ---------------------------------------------------------------------
  // Source locator parsing
  // ---------------------------------------------------------------------

  predicate IsDigit(c: char) {
    '0' <= c <= '9'
  }

  /** A non-empty string made only of decimal digits (the empty string is not one). */
  predicate IsDigitString(s: string) {
    |s| > 0 && forall i :: 0 <= i < |s| ==> IsDigit(s[i])
  }

  /** The number a string of decimal digits denotes (leading zeros allowed). */
  function DigitsValue(s: string): nat
    requires forall i :: 0 <= i < |s| ==> IsDigit(s[i])
  {
    if s == [] then 0
    else
      assert IsDigit(s[|s| - 1]);
      DigitsValue(s[..|s| - 1]) * 10 + ((s[|s| - 1] as int) - ('0' as int))
  }

  function DigitChar(d: nat): (c: char)
    requires d < 10
    ensures IsDigit(c) && (c as int) - ('0' as int) == d
  {
    (('0' as int) + d) as char
  }

  /** The decimal text of a natural number, without leading zeros. */
  function DecimalText(n: nat): (s: string)
    ensures IsDigitString(s)
  {
    if n < 10 then [DigitChar(n)] else DecimalText(n / 10) + [DigitChar(n % 10)]
  }

  /**
   * The source the capture device is opened on: a stream URL made only of
   * digits is a device index, anything else (the empty string included) is
   * passed on as a URL.
   */
  function ParseSource(streamUrl: string): (src: Source)
    ensures src.DeviceIndex? <==> IsDigitString(streamUrl)
    ensures src.Url? ==> src.url == streamUrl
    ensures src.DeviceIndex? ==> src.index < Pow10(|streamUrl|)
  {
    if IsDigitString(streamUrl) then
      DigitsValueBound(streamUrl);
      DeviceIndex(DigitsValue(streamUrl))
    else Url(streamUrl)
  }

  function Pow10(k: nat): (p: nat)
    ensures p >= 1
  {
    if k == 0 then 1 else 10 * Pow10(k - 1)
  }

  lemma {:induction false} DigitsValueBound(s: string)
    requires forall i :: 0 <= i < |s| ==> IsDigit(s[i])
    ensures DigitsValue(s) < Pow10(|s|)
  {
    if s != [] {
      var init := s[..|s| - 1];
      DigitsValueBound(init);
      assert DigitsValue(s) == DigitsValue(init) * 10 + ((s[|s| - 1] as int) - ('0' as int));
      assert Pow10(|s|) == 10 * Pow10(|init|);
    }
  }

  lemma {:induction false} DecimalTextValue(n: nat)
    ensures DigitsValue(DecimalText(n)) == n
  {
    var s := DecimalText(n);
    if n < 10 {
      assert s[..0] == [];
    } else {
      DecimalTextValue(n / 10);
      assert s[..|s| - 1] == DecimalText(n / 10);
    }
  }

  /** A device index written as its decimal text opens that same device. */
  lemma ParseSourceOfDeviceIndex(n: nat)
    ensures ParseSource(DecimalText(n)) == DeviceIndex(n)
  {
    DecimalTextValue(n);
  }

  // ---------------------------------------------------------------------
  // Rate limiting
  // ---------------------------------------------------------------------

  /**
   * True when less than one frame interval (1/fps seconds) has passed since
   * the last stored frame.  `elapsed` is in milliseconds; the comparison is
   * done without division so that it is exact on integers.
   */
  predicate RateLimited(elapsed: int, fps: int)
    requires fps != 0
  {
    if fps > 0 then elapsed * fps < 1000 else elapsed * fps > 1000
  }

  /** The integer test agrees with `elapsed seconds < 1.0 / fps` over the reals. */
  lemma RateLimitedIsIntervalTest(elapsed: int, fps: int)
    requires fps != 0
    ensures RateLimited(elapsed, fps) <==> (elapsed as real) / 1000.0 < 1.0 / (fps as real)
  {
  }

  // ---------------------------------------------------------------------
  // Capture state and its transitions
  // ---------------------------------------------------------------------

  /**
   * The per-camera state: running flag, shutdown signal, the open device (if
   * any), the single-slot latest frame, its timestamp, the frames-captured
   * counter, the start time and the time of the last stored frame.
   */
  datatype StreamState = StreamState(
    running: bool,
    shutdown: bool,
    cap: Option<Source>,
    latestFrame: Option<Frame>,
    frameTimestamp: int,
    framesCaptured: nat,
    startTime: Option<int>,
    lastFrameTime: int)

  /** The state of a freshly constructed stream. */
  function InitialState(): (s: StreamState)
    ensures !s.running && s.cap.None? && s.latestFrame.None? && s.framesCaptured == 0
  {
    StreamState(false, false, None, None, 0, 0, None, 0)
  }

  /**
   * What holds in every reachable state of a stream for `cfg`: a frame is
   * stored exactly when at least one was captured, both timestamps record the
   * same capture, and a running stream holds its device, has no pending
   * shutdown, has a usable frame rate and a start time.
   */
  ghost predicate Consistent(cfg: CameraConfig, s: StreamState) {
    && (s.latestFrame.None? <==> s.framesCaptured == 0)
    && (s.framesCaptured == 0 ==> s.lastFrameTime == 0)
    && s.frameTimestamp == s.lastFrameTime
    && (s.running ==>
          s.cap.Some? && !s.shutdown
          && Fps(cfg) != 0 && s.startTime.Some?)
  }

  /** `_cleanup`: the worker leaves the stream not running and releases the device. */
  function CleanupStep(s: StreamState): (r: StreamState)
    ensures !r.running && r.cap.None?
    ensures r.latestFrame == s.latestFrame && r.framesCaptured == s.framesCaptured
    ensures r.lastFrameTime == s.lastFrameTime && r.frameTimestamp == s.frameTimestamp
    ensures r.shutdown == s.shutdown && r.startTime == s.startTime
  {
    s.(running := false, cap := None)
  }

  /**
   * `start`, together with the worker's set-up phase up to its first loop
   * check.  `opens` is the device's answer to "is it open?", `now` the clock
   * when the worker records its start time.  Returns the reported success
   * and the new state.
   */
  function StartStep(s: StreamState, cfg: CameraConfig, opens: bool, now: int): (r: (bool, StreamState))
    ensures s.running ==> r == (false, s)
    ensures !s.running ==> r.0 == r.1.running
    ensures !s.running ==> (r.0 <==> opens && Fps(cfg) != 0)
    ensures !s.running ==> !r.1.shutdown
    ensures !s.running && !r.0 ==> r.1.cap.None?
    ensures !s.running && r.0 ==> r.1.cap == Some(ParseSource(cfg.streamUrl))
    ensures !s.running && opens ==> r.1.startTime == Some(now)
    ensures !opens ==> r.1.startTime == s.startTime
    ensures r.1.latestFrame == s.latestFrame && r.1.framesCaptured == s.framesCaptured
    ensures r.1.lastFrameTime == s.lastFrameTime && r.1.frameTimestamp == s.frameTimestamp
    ensures Consistent(cfg, s) ==> Consistent(cfg, r.1)
  {
    if s.running then (false, s)
    else
      var cleared := s.(shutdown := false);
      if !opens then
        (false, CleanupStep(cleared))
      else
        var launched := cleared.(running := true, cap := Some(ParseSource(cfg.streamUrl)), startTime := Some(now));
        if Fps(cfg) == 0 then
          // computing the frame interval fails; the worker cleans up
          (false, CleanupStep(launched))
        else
          (true, launched)
  }

  /**
   * `stop`.  `joined` says whether the worker finished (and ran its cleanup)
   * within the join timeout.  Returns the reported success and the new state.
   */
  function StopStep(s: StreamState, joined: bool): (r: (bool, StreamState))
    ensures !s.running ==> r == (false, s)
    ensures s.running ==> r.0 && r.1.shutdown
    ensures !r.1.running
    ensures s.running && joined ==> r.1.cap.None?
    ensures s.running && !joined ==> r.1.cap == s.cap
    ensures r.1.latestFrame == s.latestFrame && r.1.framesCaptured == s.framesCaptured
    ensures r.1.lastFrameTime == s.lastFrameTime && r.1.frameTimestamp == s.frameTimestamp
    ensures r.1.startTime == s.startTime
  {
    if !s.running then (false, s)
    else
      var signalled := s.(shutdown := true);
      var afterJoin := if joined then CleanupStep(signalled) else signalled;
      (true, afterJoin.(running := false))
  }

  /** A second start right after a successful one is refused and changes nothing. */
  lemma StartTwiceRefused(s: StreamState, cfg: CameraConfig, opens: bool, now: int, opens2: bool, now2: int)
    requires StartStep(s, cfg, opens, now).0
    ensures StartStep(StartStep(s, cfg, opens, now).1, cfg, opens2, now2) == (false, StartStep(s, cfg, opens, now).1)
  {
  }

  /** A second stop is refused and changes nothing, whether or not the first join finished. */
  lemma StopTwiceRefused(s: StreamState, joined: bool, joined2: bool)
    ensures StopStep(StopStep(s, joined).1, joined2) == (false, StopStep(s, joined).1)
  {
  }

  /** One loop iteration stores a frame: it is not rate-limited and the read succeeded. */
  predicate Captures(s: StreamState, fps: int, now: int, read: ReadResult)
    requires fps != 0
  {
    !RateLimited(now - s.lastFrameTime, fps) && read.Captured?
  }

  /**
   * One iteration of the capture loop at clock `now`, with `read` the result
   * the device would give.  A rate-limited or failed iteration changes
   * nothing; a successful one replaces the frame, records the time and
   * counts the frame.
   */
  function CaptureStep(s: StreamState, fps: int, now: int, read: ReadResult): (r: StreamState)
    requires fps != 0
    ensures !Captures(s, fps, now, read) ==> r == s
    ensures Captures(s, fps, now, read) ==>
              && r.latestFrame == Some(read.frame)
              && r.framesCaptured == s.framesCaptured + 1
              && r.lastFrameTime == now && r.frameTimestamp == now
    ensures r.running == s.running && r.shutdown == s.shutdown && r.cap == s.cap && r.startTime == s.startTime
  {
    if RateLimited(now - s.lastFrameTime, fps) then s
    else match read
      case ReadFailed => s
      case Captured(frame) =>
        s.(latestFrame := Some(frame), frameTimestamp := now,
           framesCaptured := s.framesCaptured + 1, lastFrameTime := now)
  }

  /**
   * The status record reported for one stream (without the measured frame
   * rate, a floating-point quotient).  `uptime` and `lastFrameAge` are in
   * clock units; `lastFrameAge` is None until a frame has been stored.
   */
  datatype StreamInfo = StreamInfo(
    cameraId: CameraId,
    cameraName: string,
    isRunning: bool,
    framesCaptured: nat,
    uptime: int,
    configuredFps: int,
    lastFrameAge: Option<int>)

  // ---------------------------------------------------------------------
  // Whole histories of one stream
  // ---------------------------------------------------------------------

  /** Everything that can happen to one stream, in the order it happens. */
  datatype StreamEvent =
    | StartCall(opens: bool, startedAt: int)
    | StopCall(joined: bool)
    | LoopIteration(now: int, read: ReadResult)
    | WorkerExit

  /**
   * The effect of one event.  A loop iteration runs while the worker's loop
   * is live (running, no shutdown signalled).  A worker that outlived a
   * timed-out join (shutdown signalled, device still held) finishes the pass
   * it was in, which may still store a frame, then sees the signal and
   * cleans up; it may also exit straight away.
   */
  function Apply(cfg: CameraConfig, s: StreamState, e: StreamEvent): (r: StreamState)
    requires Consistent(cfg, s)
    ensures Consistent(cfg, r)
  {
    match e
    case StartCall(opens, now) => StartStep(s, cfg, opens, now).1
    case StopCall(joined) => StopStep(s, joined).1
    case LoopIteration(now, read) =>
      if s.running && !s.shutdown then CaptureStep(s, Fps(cfg), now, read)
      else if s.shutdown && s.cap.Some? && Fps(cfg) != 0 then CleanupStep(CaptureStep(s, Fps(cfg), now, read))
      else s
    case WorkerExit => if s.shutdown then CleanupStep(s) else s
  }

  function Replay(cfg: CameraConfig, s: StreamState, events: seq<StreamEvent>): (r: StreamState)
    requires Consistent(cfg, s)
    ensures Consistent(cfg, r)
    decreases |events|
  {
    if events == [] then s else Replay(cfg, Apply(cfg, s, events[0]), events[1..])
  }

  /**
   * After a stop whose join timed out, the worker still alive may store one
   * more frame (counted once) in the pass it was in; then it releases the
   * device, and no later loop pass changes anything.
   */
  lemma LeakedWorkerLastPass(cfg: CameraConfig, s: StreamState, now: int, read: ReadResult, now2: int, read2: ReadResult)
    requires Consistent(cfg, s) && s.running
    ensures var stopped := StopStep(s, false).1;
            var t := Apply(cfg, stopped, LoopIteration(now, read));
            && (Captures(stopped, Fps(cfg), now, read) ==>
                  t.latestFrame == Some(read.frame) && t.framesCaptured == s.framesCaptured + 1)
            && (!Captures(stopped, Fps(cfg), now, read) ==> t.framesCaptured == s.framesCaptured)
            && !t.running && t.cap.None?
            && Apply(cfg, t, LoopIteration(now2, read2)) == t
  {
  }

  /** What the worker loop sees on one pass: the clock and the device's answer. */
  datatype Tick = Tick(now: int, read: ReadResult)

  /** The history made of one loop iteration per tick, in order. */
  function LoopEvents(ticks: seq<Tick>): (events: seq<StreamEvent>)
    ensures |events| == |ticks|
    ensures forall i :: 0 <= i < |ticks| ==> events[i] == LoopIteration(ticks[i].now, ticks[i].read)
  {
    if ticks == [] then [] else [LoopIteration(ticks[0].now, ticks[0].read)] + LoopEvents(ticks[1..])
  }

  /** Replaying one more event is applying it to the state replayed so far. */
  lemma {:induction false} ReplayAppend(cfg: CameraConfig, s: StreamState, events: seq<StreamEvent>, e: StreamEvent)
    requires Consistent(cfg, s)
    ensures Replay(cfg, s, events + [e]) == Apply(cfg, Replay(cfg, s, events), e)
    decreases |events|
  {
    if events != [] {
      assert (events + [e])[1..] == events[1..] + [e];
      ReplayAppend(cfg, Apply(cfg, s, events[0]), events[1..], e);
    }
  }

  /** How many loop iterations a history holds. */
  function Iterations(events: seq<StreamEvent>): nat {
    if events == [] then 0
    else (if events[0].LoopIteration? then 1 else 0) + Iterations(events[1..])
  }

  /** Every frame some loop iteration of the history read successfully. */
  function FramesRead(events: seq<StreamEvent>): set<Frame> {
    if events == [] then {}
    else
      (if events[0].LoopIteration? && events[0].read.Captured? then {events[0].read.frame} else {})
      + FramesRead(events[1..])
  }

  /**
   * Over any history the frames-captured counter never decreases, and it
   * grows by at most one per loop iteration.
   */
  lemma {:induction false} ReplayCounterMonotone(cfg: CameraConfig, s: StreamState, events: seq<StreamEvent>)
    requires Consistent(cfg, s)
    ensures s.framesCaptured <= Replay(cfg, s, events).framesCaptured <= s.framesCaptured + Iterations(events)
    decreases |events|
  {
    if events != [] {
      var next := Apply(cfg, s, events[0]);
      ReplayCounterMonotone(cfg, next, events[1..]);
      assert next.framesCaptured <= s.framesCaptured + (if events[0].LoopIteration? then 1 else 0);
    }
  }

  /**
   * Over any history a stored frame is never taken away (stopping and
   * cleaning up keep it), and the frame held at the end is either the one
   * held at the start or one that a loop iteration read whole.
   */
  lemma {:induction false} ReplayKeepsFrame(cfg: CameraConfig, s: StreamState, events: seq<StreamEvent>)
    requires Consistent(cfg, s)
    ensures s.latestFrame.Some? ==> Replay(cfg, s, events).latestFrame.Some?
    ensures Replay(cfg, s, events).latestFrame == s.latestFrame
            || Replay(cfg, s, events).latestFrame.value in FramesRead(events)
    decreases |events|
  {
    if events != [] {
      var next := Apply(cfg, s, events[0]);
      ReplayKeepsFrame(cfg, next, events[1..]);
      assert FramesRead(events) == FramesRead([events[0]]) + FramesRead(events[1..]) by {
        assert [events[0]][1..] == [];
      }
    }
  }

  /**
   * A stream that has never captured a frame reports no frame, and one that
   * was never started captures nothing: from a stopped state with no device
   * and no frame (the initial state among them), a history without a start
   * leaves the counter at zero.
   */
  lemma {:induction false} NoStartNoFrames(cfg: CameraConfig, s: StreamState, events: seq<StreamEvent>)
    requires Consistent(cfg, s) && !s.running && s.cap.None? && s.framesCaptured == 0
    requires forall i :: 0 <= i < |events| ==> !events[i].StartCall?
    ensures Replay(cfg, s, events).framesCaptured == 0
    ensures Replay(cfg, s, events).latestFrame.None?
    decreases |events|
  {
    if events != [] {
      var next := Apply(cfg, s, events[0]);
      assert !next.running && next.cap.None? && next.framesCaptured == 0;
      NoStartNoFrames(cfg, next, events[1..]);
    }
  }
}
