/**
 * One camera stream as an object whose fields the start/stop calls and the
 * capture worker update in place.  Each method is proved against the
 * matching transition function of StreamModel; the worker thread's set-up
 * phase is folded into Start, and each pass of its capture loop is one call
 * of CaptureIteration.
 */
module CameraStreams {
  import opened StreamModel

  class CameraStream {
    const config: CameraConfig

    var isRunning: bool
    var shutdownRequested: bool   // the shutdown signal the worker loop polls
    var cap: Option<Source>       // the open capture device, if any
    var latestFrame: Option<Frame>
    var frameTimestamp: int
    var framesCaptured: nat
    var startTime: Option<int>
    var lastFrameTime: int

    /** The fields, as one value. */
    ghost function State(): StreamState
      reads this
    {
      StreamState(isRunning, shutdownRequested, cap, latestFrame, frameTimestamp,
                  framesCaptured, startTime, lastFrameTime)
    }

    ghost predicate Valid()
      reads this
    {
      Consistent(config, State())
    }

    constructor (cfg: CameraConfig)
      ensures config == cfg
      ensures State() == InitialState() && Valid()
    {
      config := cfg;
      isRunning, shutdownRequested, cap := false, false, None;
      latestFrame, frameTimestamp := None, 0;
      framesCaptured, startTime, lastFrameTime := 0, None, 0;
    }

    /**
     * Start the stream: refused when already running; otherwise clear the
     * shutdown signal, let the worker open the device (`opens`), and report
     * whether the stream is now running.
     */
    method Start(opens: bool, now: int) returns (ok: bool)
      requires Valid()
      modifies this
      ensures Valid()
      ensures (ok, State()) == StartStep(old(State()), config, opens, now)
    {
      if isRunning {
        return false;
      }
      shutdownRequested := false;
      // worker: open the device on the parsed source
      cap := Some(ParseSource(config.streamUrl));
      if !opens {
        Cleanup();
        return isRunning;
      }
      isRunning := true;
      startTime := Some(now);
      if Fps(config) == 0 {
        // the frame interval 1/fps cannot be computed: the worker cleans up
        Cleanup();
        return isRunning;
      }
      ok := isRunning;
    }

    /**
     * Stop the stream: refused when not running; otherwise signal shutdown,
     * wait for the worker (`joined`: it finished within the timeout) and
     * report success either way.
     */
    method Stop(joined: bool) returns (ok: bool)
      requires Valid()
      modifies this
      ensures Valid()
      ensures (ok, State()) == StopStep(old(State()), joined)
    {
      if !isRunning {
        return false;
      }
      shutdownRequested := true;
      if joined {
        Cleanup();
      }
      isRunning := false;
      ok := true;
    }

    /** The worker's final clean-up: not running, device released, frame kept. */
    method Cleanup()
      modifies this
      ensures State() == CleanupStep(old(State()))
    {
      isRunning := false;
      if cap.Some? {
        cap := None;
      }
    }

    /**
     * One pass of the capture loop at clock `now`, with `read` what the
     * device returns.  Only a live worker loop runs it.
     */
    method CaptureIteration(now: int, read: ReadResult)
      requires Valid() && isRunning && !shutdownRequested
      modifies this
      ensures Valid()
      ensures State() == CaptureStep(old(State()), Fps(config), now, read)
    {
      if RateLimited(now - lastFrameTime, Fps(config)) {
        return;
      }
      match read
      case ReadFailed =>
        return;
      case Captured(frame) =>
        latestFrame := Some(frame);
        frameTimestamp := now;
        framesCaptured := framesCaptured + 1;
        lastFrameTime := now;
    }

    /**
     * The worker's capture loop, one pass per tick, for as long as no
     * shutdown is signalled (no other call runs meanwhile, so none is).
     */
    method RunCaptureLoop(ticks: seq<Tick>)
      requires Valid() && isRunning && !shutdownRequested
      modifies this
      ensures Valid() && isRunning && !shutdownRequested
      ensures State() == Replay(config, old(State()), LoopEvents(ticks))
    {
      var i := 0;
      while i < |ticks| && !shutdownRequested
        invariant 0 <= i <= |ticks|
        invariant Valid() && isRunning && !shutdownRequested
        invariant State() == Replay(config, old(State()), LoopEvents(ticks[..i]))
      {
        CaptureIteration(ticks[i].now, ticks[i].read);
        assert LoopEvents(ticks[..i + 1]) == LoopEvents(ticks[..i]) + [LoopIteration(ticks[i].now, ticks[i].read)];
        ReplayAppend(config, old(State()), LoopEvents(ticks[..i]), LoopIteration(ticks[i].now, ticks[i].read));
        i := i + 1;
      }
      assert ticks[..i] == ticks;
    }

    /** A copy of the most recently stored frame; None until the first one is stored. */
    function GetLatestFrame(): (f: Option<Frame>)
      reads this
      ensures Valid() ==> (f.None? <==> framesCaptured == 0)
      ensures f.Some? ==> f == latestFrame
    {
      latestFrame
    }

    /** The status record at clock `now`. */
    function GetStreamInfo(now: int): (info: StreamInfo)
      reads this
      ensures info.cameraId == config.id && info.cameraName == config.name
      ensures info.isRunning == isRunning && info.framesCaptured == framesCaptured
      ensures info.configuredFps == Fps(config)
      ensures startTime.None? ==> info.uptime == 0
      ensures Valid() && framesCaptured == 0 ==> info.lastFrameAge.None?
      ensures info.lastFrameAge.Some? ==> info.lastFrameAge.value == now - lastFrameTime
    {
      var uptime := if startTime.Some? && startTime.value != 0 then now - startTime.value else 0;
      var age := if lastFrameTime > 0 then Some(now - lastFrameTime) else None;
      StreamInfo(config.id, config.name, isRunning, framesCaptured, uptime, Fps(config), age)
    }
  }
}
