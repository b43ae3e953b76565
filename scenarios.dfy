/**
 * Whole runs of the registry from a fresh manager: repeated starts and
 * stops, an unknown id, capture followed by a timed-out stop, and a bulk
 * stop after a partial start, each proved to end in a stated outcome.
 * Device answers and clock readings are fixed per run.
 */
module Scenarios {
  import opened StreamModel
  import opened ConfigLookup
  import opened CameraStreams
  import opened CameraRegistry

  /** Camera 1 on local device 0 at 30 frames per second. */
  function LocalCamera(): CameraConfig {
    CameraConfig(1, "front door", "0", Some(30))
  }

  /** Starting a configured camera twice without a stop in between: true, then false. */
  method StartTwice(configs: seq<CameraConfig>, id: CameraId) returns (first: bool, second: bool)
    requires FirstConfig(configs, id).Some? && Fps(FirstConfig(configs, id).value) != 0
    ensures first && !second
  {
    var m := new CameraManager();
    first := m.StartCamera(id, configs, true, 0);
    second := m.StartCamera(id, configs, true, 10);
  }

  /** Stopping a camera that was never started, registered or not, is refused. */
  method StopNeverStarted(configs: seq<CameraConfig>, id: CameraId) returns (stopped: bool, running: bool)
    ensures !stopped && !running
  {
    var m := new CameraManager();
    var _ := m.InitializeCameras(configs);
    stopped := m.StopCamera(id, true);
    running := m.IsCameraRunning(id);
  }

  /** Starting an id that no configuration names is refused and registers nothing. */
  method StartUnknown(configs: seq<CameraConfig>, id: CameraId) returns (ok: bool, idsBefore: seq<CameraId>, idsAfter: seq<CameraId>)
    requires id !in ConfigIds(configs)
    ensures !ok && idsAfter == idsBefore
  {
    var m := new CameraManager();
    var _ := m.InitializeCameras(configs);
    idsBefore := m.order;
    ok := m.StartCamera(id, configs, true, 0);
    idsAfter := m.order;
  }

  /**
   * Start camera 1, let its worker run over three ticks (the second comes
   * too soon after the first and is skipped by the rate limit), then stop it
   * while its worker does not finish in time: the camera is reported
   * stopped, two frames were counted and the last one is still served.
   */
  method CaptureThenStop(f1: Frame, f2: Frame, f3: Frame)
    returns (started: bool, counted: nat, stopped: bool, running: bool, frame: Option<Frame>)
    ensures started && counted == 2 && stopped && !running && frame == Some(f3)
  {
    var m := new CameraManager();
    var configs := [LocalCamera()];
    started := m.StartCamera(1, configs, true, 0);
    var stream := m.streams[1];
    ghost var atStart := stream.State();
    var ticks := [Tick(1000, Captured(f1)), Tick(1010, Captured(f2)), Tick(1040, Captured(f3))];
    stream.RunCaptureLoop(ticks);
    ghost var events := LoopEvents(ticks);
    assert events == [LoopIteration(1000, Captured(f1)), LoopIteration(1010, Captured(f2)),
                      LoopIteration(1040, Captured(f3))];
    // the first tick is a full second after start, the second only 10 ms after
    // the first (under the 33 ms interval), the third 40 ms after the first
    ghost var cfg := LocalCamera();
    ghost var s1 := Apply(cfg, atStart, events[0]);
    ghost var s2 := Apply(cfg, s1, events[1]);
    ghost var s3 := Apply(cfg, s2, events[2]);
    assert s1.framesCaptured == 1 && s1.lastFrameTime == 1000;
    assert s2 == s1;
    assert s3.framesCaptured == 2 && s3.latestFrame == Some(f3);
    assert Replay(cfg, atStart, events) == Replay(cfg, s1, events[1..]);
    assert Replay(cfg, s1, events[1..]) == Replay(cfg, s2, events[2..]);
    assert Replay(cfg, s2, events[2..]) == s3 by {
      assert events[2..][1..] == [];
    }
    counted := stream.framesCaptured;
    stopped := m.StopCamera(1, false);
    running := m.IsCameraRunning(1);
    frame := m.GetCameraFrame(1);
  }

  /** After stopping everything no camera runs, the never-started ones included. */
  method StopAllAfterPartialStart(configs: seq<CameraConfig>, id: CameraId)
    returns (results: map<CameraId, bool>, running: seq<CameraId>)
    ensures running == []
    ensures results.Keys == ConfigIds(configs)
  {
    var m := new CameraManager();
    var _ := m.InitializeCameras(configs);
    var _ := m.StartCamera(id, configs, true, 0);
    results := m.StopAllCameras(_ => false);
    running := m.GetRunningCameras();
  }
}
