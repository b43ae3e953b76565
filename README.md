# Camera stream lifecycle — a Dafny model

This project models the camera subsystem in `backend/core/camera_manager.py`. It has two parts:

- **`CameraStream`**: one capture worker per camera. It holds a running flag, a shutdown signal, the open capture device, a single-slot latest frame and its timestamp, a frames-captured counter, a start time and the time of the last stored frame.
- **`CameraManager`**: the registry. It maps camera ids to streams. It initialises itself from a list of configuration records and builds a stream lazily when an unknown id is started. It stops cameras one at a time or all together, answers status and frame queries, and refreshes or shuts down the whole set.

Both classes are Dafny classes whose fields are updated in place. Each state-changing method is proved against a transition function on values. The properties the code promises are proved about those functions and about whole histories of transitions.

Files:

- `stream_model.dfy` (`StreamModel`): the value-level model of one stream.
  - Source-locator parsing.
  - The integer rate-limit test.
  - The per-stream state and one function per transition: start, stop, one capture-loop iteration, cleanup.
  - The invariant every reachable state keeps (`Consistent`).
  - Lemmas over whole event histories (`Replay`).
- `config_lookup.dfy` (`ConfigLookup`): how a configuration list is read.
  - The first record carrying an id wins.
  - `NewIds` gives the ids that initialisation adds, in list order.
- `camera_stream.dfy` (`CameraStreams`): the `CameraStream` class.
- `camera_manager.dfy` (`CameraRegistry`): the `CameraManager` class.
  - Python's insertion-ordered dict is modelled as the id sequence `order` beside the map `streams`.
  - Bulk operations visit ids in `order`.
- `scenarios.dfy` (`Scenarios`): complete runs from a fresh manager, each proved to end in the promised outcome.

What the caller supplies:

- **Clock**: an integer clock in milliseconds, passed in.
- **Capture device**: an oracle.
  - `opens` says whether the device opens.
  - Each loop pass receives a `ReadResult`: either a frame or a failure.
  - `joined` says whether the worker finished within the stop timeout.
- **Configuration provider**: a `seq<CameraConfig>` argument. An empty list also stands for a provider that failed; the source turns that failure into `[]` at lines 181-187.

Two behaviours of the code that a reader might not expect, both modelled as the code has them:

- **Timed-out stop.** One might expect the running flag to hold exactly while a worker's loop is open. The code clears it in `stop` even when the join timed out and the worker is still alive (lines 65-68). `StopStep` does the same and keeps the device handle in that case. The surviving worker finishes the pass it was in, which can still store one more frame and count it (lines 133-146), then sees the signal and cleans up; `Apply` models this and `LeakedWorkerLastPass` states it. This leaked-worker condition is flagged here, not resolved.
- **fps of 0.** In the code, the worker fails at `1.0 / self.fps` (line 120) after it has already set `is_running` and `start_time`. Its `finally` then cleans up, so `start` reports `False` and the start time stays recorded. `StartStep` models exactly this.

## Model

| member | source | states |
|---|---|---|
| StreamModel.ParseSource | backend/core/camera_manager.py:98-101 | A locator made only of digits (non-empty) opens a device index, and that index is below 10^length; anything else, the empty string included, is passed on unchanged as a URL |
| StreamModel.ParseSourceOfDeviceIndex | backend/core/camera_manager.py:98-99 | The decimal text of device number n opens device n (text-to-index round trip) |
| StreamModel.RateLimitedIsIntervalTest | backend/core/camera_manager.py:120-131 | The integer cross-multiplied test used by the loop is true exactly when elapsed seconds < 1.0 / fps over the reals, for positive and negative fps |
| StreamModel.InitialState | backend/core/camera_manager.py:23-37 | A new stream is not running, holds no device and no frame, and has counted nothing |
| StreamModel.CleanupStep | backend/core/camera_manager.py:158-170 | Cleanup always leaves the stream not running with the device released, and keeps the frame, counter, timestamps, start time and signal |
| StreamModel.StartStep | backend/core/camera_manager.py:39-53 | Start on a running stream returns false and changes nothing; otherwise it clears the signal and reports the new running flag, which is true exactly when the device opens and fps is nonzero; a successful start holds the device ParseSource gives for the stream URL; a failed start leaves no device held; the frame and counter are untouched; Consistent is preserved |
| StreamModel.StopStep | backend/core/camera_manager.py:55-69 | Stop on a stopped stream returns false and changes nothing; otherwise it sets the signal and returns true with the stream not running, even when the join timed out, in which case the device handle is kept; a completed join releases it; the frame and counter are kept |
| StreamModel.StartTwiceRefused | backend/core/camera_manager.py:41-43 | After a successful start, a second start returns false and changes nothing |
| StreamModel.StopTwiceRefused | backend/core/camera_manager.py:57-59 | After any stop, a second stop returns false and changes nothing |
| StreamModel.CaptureStep | backend/core/camera_manager.py:124-146 | An iteration changes state only when not rate-limited and the read succeeds; it then stores that frame, sets both timestamps to now and adds exactly one to the counter; otherwise nothing changes; the running flag, signal, device and start time never change |
| StreamModel.Apply | backend/core/camera_manager.py:94-156 | Every start, stop, loop pass (of a live worker, or the last pass of a worker that outlived a timed-out join) or worker exit keeps the stream invariant: frame stored iff counter > 0, timestamps equal, and a running stream holds a device, has no pending signal, a nonzero fps and a start time |
| StreamModel.Replay | backend/core/camera_manager.py:94-156 | The stream invariant holds after any history of events |
| StreamModel.ReplayAppend | backend/core/camera_manager.py:124-146 | Replaying a history extended by one event is applying that event to the replayed state |
| StreamModel.ReplayCounterMonotone | backend/core/camera_manager.py:145 | Over any history the frames-captured counter never decreases and grows by at most one per loop iteration |
| StreamModel.ReplayKeepsFrame | backend/core/camera_manager.py:141-143 | Over any history a stored frame is never removed (stop and cleanup keep it), and the final frame is the initial one or one a loop iteration read whole |
| StreamModel.NoStartNoFrames | backend/core/camera_manager.py:30-37 | A stream that is never started (from a stopped state with no device and no frame, such as the initial one) captures nothing and reports no frame, whatever else happens |
| StreamModel.LeakedWorkerLastPass | backend/core/camera_manager.py:63-68 | After a stop whose join timed out, the surviving worker's pass can still store its frame and count it once (and only when not rate-limited with a successful read); then the device is released, the stream stays stopped and later passes change nothing |
| ConfigLookup.FirstConfig | backend/core/camera_manager.py:218 | The lookup returns None exactly when no record has the id; otherwise a record of the list carrying that id |
| ConfigLookup.FirstConfigIsFirst | backend/core/camera_manager.py:218 | The record found is the first one carrying the id |
| ConfigLookup.FirstConfigAppend | backend/core/camera_manager.py:199-202 | Appending a record changes the lookup only for an id not seen before (first record wins) |
| ConfigLookup.NewIds | backend/core/camera_manager.py:199-202 | The ids an initialisation adds are distinct and are exactly the configured ids not already registered |
| ConfigLookup.NewIdsAppend | backend/core/camera_manager.py:199-202 | One more record adds its id at the end unless it is known or was already added |
| ConfigLookup.InitializeStep | backend/core/camera_manager.py:199-202 | A record whose id is neither known nor seen before becomes that id's configuration, and every earlier id keeps its configuration |
| CameraStreams.CameraStream.constructor | backend/core/camera_manager.py:16-37 | A new stream has its configuration and the initial state, and is consistent |
| CameraStreams.CameraStream.Start | backend/core/camera_manager.py:39-53 | The fields after the call and the result are those StartStep gives for the old fields; the invariant is kept |
| CameraStreams.CameraStream.Stop | backend/core/camera_manager.py:55-69 | The fields after the call and the result are those StopStep gives for the old fields; the invariant is kept |
| CameraStreams.CameraStream.Cleanup | backend/core/camera_manager.py:158-170 | The fields after the call are CleanupStep of the old fields |
| CameraStreams.CameraStream.CaptureIteration | backend/core/camera_manager.py:124-146 | One pass of a live loop moves the fields by CaptureStep with the configured fps; the invariant is kept |
| CameraStreams.CameraStream.RunCaptureLoop | backend/core/camera_manager.py:124-146 | Running the loop over a sequence of ticks leaves the fields equal to the replay of one loop iteration per tick, and the stream still running |
| CameraStreams.CameraStream.GetLatestFrame | backend/core/camera_manager.py:71-76 | No frame exactly until the first one is counted; afterwards the stored frame |
| CameraStreams.CameraStream.GetStreamInfo | backend/core/camera_manager.py:78-92 | Reports id, name, running flag, counter and fps from the stream; uptime 0 when never started; last-frame age absent when nothing was captured, and whenever an age is reported it is now minus the last capture time (the code reports one only when that time is positive) |
| CameraRegistry.CameraManager.constructor | backend/core/camera_manager.py:176-179 | A new manager registers nothing |
| CameraRegistry.CameraManager.InitializeCameras | backend/core/camera_manager.py:189-210 | Returns false exactly for an empty list; appends NewIds to the ids; registered streams stay untouched; each new id gets a fresh, not started stream built from its first record |
| CameraRegistry.CameraManager.RegisterEach | backend/core/camera_manager.py:199-203 | The loop registers exactly the new ids, in order, each from its first record |
| CameraRegistry.CameraManager.RegisterOne | backend/core/camera_manager.py:199-202 | Reading one more record keeps the registry invariant and extends the registered-from property to the longer prefix; earlier streams stay, new ones are fresh |
| CameraRegistry.CameraManager.SkipRecord | backend/core/camera_manager.py:201 | A record whose id is already registered leaves the registry as it is, and the registered-from property holds for the longer prefix |
| CameraRegistry.CameraManager.AddRecord | backend/core/camera_manager.py:201-202 | A record with an unregistered id adds one fresh stream for it, keeps every earlier stream, and the registered-from property holds for the longer prefix |
| CameraRegistry.CameraManager.AddStream | backend/core/camera_manager.py:202 | Registers one fresh stream in its initial state under its id, at the end of the order, leaving the others untouched |
| CameraRegistry.CameraManager.StartCamera | backend/core/camera_manager.py:212-226 | A registered id is started as StartStep says; an id found nowhere returns false and leaves the registry unchanged; an id found only in the configs gets exactly one new stream (its first record), which is then started; other streams are untouched |
| CameraRegistry.CameraManager.StopCamera | backend/core/camera_manager.py:228-235 | An unknown id returns false and changes no stream; a known one is stopped as StopStep says; other streams are untouched |
| CameraRegistry.CameraManager.StartAllCameras | backend/core/camera_manager.py:237-249 | An empty registry is first initialised from the configs; then every registered id, and only those, gets a result, each being StartStep of its stream |
| CameraRegistry.CameraManager.StartEach | backend/core/camera_manager.py:243-247 | The loop gives a result for exactly the registered ids, each from StartStep of that stream |
| CameraRegistry.CameraManager.StopAllCameras | backend/core/camera_manager.py:251-259 | A result for exactly the registered ids, each from StopStep; afterwards no stream runs and the running-camera list is empty |
| CameraRegistry.CameraManager.GetCameraFrame | backend/core/camera_manager.py:261-266 | None for an unknown id; otherwise the stream's frame, present only after a capture |
| CameraRegistry.CameraManager.GetCameraStatus | backend/core/camera_manager.py:268-273 | None exactly for an unknown id; otherwise the stream's record, carrying its id, running flag and counter |
| CameraRegistry.CameraManager.GetAllCameraStatus | backend/core/camera_manager.py:275-281 | One record per registered id, equal to the single-camera status |
| CameraRegistry.CameraManager.IsCameraRunning | backend/core/camera_manager.py:283-288 | At every clock reading, true exactly when the status query reports a record and that record says running (so false for an unknown id) |
| CameraRegistry.RunningListed | backend/core/camera_manager.py:283-296 | An id is in the running-camera list exactly when the running query says true |
| CameraRegistry.CameraManager.GetRunningCameras | backend/core/camera_manager.py:290-296 | Exactly the registered running ids, each once, as a subsequence of the registration order |
| CameraRegistry.CameraManager.RunningAmong | backend/core/camera_manager.py:293-296 | The running ids of a list, as a subsequence of it (same order), no duplicates if the list has none, empty when none runs |
| CameraRegistry.CameraManager.RefreshCameraConfigs | backend/core/camera_manager.py:298-313 | Every old stream ends up stopped; the registry then holds exactly the configured ids, in first-occurrence order, each a fresh stream with zero frames captured; returns whether any configuration was found |
| CameraRegistry.CameraManager.Rebuild | backend/core/camera_manager.py:305-309 | After clearing, the registry holds exactly the configured ids, each from its first record, in the initial state |
| CameraRegistry.CameraManager.Shutdown | backend/core/camera_manager.py:315-328 | Every old stream ends up stopped and the registry is empty |
| CameraRegistry.KeysAfterInitialize | backend/core/camera_manager.py:199-205 | After initialisation the registered ids are the earlier ones plus the configured ones |
| Scenarios.StartTwice | backend/core/camera_manager.py:212-226 | Starting a configured camera twice returns true, then false |
| Scenarios.StopNeverStarted | backend/core/camera_manager.py:228-235 | Stopping a camera that was never started returns false, and it is not running |
| Scenarios.StartUnknown | backend/core/camera_manager.py:215-222 | Starting an id absent from the configs returns false and leaves the known ids unchanged |
| Scenarios.CaptureThenStop | backend/core/camera_manager.py:124-146 | Start, three ticks (one rate-limited), then a stop whose join times out: two frames counted, stop succeeds, not running, last frame still served |
| Scenarios.StopAllAfterPartialStart | backend/core/camera_manager.py:251-259 | After starting one camera and stopping all, the results cover exactly the configured ids and no camera runs |

## Left out

- Threads, locks and timing are left out.
  - Every manager call and every loop pass is one atomic step.
  - The frame lock and the manager lock have no counterpart.
  - The code holds the manager lock for the whole of `stop_all_cameras`, joins included. This only matters under concurrency, which is not modelled.
  - The property that a concurrent reader never sees a torn frame is covered only sequentially: `ReplayKeepsFrame` says the frame held is one that a loop pass read whole.
- CameraStreams.CameraStream.Start: the worker's set-up is assumed to finish within the 0.5 s grace period (line 52). A device that opens after the grace period would make the source return False while the stream later runs; that outcome is not modelled.
- StreamModel.StopStep: a worker that outlived a timed-out join is flagged, not resolved (lines 65-68). The model keeps its device handle; `Apply` lets it finish one last pass (possibly storing one more frame) and clean up, or exit at once (`WorkerExit`). If the stream is started again before that worker sees the signal, `start` clears the signal and the old worker keeps capturing beside the new one; that overlap is not modelled.
- CameraRegistry.CameraManager.Shutdown: the extra join of still-alive workers (lines 321-324) is not modelled. The streams are dropped right after it, so nothing observable depends on it.
- StreamModel.ParseSource: only ASCII digits count as digits. Python's `str.isdigit` also accepts other Unicode digits, some of which `int()` then rejects inside the worker's `try`.
- CameraStreams.CameraStream.GetStreamInfo: the uptime and last-frame age are integer milliseconds, not float seconds.
  - `actual_fps` and `round` (lines 81, 89) are left out because they are floating point.
  - The frame interval `1.0 / fps` (line 120) is replaced by an exact integer test, proved equal to the real-number test.
- The fps value is an integer; a configuration with a float or non-numeric fps is not modelled.
- StreamModel.Fps: `None` stands for a record without an `fps` key, which gets the default of 30 (line 21). The database provider always supplies the key, so a NULL column arrives as `None` itself; `get('fps', 30)` then returns `None`, `1.0 / None` raises at line 120, and `start` returns False. That path is not modelled: the default of 30 is applied instead.
- A read that raises inside the loop (lines 148-151) changes nothing, exactly like a failed read. Both are the `ReadFailed` case.
- The setting of device properties (lines 110-116) has no effect on the state and is left out.
- Malformed configuration records are not modelled. These are records missing `id`, `camera_name` or `stream_url`; they raise `KeyError`, which `initialize_cameras` catches to return False (lines 208-210). Records here always carry these fields.
- Reading the configuration from the database (`load_camera_configs`, lines 181-187) becomes the `configs` argument.
- The global manager instance and its accessors (lines 331-353) are left out. Managers are built explicitly.
- Logging is left out.
- `backend/db/db_utils.py`, `backend/api/video.py`, `backend/api/auth.py`, `backend/api/employee.py` and `backend/api/departments.py` are not part of this model. They are database calls, HTTP/WebSocket transport and foreign cryptography.
