/**
 * The registry of camera streams: a map from camera id to its stream object,
 * kept beside the ids in insertion order (the order the map's iteration, and
 * so every bulk operation, follows).  Configuration lists are passed in by
 * the caller; an empty list also stands for a configuration source that
 * could not be read.  Device answers are passed in per call: `opens` says
 * whether the device of a camera opens, `joined` whether its worker finishes
 * within the stop timeout.
 */
module CameraRegistry {
  import opened StreamModel
  import opened ConfigLookup
  import opened CameraStreams

  class CameraManager {
    var order: seq<CameraId>
    var streams: map<CameraId, CameraStream>
    ghost var Repr: set<CameraStream>   // the registered stream objects

    /**
     * The registry invariant: the ordered ids are exactly the map's keys, each
     * once; each stream is filed under its own id, belongs to the footprint
     * and is itself consistent; and no stream object is filed under two ids.
     */
    ghost predicate Valid()
      reads this, Repr
    {
      && Registered()
      && (forall id :: id in streams ==> streams[id].Valid())
    }

    /** The part of the invariant about the registry's own fields. */
    ghost predicate Registered()
      reads this
    {
      && Distinct(order)
      && (forall id :: id in streams <==> id in order)
      && (forall k :: 0 <= k < |order| ==> order[k] in streams)
      && (forall id :: id in streams ==> streams[id] in Repr && streams[id].config.id == id)
      && (forall i, j :: i in streams && j in streams && i != j ==> streams[i] != streams[j])
    }

    /** The state of every registered stream. */
    ghost function States(): map<CameraId, StreamState>
      reads this, streams.Values
    {
      map id | id in streams :: streams[id].State()
    }

    constructor ()
      ensures Valid() && order == [] && streams == map[]
      ensures fresh(Repr)
    {
      order, streams, Repr := [], map[], {};
    }

    /**
     * Register a stream for each configured id not registered yet, the first
     * record of an id winning; registered streams are left as they are.
     * Reports whether any configuration was found.
     */
    method InitializeCameras(configs: seq<CameraConfig>) returns (ok: bool)
      requires Valid()
      modifies this
      ensures Valid()
      ensures ok == (configs != [])
      ensures order == old(order) + NewIds(old(order), configs)
      ensures streams.Keys == old(streams.Keys) + ConfigIds(configs)
      ensures forall id :: id in old(streams) ==> streams[id] == old(streams[id])
      ensures forall id :: id in streams && id !in old(streams) ==>
                && fresh(streams[id])
                && FirstConfig(configs, id) == Some(streams[id].config)
                && streams[id].State() == InitialState()
      ensures fresh(Repr - old(Repr))
    {
      if configs == [] {
        assert ConfigIds(configs) == {};
        return false;
      }
      RegisterEach(configs);
      ok := true;
    }

    /** The loop of InitializeCameras: register each configured id not registered yet. */
    method RegisterEach(configs: seq<CameraConfig>)
      requires Valid()
      modifies this
      ensures Valid()
      ensures order == old(order) + NewIds(old(order), configs)
      ensures streams.Keys == old(streams.Keys) + ConfigIds(configs)
      ensures forall id :: id in old(streams) ==> streams[id] == old(streams[id])
      ensures forall id :: id in streams && id !in old(streams) ==>
                && fresh(streams[id])
                && FirstConfig(configs, id) == Some(streams[id].config)
                && streams[id].State() == InitialState()
      ensures fresh(Repr - old(Repr))
    {
      var i := 0;
      while i < |configs|
        invariant 0 <= i <= |configs|
        invariant Valid()
        invariant RegisteredFrom(old(order), old(streams), configs[..i])
        invariant forall id :: id in streams && id !in old(streams) ==> fresh(streams[id])
        invariant fresh(Repr - old(Repr))
      {
        RegisterOne(old(order), old(streams), configs, i);
        i := i + 1;
      }
      assert configs[..i] == configs;
      KeysAfterInitialize(old(order), configs, old(streams.Keys), streams.Keys);
    }

    /**
     * The registry holds the streams of `before` (whose ids are `known`) and,
     * after them, a new stream in its initial state for each id that `prefix`
     * adds, configured by that id's first record.
     */
    ghost predicate RegisteredFrom(known: seq<CameraId>, before: map<CameraId, CameraStream>, prefix: seq<CameraConfig>)
      reads this, streams.Values
    {
      && order == known + NewIds(known, prefix)
      && (forall id :: id in before ==> id in streams && streams[id] == before[id])
      && (forall id :: id in streams && id !in before ==>
            streams[id].State() == InitialState() && FirstConfig(prefix, id) == Some(streams[id].config))
    }

    /** One step of RegisterEach: read record `i` of `configs`. */
    method RegisterOne(ghost known: seq<CameraId>, ghost before: map<CameraId, CameraStream>,
                       configs: seq<CameraConfig>, i: nat)
      requires i < |configs|
      requires Valid() && RegisteredFrom(known, before, configs[..i])
      modifies this
      ensures Valid() && RegisteredFrom(known, before, configs[..i + 1])
      ensures forall id :: id in old(streams) ==> id in streams && streams[id] == old(streams[id])
      ensures forall id :: id in streams && id !in old(streams) ==> fresh(streams[id])
      ensures fresh(Repr - old(Repr))
    {
      assert configs[..i + 1] == configs[..i] + [configs[i]];
      if configs[i].id in streams {
        SkipRecord(known, before, configs[..i], configs[i]);
      } else {
        AddRecord(known, before, configs[..i], configs[i]);
      }
    }

    /** A record whose id is registered already changes nothing. */
    lemma SkipRecord(known: seq<CameraId>, before: map<CameraId, CameraStream>,
                     prefix: seq<CameraConfig>, cfg: CameraConfig)
      requires Valid() && RegisteredFrom(known, before, prefix) && cfg.id in streams
      ensures RegisteredFrom(known, before, prefix + [cfg])
    {
      NewIdsAppend(known, prefix, cfg);
      InitializeStep(known, prefix, cfg);
      assert cfg.id in known + NewIds(known, prefix);
      forall id | id in streams && id !in before
        ensures FirstConfig(prefix + [cfg], id) == Some(streams[id].config)
      {
        assert FirstConfig(prefix, id) == Some(streams[id].config);
      }
    }

    /** A record with an unregistered id registers a new stream for it. */
    method AddRecord(ghost known: seq<CameraId>, ghost before: map<CameraId, CameraStream>,
                     ghost prefix: seq<CameraConfig>, cfg: CameraConfig)
      requires Valid() && RegisteredFrom(known, before, prefix) && cfg.id !in streams
      modifies this
      ensures Valid() && RegisteredFrom(known, before, prefix + [cfg])
      ensures forall id :: id in old(streams) ==> id in streams && streams[id] == old(streams[id])
      ensures forall id :: id in streams && id !in old(streams) ==> fresh(streams[id])
      ensures fresh(Repr - old(Repr))
    {
      NewIdsAppend(known, prefix, cfg);
      InitializeStep(known, prefix, cfg);
      assert cfg.id !in known + NewIds(known, prefix);
      AddStream(cfg);
      forall id | id in streams && id !in before
        ensures streams[id].State() == InitialState() && FirstConfig(prefix + [cfg], id) == Some(streams[id].config)
      {
        if id != cfg.id {
          assert streams[id] == old(streams[id]);
          assert FirstConfig(prefix, id) == Some(streams[id].config);
        }
      }
    }

    /**
     * Start one camera.  An unregistered id is looked up in `configs` and, if
     * found, registered first; an id found nowhere is refused.
     */
    method StartCamera(id: CameraId, configs: seq<CameraConfig>, opens: bool, now: int) returns (ok: bool)
      requires Valid()
      modifies this, Repr
      ensures Valid()
      ensures forall j :: j in old(streams) && j != id ==>
                j in streams && streams[j] == old(streams[j]) && streams[j].State() == old(streams[j].State())
      ensures id in old(streams) ==>
                && order == old(order) && streams == old(streams)
                && (ok, streams[id].State()) == StartStep(old(streams[id].State()), streams[id].config, opens, now)
      ensures id !in old(streams) && FirstConfig(configs, id).None? ==>
                !ok && order == old(order) && streams == old(streams)
      ensures id !in old(streams) && FirstConfig(configs, id).Some? ==>
                && order == old(order) + [id]
                && streams.Keys == old(streams.Keys) + {id}
                && fresh(streams[id])
                && streams[id].config == FirstConfig(configs, id).value
                && (ok, streams[id].State()) == StartStep(InitialState(), streams[id].config, opens, now)
      ensures fresh(Repr - old(Repr))
    {
      if id !in streams {
        var found := FirstConfig(configs, id);
        if found.None? {
          return false;
        }
        AddStream(found.value);
      }
      ok := streams[id].Start(opens, now);
    }

    /** Register a new, not yet started stream for `cfg` under its id. */
    method AddStream(cfg: CameraConfig)
      requires Valid() && cfg.id !in streams
      modifies this
      ensures Valid()
      ensures order == old(order) + [cfg.id]
      ensures streams.Keys == old(streams.Keys) + {cfg.id}
      ensures forall id :: id in old(streams) ==> streams[id] == old(streams[id])
      ensures fresh(streams[cfg.id]) && streams[cfg.id].config == cfg
      ensures streams[cfg.id].State() == InitialState()
      ensures fresh(Repr - old(Repr))
    {
      var stream := new CameraStream(cfg);
      streams := streams[cfg.id := stream];
      order := order + [cfg.id];
      Repr := Repr + {stream};
    }

    /** Stop one camera; an unregistered id is refused. */
    method StopCamera(id: CameraId, joined: bool) returns (ok: bool)
      requires Valid()
      modifies Repr
      ensures Valid()
      ensures id !in streams ==> !ok && States() == old(States())
      ensures id in streams ==>
                (ok, streams[id].State()) == StopStep(old(streams[id].State()), joined)
      ensures forall j :: j in streams && j != id ==> streams[j].State() == old(streams[j].State())
    {
      if id !in streams {
        return false;
      }
      ok := streams[id].Stop(joined);
    }

    /**
     * Start every registered camera in registration order, first registering
     * the configured ones when none is registered, and report each outcome.
     */
    method StartAllCameras(configs: seq<CameraConfig>, opens: CameraId -> bool, now: int)
      returns (results: map<CameraId, bool>)
      requires Valid()
      modifies this, Repr
      ensures Valid()
      ensures old(streams) != map[] ==> order == old(order) && streams == old(streams)
      ensures old(streams) == map[] ==> order == NewIds([], configs)
      ensures forall id :: id in streams && id !in old(streams) ==>
                fresh(streams[id]) && FirstConfig(configs, id) == Some(streams[id].config)
      ensures results.Keys == streams.Keys
      ensures forall id :: id in streams ==>
                (results[id], streams[id].State()) ==
                StartStep(if id in old(streams) then old(streams[id].State()) else InitialState(),
                          streams[id].config, opens(id), now)
      ensures fresh(Repr - old(Repr))
    {
      if streams == map[] {
        NoKeysNoIds(order, streams);
        var _ := InitializeCameras(configs);
      }
      results := StartEach(opens, now);
    }

    /** The loop of StartAllCameras: start each registered camera in registration order. */
    method StartEach(opens: CameraId -> bool, now: int) returns (results: map<CameraId, bool>)
      requires Valid()
      modifies Repr
      ensures Valid()
      ensures results.Keys == streams.Keys
      ensures forall id :: id in streams ==>
                (results[id], streams[id].State()) ==
                StartStep(old(streams[id].State()), streams[id].config, opens(id), now)
    {
      ghost var before := States();
      results := map[];
      var i := 0;
      while i < |order|
        invariant 0 <= i <= |order|
        invariant Valid()
        invariant forall id :: id in results <==> id in order[..i]
        invariant forall id :: id in streams ==>
                    if id in results
                    then (results[id], streams[id].State()) == StartStep(before[id], streams[id].config, opens(id), now)
                    else streams[id].State() == before[id]
      {
        var id := order[i];
        assert order[..i + 1] == order[..i] + [id];
        var ok := streams[id].Start(opens(id), now);
        results := results[id := ok];
        i := i + 1;
      }
      assert order[..i] == order;
      assert forall id :: id in results.Keys <==> id in streams.Keys;
    }

    /** Stop every registered camera and report each outcome. */
    method StopAllCameras(joined: CameraId -> bool) returns (results: map<CameraId, bool>)
      requires Valid()
      modifies Repr
      ensures Valid()
      ensures results.Keys == streams.Keys
      ensures forall id :: id in streams ==>
                (results[id], streams[id].State()) == StopStep(old(streams[id].State()), joined(id))
      ensures AllStopped(streams)
      ensures GetRunningCameras() == []
    {
      ghost var before := States();
      results := map[];
      var i := 0;
      while i < |order|
        invariant 0 <= i <= |order|
        invariant Valid()
        invariant forall id :: id in results <==> id in order[..i]
        invariant forall id :: id in streams ==>
                    if id in results
                    then (results[id], streams[id].State()) == StopStep(before[id], joined(id))
                    else streams[id].State() == before[id]
      {
        var id := order[i];
        assert order[..i + 1] == order[..i] + [id];
        var ok := streams[id].Stop(joined(id));
        results := results[id := ok];
        i := i + 1;
      }
      assert order[..i] == order;
      assert forall id :: id in results.Keys <==> id in streams.Keys;
    }

    /** The latest frame of a camera; None for an unregistered id. */
    function GetCameraFrame(id: CameraId): (f: Option<Frame>)
      reads this, streams.Values
      ensures id !in streams ==> f.None?
      ensures id in streams ==> f == streams[id].latestFrame
      ensures Valid() && f.Some? ==> streams[id].framesCaptured > 0
    {
      if id !in streams then None else streams[id].GetLatestFrame()
    }

    /** The status record of a camera at clock `now`; None for an unregistered id. */
    function GetCameraStatus(id: CameraId, now: int): (r: Option<StreamInfo>)
      reads this, streams.Values
      ensures r.None? <==> id !in streams
      ensures r.Some? ==> r.value.isRunning == streams[id].isRunning
                          && r.value.framesCaptured == streams[id].framesCaptured
      ensures Valid() && r.Some? ==> r.value.cameraId == id
    {
      if id !in streams then None else Some(streams[id].GetStreamInfo(now))
    }

    /** The status record of every registered camera at clock `now`. */
    function GetAllCameraStatus(now: int): (r: map<CameraId, StreamInfo>)
      reads this, streams.Values
      ensures r.Keys == streams.Keys
      ensures forall id :: id in r ==> GetCameraStatus(id, now) == Some(r[id])
    {
      map id | id in streams :: streams[id].GetStreamInfo(now)
    }

    /** Whether a camera is running; false for an unregistered id. */
    function IsCameraRunning(id: CameraId): (b: bool)
      reads this, streams.Values
      ensures forall now :: b <==> GetCameraStatus(id, now).Some? && GetCameraStatus(id, now).value.isRunning
    {
      id in streams && streams[id].isRunning
    }

    /** The running cameras, in registration order. */
    function GetRunningCameras(): (r: seq<CameraId>)
      reads this, streams.Values
      ensures forall id :: id in r <==> id in order && IsCameraRunning(id)
      ensures Distinct(order) ==> Distinct(r)
      ensures Subsequence(r, order)
    {
      RunningAmong(order)
    }

    /** The ids of `ids` whose camera is running, in the order of `ids`. */
    function RunningAmong(ids: seq<CameraId>): (r: seq<CameraId>)
      reads this, streams.Values
      ensures forall id :: id in r <==> id in ids && IsCameraRunning(id)
      ensures Distinct(ids) ==> Distinct(r)
      ensures |r| <= |ids|
      ensures (forall id :: id in ids ==> !IsCameraRunning(id)) ==> r == []
      ensures Subsequence(r, ids)
    {
      if ids == [] then []
      else
        var rest := RunningAmong(ids[1..]);
        assert forall id :: id in ids <==> id == ids[0] || id in ids[1..];
        if IsCameraRunning(ids[0]) then
          assert ([ids[0]] + rest)[1..] == rest;
          [ids[0]] + rest
        else rest
    }

    /**
     * Stop everything, drop every stream and register afresh from `configs`:
     * all statistics and frames are lost.
     */
    method RefreshCameraConfigs(configs: seq<CameraConfig>, joined: CameraId -> bool) returns (ok: bool)
      requires Valid()
      modifies this, Repr
      ensures Valid()
      ensures ok == (configs != [])
      ensures order == NewIds([], configs)
      ensures streams.Keys == ConfigIds(configs)
      ensures forall id :: id in streams ==>
                && fresh(streams[id])
                && FirstConfig(configs, id) == Some(streams[id].config)
                && streams[id].State() == InitialState()
                && streams[id].framesCaptured == 0
      ensures AllStopped(old(streams))
    {
      var _ := StopAllCameras(joined);
      ok := Rebuild(configs);
    }

    /** Drop every stream and register afresh from `configs` (the second half of a refresh). */
    method Rebuild(configs: seq<CameraConfig>) returns (ok: bool)
      modifies this
      ensures Valid()
      ensures ok == (configs != [])
      ensures order == NewIds([], configs)
      ensures streams.Keys == ConfigIds(configs)
      ensures forall id :: id in streams ==>
                && fresh(streams[id])
                && FirstConfig(configs, id) == Some(streams[id].config)
                && streams[id].State() == InitialState()
    {
      streams, order, Repr := map[], [], {};
      ok := InitializeCameras(configs);
    }

    /** Stop everything and drop every stream. */
    method Shutdown(joined: CameraId -> bool)
      requires Valid()
      modifies this, Repr
      ensures Valid()
      ensures order == [] && streams == map[]
      ensures AllStopped(old(streams))
    {
      var _ := StopAllCameras(joined);
      streams, order, Repr := map[], [], {};
    }
  }

  /** The elements of `r` occur in `s` in the same order (not necessarily adjacent). */
  predicate Subsequence(r: seq<CameraId>, s: seq<CameraId>) {
    if r == [] then true
    else if s == [] then false
    else (r[0] == s[0] && Subsequence(r[1..], s[1..])) || Subsequence(r, s[1..])
  }

  /** Whether a camera is listed as running is whether it runs. */
  lemma RunningListed(m: CameraManager, id: CameraId)
    requires m.Valid()
    ensures id in m.GetRunningCameras() <==> m.IsCameraRunning(id)
  {
  }

  /** No stream of `streams` is running. */
  ghost predicate AllStopped(streams: map<CameraId, CameraStream>)
    reads streams.Values
  {
    forall id :: id in streams ==> !streams[id].isRunning
  }

  /** A registry with no streams lists no ids. */
  lemma NoKeysNoIds(order: seq<CameraId>, streams: map<CameraId, CameraStream>)
    requires forall k :: 0 <= k < |order| ==> order[k] in streams
    ensures streams == map[] ==> order == []
  {
    assert |order| > 0 ==> order[0] in streams;
  }

  /** The ids registered after initialisation are the earlier ones and the configured ones. */
  lemma KeysAfterInitialize(known: seq<CameraId>, configs: seq<CameraConfig>, before: set<CameraId>, after: set<CameraId>)
    requires forall id :: id in before <==> id in known
    requires forall id :: id in after <==> id in known + NewIds(known, configs)
    ensures after == before + ConfigIds(configs)
  {
    forall id ensures id in after <==> id in before || id in ConfigIds(configs) {
      assert id in known + NewIds(known, configs) <==> id in known || id in NewIds(known, configs);
    }
  }
}
