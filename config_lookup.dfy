/**
 * How the registry reads a list of configuration records: the first record
 * with a given id (later duplicates are ignored), and the ids a list would
 * add to a registry that already knows some ids, in list order.
 */
module ConfigLookup {
  import opened StreamModel

  /** No id occurs twice. */
  predicate Distinct(ids: seq<CameraId>) {
    forall i, j :: 0 <= i < j < |ids| ==> ids[i] != ids[j]
  }

  /** The ids that occur in a configuration list. */
  function ConfigIds(configs: seq<CameraConfig>): set<CameraId> {
    set c | c in configs :: c.id
  }

  /**
   * The first record of `configs` whose id is `id`, or None when there is none
   * (the generator lookup `next((c for c in configs if c['id'] == id), None)`).
   */
  function FirstConfig(configs: seq<CameraConfig>, id: CameraId): (r: Option<CameraConfig>)
    ensures r.None? <==> id !in ConfigIds(configs)
    ensures r.Some? ==> r.value.id == id && r.value in configs
  {
    if configs == [] then None
    else if configs[0].id == id then Some(configs[0])
    else
      assert ConfigIds(configs) == {configs[0].id} + ConfigIds(configs[1..]) by {
        assert forall c :: c in configs <==> c == configs[0] || c in configs[1..];
      }
      FirstConfig(configs[1..], id)
  }

  /** The record found is the first one carrying the id: no earlier record carries it. */
  lemma {:induction false} FirstConfigIsFirst(configs: seq<CameraConfig>, id: CameraId)
    requires FirstConfig(configs, id).Some?
    ensures exists k :: 0 <= k < |configs| && configs[k] == FirstConfig(configs, id).value
                        && forall j :: 0 <= j < k ==> configs[j].id != id
  {
    if configs[0].id != id {
      FirstConfigIsFirst(configs[1..], id);
      var k :| 0 <= k < |configs[1..]| && configs[1..][k] == FirstConfig(configs[1..], id).value
               && forall j :: 0 <= j < k ==> configs[1..][j].id != id;
      assert configs[k + 1] == FirstConfig(configs, id).value;
      forall j | 0 <= j < k + 1 ensures configs[j].id != id {
        if j > 0 { assert configs[j] == configs[1..][j - 1]; }
      }
    } else {
      assert configs[0] == FirstConfig(configs, id).value;
    }
  }

  /** Appending a record changes the lookup only for an id not seen before. */
  lemma {:induction false} FirstConfigAppend(configs: seq<CameraConfig>, c: CameraConfig, id: CameraId)
    ensures FirstConfig(configs + [c], id) ==
              if FirstConfig(configs, id).Some? then FirstConfig(configs, id)
              else if c.id == id then Some(c) else None
  {
    if configs != [] {
      assert (configs + [c])[1..] == configs[1..] + [c];
      FirstConfigAppend(configs[1..], c, id);
    }
  }

  /**
   * The ids of `configs` that are not in `known`, each once, in the order of
   * their first occurrence: the ids a registry knowing `known` adds when it
   * is initialised from `configs`.
   */
  function NewIds(known: seq<CameraId>, configs: seq<CameraConfig>): (r: seq<CameraId>)
    ensures Distinct(r)
    ensures forall id :: id in r <==> id in ConfigIds(configs) && id !in known
    decreases |configs|
  {
    if configs == [] then []
    else
      var init := configs[..|configs| - 1];
      var last := configs[|configs| - 1];
      var prev := NewIds(known, init);
      assert ConfigIds(configs) == ConfigIds(init) + {last.id} by {
        assert configs == init + [last];
        assert forall c :: c in configs <==> c in init || c == last;
      }
      if last.id in known || last.id in prev then prev else prev + [last.id]
  }

  /** Appending a record adds its id at the end, unless it is known or already added. */
  lemma NewIdsAppend(known: seq<CameraId>, configs: seq<CameraConfig>, c: CameraConfig)
    ensures NewIds(known, configs + [c]) ==
              if c.id in known || c.id in NewIds(known, configs) then NewIds(known, configs)
              else NewIds(known, configs) + [c.id]
  {
    var all := configs + [c];
    assert all[..|all| - 1] == configs;
    assert all[|all| - 1] == c;
  }

  /**
   * What reading one more record does to the lookup: a record whose id is
   * neither known nor seen before becomes that id's configuration, and the
   * configuration of every id seen before stays the same.
   */
  lemma InitializeStep(known: seq<CameraId>, configs: seq<CameraConfig>, c: CameraConfig)
    ensures c.id !in known && c.id !in NewIds(known, configs) ==> FirstConfig(configs + [c], c.id) == Some(c)
    ensures forall id :: FirstConfig(configs, id).Some? ==> FirstConfig(configs + [c], id) == FirstConfig(configs, id)
  {
    FirstConfigAppend(configs, c, c.id);
    forall id | FirstConfig(configs, id).Some?
      ensures FirstConfig(configs + [c], id) == FirstConfig(configs, id)
    {
      FirstConfigAppend(configs, c, id);
    }
  }
}
