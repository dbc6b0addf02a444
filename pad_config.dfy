/**
 * The pad-configuration store: an open key/value record holding what the
 * device reported (`general`, `panels`, `buttons`, and any other key of the
 * device's message) plus the `backupConfig` record that the edit transaction
 * uses. Each reducer has a specification function; the store's methods apply
 * it in place, the way the reducers mutate their draft.
 */
module PadConfig {
  import opened Values

  type Config = map<string, Value>

  const BackupKey: string := "backupConfig"

  /** The payload `updatePadConfigFromSettings` takes: the Settings form's name, panels and buttons. */
  datatype SettingsPayload = SettingsPayload(name: Value, panels: Value, buttons: Value)

  // ----- setPadConfig -----

  /** Every payload key is copied onto the state, after `backupConfig` was reset to `{}`. */
  function SetPadConfigResult(state: Config, payload: Config): (r: Config)
    ensures r.Keys == state.Keys + payload.Keys + {BackupKey}
    ensures forall k :: k in payload ==> r[k] == payload[k]
    ensures BackupKey !in payload ==> r[BackupKey] == Record(map[])
    ensures forall k :: k in state && k !in payload && k != BackupKey ==> r[k] == state[k]
  {
    state[BackupKey := Record(map[])] + payload
  }

  // ----- clearPadConfig -----

  /** Every key stays, `backupConfig` included, and every value becomes `undefined`. */
  function ClearPadConfigResult(state: Config): (r: Config)
    ensures r.Keys == state.Keys
    ensures forall k :: k in r ==> r[k] == Undefined
  {
    map k | k in state :: Undefined
  }

  // ----- setPadThreshold -----

  ghost predicate ThresholdIndexed(state: Config, panelIndex: int, sensorIndex: int) {
    var panels := Get(state, "panels");
    && panels.PanelsVal?
    && 0 <= panelIndex < |panels.panels|
    && 0 <= sensorIndex < |panels.panels[panelIndex].sensors|
  }

  /** `qs` is `ps` with exactly one sensor's threshold set to `t`. */
  ghost predicate OnlyThresholdChanged(ps: seq<Panel>, qs: seq<Panel>, p: nat, s: nat, t: Value)
    requires p < |ps| && s < |ps[p].sensors|
  {
    && |qs| == |ps|
    && (forall i :: 0 <= i < |ps| && i != p ==> qs[i] == ps[i])
    && qs[p].(sensors := ps[p].sensors) == ps[p]
    && |qs[p].sensors| == |ps[p].sensors|
    && (forall j :: 0 <= j < |ps[p].sensors| && j != s ==> qs[p].sensors[j] == ps[p].sensors[j])
    && qs[p].sensors[s] == ps[p].sensors[s].(threshold := t)
  }

  function WithThreshold(ps: seq<Panel>, p: nat, s: nat, t: Value): (qs: seq<Panel>)
    requires p < |ps| && s < |ps[p].sensors|
    ensures OnlyThresholdChanged(ps, qs, p, s, t)
  {
    ps[p := ps[p].(sensors := ps[p].sensors[s := ps[p].sensors[s].(threshold := t)])]
  }

  /**
   * `state.panels[p].sensors[s].threshold = t`: the one threshold changes and
   * nothing else; any missing step on the path throws a TypeError.
   */
  function SetPadThresholdResult(state: Config, panelIndex: int, sensorIndex: int, threshold: Value): (r: Result<Config>)
    ensures r.Ok? <==> ThresholdIndexed(state, panelIndex, sensorIndex)
    ensures r.Err? ==> r.error == TypeError
    ensures r.Ok? ==>
      && r.value.Keys == state.Keys
      && (forall k :: k in state && k != "panels" ==> r.value[k] == state[k])
      && r.value["panels"].PanelsVal?
      && OnlyThresholdChanged(state["panels"].panels, r.value["panels"].panels, panelIndex, sensorIndex, threshold)
  {
    match Get(state, "panels")
    case PanelsVal(ps) =>
      if 0 <= panelIndex < |ps| && 0 <= sensorIndex < |ps[panelIndex].sensors|
      then Ok(state["panels" := PanelsVal(WithThreshold(ps, panelIndex, sensorIndex, threshold))])
      else Err(TypeError)
    case _ => Err(TypeError)
  }

  // ----- updatePadConfigFromSettings -----

  /** `state.general = state.general ?? {}; state.general.name = name`, as the new `general`. */
  function GeneralWithName(state: Config, name: Value): (r: Result<Value>)
    ensures var g := Get(state, "general");
      r.Ok? <==> g.Undefined? || g.Record? || g.PanelsVal? || g.ButtonsVal?
    ensures Get(state, "general").Undefined? ==> r == Ok(Record(map["name" := name]))
    ensures Get(state, "general").Record? ==> r == Ok(Record(Get(state, "general").fields["name" := name]))
  {
    SetProperty(Coalesce(Get(state, "general"), Record(map[])), "name", name)
  }

  ghost predicate GeneralAssignable(state: Config) {
    var g := Get(state, "general");
    g.Undefined? || g.Record? || g.PanelsVal? || g.ButtonsVal?
  }

  /**
   * `general` is created when missing and gets the payload's name, its other
   * fields stay; `panels` and `buttons` are replaced by the payload's; every
   * other key is untouched.
   */
  function UpdatePadConfigFromSettingsResult(state: Config, payload: SettingsPayload): (r: Result<Config>)
    ensures r.Ok? <==> GeneralAssignable(state)
    ensures r.Err? ==> r.error == TypeError
    ensures r.Ok? ==>
      && r.value.Keys == state.Keys + {"general", "panels", "buttons"}
      && r.value["panels"] == payload.panels
      && r.value["buttons"] == payload.buttons
      && r.value["general"] == GeneralWithName(state, payload.name).value
      && (forall k :: k in state && k != "general" && k != "panels" && k != "buttons" ==> r.value[k] == state[k])
  {
    match GeneralWithName(state, payload.name)
    case Ok(general) => Ok(state["general" := general]["panels" := payload.panels]["buttons" := payload.buttons])
    case Err(e) => Err(e)
  }

  // ----- backupPadConfig -----

  /** The payload entries among `keys` that `backupPadConfig` copies: all but `backupConfig`. */
  function BackupEntries(payload: Config, keys: set<string>): (m: map<string, Value>)
    ensures m.Keys == (keys * payload.Keys) - {BackupKey}
    ensures forall k :: k in m ==> m[k] == payload[k]
  {
    map k | k in keys && k in payload && k != BackupKey :: payload[k]
  }

  /** The state after `state.backupConfig[k] = payload[k]` for the keys `keys`. */
  function BackupKeys(state: Config, payload: Config, keys: set<string>): Result<Config> {
    var entries := BackupEntries(payload, keys);
    match Get(state, BackupKey)
    case Record(m) => Ok(state[BackupKey := Record(m + entries)])
    case PanelsVal(_) => Ok(state)
    case ButtonsVal(_) => Ok(state)
    case _ => if entries == map[] then Ok(state) else Err(TypeError)
  }

  /**
   * Each payload entry other than `backupConfig` is written into the
   * `backupConfig` record, the rest of the state is untouched; without a
   * `backupConfig` record (for instance after `clearPadConfig`) the first such
   * entry throws.
   */
  function BackupPadConfigResult(state: Config, payload: Config): (r: Result<Config>)
    ensures var b := Get(state, BackupKey);
      r.Err? <==> !(b.Record? || b.PanelsVal? || b.ButtonsVal?) && exists k :: k in payload && k != BackupKey
    ensures r.Err? ==> r.error == TypeError
    ensures Get(state, BackupKey).Record? ==>
      var m := state[BackupKey].fields;
      && r.Ok?
      && r.value.Keys == state.Keys
      && (forall k :: k in state && k != BackupKey ==> r.value[k] == state[k])
      && r.value[BackupKey].Record?
      && r.value[BackupKey].fields.Keys == m.Keys + (payload.Keys - {BackupKey})
      && (forall k :: k in payload && k != BackupKey ==> r.value[BackupKey].fields[k] == payload[k])
      && (forall k :: k in m && (k !in payload || k == BackupKey) ==> r.value[BackupKey].fields[k] == m[k])
  {
    var entries := BackupEntries(payload, payload.Keys);
    assert entries != map[] ==> exists k :: k in payload && k != BackupKey by {
      if entries != map[] {
        var k :| k in entries;
        assert k in payload && k != BackupKey;
      }
    }
    BackupKeys(state, payload, payload.Keys)
  }

  // ----- restoreBackupPadConfig -----

  /**
   * Every key other than `backupConfig` becomes `undefined`, then each key
   * recorded in `backupConfig` takes the PAYLOAD's value for it, and
   * `backupConfig` is reset to `{}`; `Object.keys` of a missing backup throws.
   */
  function RestoreBackupPadConfigResult(state: Config, payload: Config): (r: Result<Config>)
    ensures r.Err? <==> Get(state, BackupKey).Undefined?
    ensures r.Err? ==> r.error == TypeError
    ensures r.Ok? ==>
      var keys := OwnKeys(Get(state, BackupKey)).value;
      && r.value.Keys == state.Keys + keys + {BackupKey}
      && r.value[BackupKey] == Record(map[])
      && (forall k :: k in keys && k != BackupKey ==> r.value[k] == Get(payload, k))
      && (forall k :: k in state && k !in keys && k != BackupKey ==> r.value[k] == Undefined)
  {
    match OwnKeys(Get(state, BackupKey))
    case Err(e) => Err(e)
    case Ok(keys) =>
      Ok((map k | k in state.Keys + keys :: if k in keys then Get(payload, k) else Undefined)[BackupKey := Record(map[])])
  }

  // ----- selectors -----

  /** `general?.name`. */
  function SelectPadName(state: Config): (r: Value)
    ensures Get(state, "general").Record? ==> r == Get(state["general"].fields, "name")
    ensures !Get(state, "general").Record? ==> r == Undefined
  {
    Property(Get(state, "general"), "name")
  }

  /** `panels?.length ?? 0`. */
  function SelectPanelsCount(state: Config): (r: Value)
    ensures Get(state, "panels").PanelsVal? ==> r == Number(|state["panels"].panels|)
    ensures Get(state, "panels").Undefined? ==> r == Number(0)
  {
    Coalesce(LengthOf(Get(state, "panels")), Number(0))
  }

  /** `panels ?? []`. */
  function SelectConfigPanels(state: Config): (r: Value)
    ensures Get(state, "panels").Undefined? ==> r == PanelsVal([])
    ensures !Get(state, "panels").Undefined? ==> r == state["panels"]
  {
    Coalesce(Get(state, "panels"), PanelsVal([]))
  }

  /** `panels?.[0]?.sensors?.length ?? 0`: 0 unless there is a first panel. */
  function SelectSensorsCount(state: Config): (r: nat)
    ensures r != 0 ==> Get(state, "panels").PanelsVal? && |state["panels"].panels| > 0
    ensures Get(state, "panels").PanelsVal? && |state["panels"].panels| > 0 ==> r == |state["panels"].panels[0].sensors|
  {
    match Get(state, "panels")
    case PanelsVal(ps) => if |ps| > 0 then |ps[0].sensors| else 0
    case _ => 0
  }

  /** `panels?.[p]?.sensors ?? []`. */
  function SelectPadConfigSensors(state: Config, panelIndex: int): (r: seq<Sensor>)
    ensures r != [] ==> Get(state, "panels").PanelsVal? && 0 <= panelIndex < |state["panels"].panels|
    ensures Get(state, "panels").PanelsVal? && 0 <= panelIndex < |state["panels"].panels| ==>
      r == state["panels"].panels[panelIndex].sensors
  {
    match Get(state, "panels")
    case PanelsVal(ps) => if 0 <= panelIndex < |ps| then ps[panelIndex].sensors else []
    case _ => []
  }

  /**
   * `panels[p]?.sensors?.[s]?.threshold ?? 0`: 0 for a sensor that is not
   * there, but a TypeError when `panels` itself is missing (no `?.` guards it).
   */
  function SelectPadConfigSensorThreshold(state: Config, panelIndex: int, sensorIndex: int): (r: Result<Value>)
    ensures r.Err? <==> Get(state, "panels").Undefined?
    ensures r.Ok? && !ThresholdIndexed(state, panelIndex, sensorIndex) ==> r.value == Number(0)
    ensures ThresholdIndexed(state, panelIndex, sensorIndex) ==>
      r == Ok(Coalesce(state["panels"].panels[panelIndex].sensors[sensorIndex].threshold, Number(0)))
  {
    match Get(state, "panels")
    case Undefined => Err(TypeError)
    case PanelsVal(ps) =>
      if 0 <= panelIndex < |ps| && 0 <= sensorIndex < |ps[panelIndex].sensors|
      then Ok(Coalesce(ps[panelIndex].sensors[sensorIndex].threshold, Number(0)))
      else Ok(Number(0))
    case _ => Ok(Number(0))
  }

  // ----- properties of the edit transaction -----

  /**
   * Backing up a configuration `c` and then restoring with the same `c` gives
   * every key of `c` its value from `c`, leaves an empty backup, and clears to
   * `undefined` the keys that neither `c` nor the old backup named.
   */
  lemma BackupRestoreRoundTrip(state: Config, c: Config)
    requires Get(state, BackupKey).Record?
    ensures BackupPadConfigResult(state, c).Ok?
    ensures var r := RestoreBackupPadConfigResult(BackupPadConfigResult(state, c).value, c);
      && r.Ok?
      && r.value[BackupKey] == Record(map[])
      && (forall k :: k in c && k != BackupKey ==> r.value[k] == c[k])
      && (forall k :: k in state && k != BackupKey && k !in c && k !in state[BackupKey].fields ==> r.value[k] == Undefined)
  {
    var b := BackupPadConfigResult(state, c).value;
    var keys := OwnKeys(Get(b, BackupKey)).value;
    assert keys == state[BackupKey].fields.Keys + (c.Keys - {BackupKey});
  }

  /**
   * The edit transaction on a freshly loaded configuration: back up the whole
   * state, change one threshold, restore with the same snapshot, and the
   * state is exactly what it was before the edit.
   */
  lemma EditCancelRestoresConfig(state: Config, panelIndex: int, sensorIndex: int, threshold: Value)
    requires BackupKey in state && state[BackupKey] == Record(map[])
    requires ThresholdIndexed(state, panelIndex, sensorIndex)
    ensures var backedUp := BackupPadConfigResult(state, state);
      && backedUp.Ok?
      && var edited := SetPadThresholdResult(backedUp.value, panelIndex, sensorIndex, threshold);
      && edited.Ok?
      && RestoreBackupPadConfigResult(edited.value, state) == Ok(state)
  {
    var b := BackupPadConfigResult(state, state).value;
    assert b[BackupKey].fields.Keys == state.Keys - {BackupKey};
    var e := SetPadThresholdResult(b, panelIndex, sensorIndex, threshold).value;
    assert e[BackupKey] == b[BackupKey];
    var r := RestoreBackupPadConfigResult(e, state).value;
    assert r.Keys == state.Keys;
    forall k | k in state
      ensures r[k] == state[k]
    {
      if k != BackupKey {
        assert k in e[BackupKey].fields;
      }
    }
    assert r == state;
  }

  /** After `clearPadConfig` the backup record is gone, so backing up any non-backup key throws. */
  lemma BackupAfterClearThrows(state: Config, payload: Config, k: string)
    requires k in payload && k != BackupKey
    ensures BackupPadConfigResult(ClearPadConfigResult(state), payload) == Err(TypeError)
  {
  }

  /** After `setPadConfig` the backup record is the payload's, or `{}`, so backing up cannot throw. */
  lemma BackupAfterSetPadConfigSucceeds(state: Config, device: Config, payload: Config)
    requires BackupKey !in device
    ensures BackupPadConfigResult(SetPadConfigResult(state, device), payload).Ok?
  {
  }

  /** The count selectors read back what `updatePadConfigFromSettings` stored. */
  lemma CountsAfterUpdateFromSettings(state: Config, name: Value, panels: seq<Panel>, buttons: Value)
    requires GeneralAssignable(state)
    ensures var r := UpdatePadConfigFromSettingsResult(state, SettingsPayload(name, PanelsVal(panels), buttons));
      && r.Ok?
      && SelectPanelsCount(r.value) == Number(|panels|)
      && SelectSensorsCount(r.value) == (if |panels| > 0 then |panels[0].sensors| else 0)
      && (GeneralAssignable(state) && !Get(state, "general").PanelsVal? && !Get(state, "general").ButtonsVal? ==>
            SelectPadName(r.value) == name)
  {
  }

  /** After `clearPadConfig` every selector falls back to its default, except the threshold selector, which throws. */
  lemma SelectorsAfterClear(state: Config, panelIndex: int, sensorIndex: int)
    ensures var c := ClearPadConfigResult(state);
      && SelectPadName(c) == Undefined
      && SelectPanelsCount(c) == Number(0)
      && SelectSensorsCount(c) == 0
      && SelectConfigPanels(c) == PanelsVal([])
      && SelectPadConfigSensors(c, panelIndex) == []
      && SelectPadConfigSensorThreshold(c, panelIndex, sensorIndex) == Err(TypeError)
  {
  }

  /** The store of the pad configuration; initially `{}`. */
  class Store {
    var state: Config

    constructor ()
      ensures state == map[]
    {
      state := map[];
    }

    method SetPadConfig(payload: Config)
      modifies this
      ensures state == SetPadConfigResult(old(state), payload)
    {
      var draft := state[BackupKey := Record(map[])];
      var todo := payload.Keys;
      while todo != {}
        invariant todo <= payload.Keys
        invariant draft == old(state)[BackupKey := Record(map[])] + (map k | k in payload.Keys - todo :: payload[k])
        decreases todo
      {
        var key :| key in todo;
        draft := draft[key := payload[key]];
        todo := todo - {key};
      }
      assert (map k | k in payload.Keys - todo :: payload[k]) == payload;
      state := draft;
    }

    method ClearPadConfig()
      modifies this
      ensures state == ClearPadConfigResult(old(state))
    {
      var draft := state;
      var todo := state.Keys;
      while todo != {}
        invariant todo <= draft.Keys
        invariant draft.Keys == old(state).Keys
        invariant forall k :: k in draft ==> draft[k] == if k in todo then old(state)[k] else Undefined
        decreases todo
      {
        var key :| key in todo;
        draft := draft[key := Undefined];
        todo := todo - {key};
      }
      state := draft;
    }

    method SetPadThreshold(panelIndex: int, sensorIndex: int, threshold: Value) returns (out: Outcome)
      modifies this
      ensures Reduced(SetPadThresholdResult(old(state), panelIndex, sensorIndex, threshold), old(state), state, out)
    {
      var panels := Get(state, "panels");
      if !panels.PanelsVal? || !(0 <= panelIndex < |panels.panels|) {
        return Threw(TypeError);
      }
      var panel := panels.panels[panelIndex];
      if !(0 <= sensorIndex < |panel.sensors|) {
        return Threw(TypeError);
      }
      var sensor := panel.sensors[sensorIndex].(threshold := threshold);
      panel := panel.(sensors := panel.sensors[sensorIndex := sensor]);
      state := state["panels" := PanelsVal(panels.panels[panelIndex := panel])];
      out := Done;
    }

    method UpdatePadConfigFromSettings(payload: SettingsPayload) returns (out: Outcome)
      modifies this
      ensures Reduced(UpdatePadConfigFromSettingsResult(old(state), payload), old(state), state, out)
    {
      var general := Coalesce(Get(state, "general"), Record(map[]));
      var named := SetProperty(general, "name", payload.name);
      if named.Err? {
        return Threw(named.error);
      }
      var draft := state["general" := named.value];
      draft := draft["panels" := payload.panels];
      draft := draft["buttons" := payload.buttons];
      state := draft;
      out := Done;
    }

    method BackupPadConfig(payload: Config) returns (out: Outcome)
      modifies this
      ensures Reduced(BackupPadConfigResult(old(state), payload), old(state), state, out)
    {
      var draft := state;
      var todo := payload.Keys;
      BackupNothing(state, payload);
      while todo != {}
        invariant todo <= payload.Keys
        invariant BackupKeys(old(state), payload, payload.Keys - todo) == Ok(draft)
        invariant state == old(state)
        decreases todo
      {
        var key :| key in todo;
        if key != BackupKey {
          var written := SetProperty(Get(draft, BackupKey), key, payload[key]);
          if written.Err? {
            BackupFails(old(state), payload, payload.Keys - todo, key);
            return Threw(written.error);
          }
          BackupStep(old(state), payload, payload.Keys - todo, key, draft);
          draft := draft[BackupKey := written.value];
        } else {
          assert BackupEntries(payload, payload.Keys - todo + {key}) == BackupEntries(payload, payload.Keys - todo);
        }
        assert payload.Keys - (todo - {key}) == payload.Keys - todo + {key};
        todo := todo - {key};
      }
      assert payload.Keys - todo == payload.Keys;
      state := draft;
      out := Done;
    }

    method RestoreBackupPadConfig(payload: Config) returns (out: Outcome)
      modifies this
      ensures Reduced(RestoreBackupPadConfigResult(old(state), payload), old(state), state, out)
    {
      var draft := state;
      var todo := state.Keys;
      while todo != {}
        invariant todo <= draft.Keys
        invariant draft.Keys == old(state).Keys
        invariant forall k :: k in draft ==> draft[k] == if k in todo || k == BackupKey then old(state)[k] else Undefined
        decreases todo
      {
        var key :| key in todo;
        if key != BackupKey {
          draft := draft[key := Undefined];
        }
        todo := todo - {key};
      }
      var recorded := OwnKeys(Get(draft, BackupKey));
      if recorded.Err? {
        return Threw(recorded.error);
      }
      var keys := recorded.value;
      todo := keys;
      while todo != {}
        invariant todo <= keys
        invariant draft.Keys == old(state).Keys + (keys - todo)
        invariant forall k :: k in draft ==>
          draft[k] == if k in keys - todo then Get(payload, k) else if k == BackupKey then old(state)[k] else Undefined
        decreases todo
      {
        var key :| key in todo;
        draft := draft[key := Get(payload, key)];
        todo := todo - {key};
      }
      RestoreMatches(old(state), payload, keys, draft);
      state := draft[BackupKey := Record(map[])];
      out := Done;
    }
  }

  lemma BackupStep(state: Config, payload: Config, done: set<string>, key: string, draft: Config)
    requires key in payload && key != BackupKey
    requires BackupKeys(state, payload, done) == Ok(draft)
    requires SetProperty(Get(draft, BackupKey), key, payload[key]).Ok?
    ensures BackupKeys(state, payload, done + {key})
      == Ok(draft[BackupKey := SetProperty(Get(draft, BackupKey), key, payload[key]).value])
  {
    var before := BackupEntries(payload, done);
    var after := BackupEntries(payload, done + {key});
    assert after == before[key := payload[key]];
    match Get(state, BackupKey)
    case Record(m) =>
      assert draft == state[BackupKey := Record(m + before)];
      assert (m + before)[key := payload[key]] == m + after;
      assert draft[BackupKey := Record(m + after)] == state[BackupKey := Record(m + after)];
    case PanelsVal(_) =>
      assert draft[BackupKey := draft[BackupKey]] == draft;
    case ButtonsVal(_) =>
      assert draft[BackupKey := draft[BackupKey]] == draft;
    case _ =>
  }

  /** The state the restore loops leave, once `backupConfig` is reset, is the specified one. */
  lemma RestoreMatches(state: Config, payload: Config, keys: set<string>, draft: Config)
    requires OwnKeys(Get(state, BackupKey)) == Ok(keys)
    requires draft.Keys == state.Keys + keys
    requires forall k :: k in draft ==>
      draft[k] == if k in keys then Get(payload, k) else if k == BackupKey then state[k] else Undefined
    ensures RestoreBackupPadConfigResult(state, payload) == Ok(draft[BackupKey := Record(map[])])
  {
    var expected := RestoreBackupPadConfigResult(state, payload).value;
    var final := draft[BackupKey := Record(map[])];
    assert final.Keys == expected.Keys;
    forall k | k in final
      ensures final[k] == expected[k]
    {
    }
    assert final == expected;
  }

  lemma BackupNothing(state: Config, payload: Config)
    ensures BackupKeys(state, payload, {}) == Ok(state)
  {
    assert BackupEntries(payload, {}) == map[];
    if Get(state, BackupKey).Record? {
      var m := state[BackupKey].fields;
      assert m + map[] == m;
      assert state[BackupKey := Record(m)] == state;
    }
  }

  lemma BackupFails(state: Config, payload: Config, done: set<string>, key: string)
    requires key in payload && key != BackupKey
    requires BackupKeys(state, payload, done).Ok?
    requires SetProperty(Get(BackupKeys(state, payload, done).value, BackupKey), key, payload[key]).Err?
    ensures BackupPadConfigResult(state, payload).Err?
  {
    var b := Get(state, BackupKey);
    assert !(b.Record? || b.PanelsVal? || b.ButtonsVal?);
    assert key in BackupEntries(payload, payload.Keys);
  }
}
