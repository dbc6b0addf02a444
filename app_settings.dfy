/**
 * The application-settings store: the editing flag, the dark-mode switch,
 * whether thresholds are shown as numbers, and the panel height. The state
 * is an open record, because the editing setter writes a key that the
 * initial state does not have.
 */
module AppSettings {
  import opened Values

  type SettingsState = map<string, Value>

  /** The four settings that have a setter and a selector. */
  datatype Setting = IsEditing | DarkMode | ShowNumericThresholds | PanelHeight

  /** The key each setter writes and each selector reads. */
  function KeyOf(setting: Setting): (key: string)
    ensures setting == IsEditing <==> key == "isEditing"
  {
    match setting
    case IsEditing => "isEditing"
    case DarkMode => "darkMode"
    case ShowNumericThresholds => "showNumericThresholds"
    case PanelHeight => "panelHeight"
  }

  /** The initial state; its flag is stored under `editing`, not under `isEditing`. */
  const InitialSettings: SettingsState :=
    map["editing" := Flag(false), "darkMode" := Flag(true), "showNumericThresholds" := Flag(true), "panelHeight" := Number(400)]

  /** A setter: its own key takes the payload, every other key keeps its value. */
  function Assign(state: SettingsState, setting: Setting, payload: Value): (r: SettingsState)
    ensures r.Keys == state.Keys + {KeyOf(setting)}
    ensures r[KeyOf(setting)] == payload
    ensures forall k :: k in state && k != KeyOf(setting) ==> r[k] == state[k]
  {
    state[KeyOf(setting) := payload]
  }

  /** A selector: the value under the setting's key, `undefined` while it was never set. */
  function Select(state: SettingsState, setting: Setting): (r: Value)
    ensures KeyOf(setting) !in state ==> r == Undefined
    ensures KeyOf(setting) in state ==> r == state[KeyOf(setting)]
  {
    Get(state, KeyOf(setting))
  }

  /** Until `setIsEditing` runs, the editing selector gives `undefined`; the other three give their initial values. */
  lemma InitialSelections()
    ensures Select(InitialSettings, IsEditing) == Undefined
    ensures Select(InitialSettings, DarkMode) == Flag(true)
    ensures Select(InitialSettings, ShowNumericThresholds) == Flag(true)
    ensures Select(InitialSettings, PanelHeight) == Number(400)
    ensures InitialSettings["editing"] == Flag(false)
  {
  }

  /** Setting a field and selecting it gives the value set; selecting any other field gives what it gave before. */
  lemma SelectAfterAssign(state: SettingsState, setting: Setting, payload: Value, other: Setting)
    ensures Select(Assign(state, setting, payload), setting) == payload
    ensures other != setting ==> Select(Assign(state, setting, payload), other) == Select(state, other)
  {
    if other != setting {
      assert KeyOf(other) != KeyOf(setting);
    }
  }

  /** Setters of different fields commute. */
  lemma AssignsCommute(state: SettingsState, a: Setting, x: Value, b: Setting, y: Value)
    requires a != b
    ensures Assign(Assign(state, a, x), b, y) == Assign(Assign(state, b, y), a, x)
  {
    assert KeyOf(a) != KeyOf(b);
  }

  /** The store's state, updated in place by the four setters. */
  class Store {
    var state: SettingsState

    constructor ()
      ensures state == InitialSettings
    {
      state := InitialSettings;
    }

    method SetIsEditing(payload: Value)
      modifies this
      ensures state == Assign(old(state), IsEditing, payload)
    {
      state := state["isEditing" := payload];
    }

    method SetDarkMode(payload: Value)
      modifies this
      ensures state == Assign(old(state), DarkMode, payload)
    {
      state := state["darkMode" := payload];
    }

    method SetShowNumericThresholds(payload: Value)
      modifies this
      ensures state == Assign(old(state), ShowNumericThresholds, payload)
    {
      state := state["showNumericThresholds" := payload];
    }

    method SetPanelHeight(payload: Value)
      modifies this
      ensures state == Assign(old(state), PanelHeight, payload)
    {
      state := state["panelHeight" := payload];
    }
  }
}
