/**
 * The older pad-configuration reducers. Their `setPadConfig` has no effect,
 * their `setPadThreshold` reads its arguments from the top level of the
 * action, and their `updatePadConfigFromSettings` copies the lists by
 * spreading them.
 */
module LegacyPadConfig {
  import opened Values
  import PadConfig

  /** An action as the reducer sees it: the creator puts its argument in `payload` and nothing at the top level. */
  datatype ThresholdAction = ThresholdAction(payload: Value, panelIndex: Value, sensorIndex: Value, threshold: Value)

  /** The action the `setPadThreshold` creator makes from its argument. */
  function CreatedThresholdAction(payload: Value): (a: ThresholdAction)
    ensures a.payload == payload && a.panelIndex == Undefined && a.sensorIndex == Undefined && a.threshold == Undefined
  {
    ThresholdAction(payload, Undefined, Undefined, Undefined)
  }

  /**
   * `state.panels[action.panelIndex].sensors[action.sensorIndex].threshold = action.threshold`:
   * with numeric top-level indices, the current reducer's threshold update;
   * otherwise the lookup misses and a TypeError follows.
   */
  function SetPadThresholdResult(state: PadConfig.Config, action: ThresholdAction): (r: Result<PadConfig.Config>)
    ensures action.panelIndex.Number? && action.sensorIndex.Number? ==>
      r == PadConfig.SetPadThresholdResult(state, action.panelIndex.n, action.sensorIndex.n, action.threshold)
    ensures !(action.panelIndex.Number? && action.sensorIndex.Number?) ==> r == Err(TypeError)
  {
    match (action.panelIndex, action.sensorIndex)
    case (Number(p), Number(s)) => PadConfig.SetPadThresholdResult(state, p, s, action.threshold)
    case _ => Err(TypeError)
  }

  /** Every action the creator makes throws, whatever the state and the payload. */
  lemma CreatedThresholdActionThrows(state: PadConfig.Config, payload: Value)
    ensures SetPadThresholdResult(state, CreatedThresholdAction(payload)) == Err(TypeError)
  {
  }

  /** `[...v]` of a list: an element-wise equal list; other values are not iterable. */
  function Spread(v: Value): (r: Result<Value>)
    ensures r.Ok? <==> v.PanelsVal? || v.ButtonsVal?
    ensures r.Ok? ==> r.value == v
    ensures r.Err? ==> r.error == TypeError
  {
    match v
    case PanelsVal(_) => Ok(v)
    case ButtonsVal(_) => Ok(v)
    case _ => Err(TypeError)
  }

  /** `general` as in the current reducer, then `panels` and `buttons` become copies of the payload's lists. */
  function UpdatePadConfigFromSettingsResult(state: PadConfig.Config, payload: PadConfig.SettingsPayload): (r: Result<PadConfig.Config>)
    ensures r.Ok? <==> PadConfig.GeneralAssignable(state) && Spread(payload.panels).Ok? && Spread(payload.buttons).Ok?
    ensures r.Err? ==> r.error == TypeError
  {
    match PadConfig.GeneralWithName(state, payload.name)
    case Err(e) => Err(e)
    case Ok(general) =>
      match Spread(payload.panels)
      case Err(e) => Err(e)
      case Ok(panels) =>
        match Spread(payload.buttons)
        case Err(e) => Err(e)
        case Ok(buttons) => Ok(state["general" := general]["panels" := panels]["buttons" := buttons])
  }

  /**
   * Wherever the legacy reducer succeeds it agrees with the current one, and
   * it fails exactly where the current one fails or a list in the payload is
   * not a list.
   */
  lemma UpdateAgreesWithCurrent(state: PadConfig.Config, payload: PadConfig.SettingsPayload)
    ensures var legacy := UpdatePadConfigFromSettingsResult(state, payload);
      var current := PadConfig.UpdatePadConfigFromSettingsResult(state, payload);
      && (legacy.Ok? ==> legacy == current)
      && (legacy.Err? <==> current.Err? || !Spread(payload.panels).Ok? || !Spread(payload.buttons).Ok?)
  {
  }

  /** The legacy store; initially `{}`. */
  class Store {
    var state: PadConfig.Config

    constructor ()
      ensures state == map[]
    {
      state := map[];
    }

    /** Rebinding the reducer's parameter neither mutates the draft nor returns a state. */
    method SetPadConfig(payload: PadConfig.Config)
      ensures state == old(state)
    {
    }

    method SetPadThreshold(action: ThresholdAction) returns (out: Outcome)
      modifies this
      ensures Reduced(SetPadThresholdResult(old(state), action), old(state), state, out)
    {
      if !action.panelIndex.Number? || !action.sensorIndex.Number? {
        return Threw(TypeError);
      }
      var r := PadConfig.SetPadThresholdResult(state, action.panelIndex.n, action.sensorIndex.n, action.threshold);
      if r.Err? {
        return Threw(r.error);
      }
      state := r.value;
      out := Done;
    }

    method UpdatePadConfigFromSettings(payload: PadConfig.SettingsPayload) returns (out: Outcome)
      modifies this
      ensures Reduced(UpdatePadConfigFromSettingsResult(old(state), payload), old(state), state, out)
    {
      var general := PadConfig.GeneralWithName(state, payload.name);
      if general.Err? {
        return Threw(general.error);
      }
      var draft := state["general" := general.value];
      var panels := Spread(payload.panels);
      if panels.Err? {
        return Threw(panels.error);
      }
      draft := draft["panels" := panels.value];
      var buttons := Spread(payload.buttons);
      if buttons.Err? {
        return Threw(buttons.error);
      }
      state := draft["buttons" := buttons.value];
      out := Done;
    }
  }
}
