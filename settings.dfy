/**
 * The pad Settings dialog: a form seeded from the device configuration, the
 * regeneration of its panel, sensor and button lists when a count changes,
 * and the dispatch of form events on the field name.
 */
module SettingsPage {
  import opened Values
  import Pins
  import PadConfig

  /** The dialog's form; every field holds whatever the configuration or the input supplied. */
  datatype FormSettings = FormSettings(
    name: Value,
    panelCount: Value,
    sensorCount: Value,
    buttonCount: Value,
    panelThresholdLiftGap: Value,
    panels: Value,
    buttons: Value,
    invertedDigitalButtonLogic: Value)

  /** The form before the dialog was first shown. */
  const InitialForm: FormSettings :=
    FormSettings(Text(""), Number(0), Number(0), Number(0), Number(0), PanelsVal([]), ButtonsVal([]), Flag(false))

  /** A panel neither the form nor the device configuration has. */
  const DefaultPanel: Panel := Panel(Number(1), Number(3), Number(20), Number(3), [])

  /** A button neither the form nor the device configuration has. */
  const DefaultButton: Button := Button(Number(0), Number(0))

  /** The threshold of a sensor neither the form nor the device configuration has. */
  const DefaultThreshold: int := 30

  /**
   * The number of iterations of `for (i = 0; i < count; i++)`: a number
   * bounds the loop, `true` is 1, and `false`, `undefined` and every other
   * value make the comparison false from the start.
   */
  function IterationBound(count: Value): (r: nat)
    ensures count.Number? ==> r == if count.n < 0 then 0 else count.n
    ensures count.Flag? ==> r == if count.b then 1 else 0
    ensures !count.Number? && !count.Flag? ==> r == 0
  {
    match count
    case Number(n) => if n < 0 then 0 else n
    case Flag(b) => if b then 1 else 0
    case _ => 0
  }

  // ----- where each element comes from -----

  /** `list[i]` names a panel: the value is a panel list with an entry at `i`. */
  predicate HasPanel(list: Value, i: int) {
    list.PanelsVal? && 0 <= i < |list.panels|
  }

  /** `list[i]?.sensors?.[j]` names a sensor. */
  predicate HasSensor(list: Value, i: int, j: int) {
    HasPanel(list, i) && 0 <= j < |list.panels[i].sensors|
  }

  predicate HasButton(list: Value, i: int) {
    list.ButtonsVal? && 0 <= i < |list.buttons|
  }

  /**
   * Panel `i`: the form's, else the configuration's, else the default. Indexing
   * an `undefined` list throws; the configuration's list is only read when the
   * form has no panel `i`.
   */
  function PanelChoice(formPanels: Value, configPanels: Value, i: nat): (r: Result<Panel>)
    ensures r.Err? <==> formPanels.Undefined? || (!HasPanel(formPanels, i) && configPanels.Undefined?)
    ensures r.Err? ==> r.error == TypeError
    ensures HasPanel(formPanels, i) ==> r == Ok(formPanels.panels[i])
    ensures !formPanels.Undefined? && !HasPanel(formPanels, i) && HasPanel(configPanels, i) ==>
      r == Ok(configPanels.panels[i])
    ensures r.Ok? && !HasPanel(formPanels, i) && !HasPanel(configPanels, i) ==> r == Ok(DefaultPanel)
  {
    if formPanels.Undefined? then Err(TypeError)
    else if HasPanel(formPanels, i) then Ok(formPanels.panels[i])
    else if configPanels.Undefined? then Err(TypeError)
    else if HasPanel(configPanels, i) then Ok(configPanels.panels[i])
    else Ok(DefaultPanel)
  }

  /**
   * The pin of a new sensor: the first analog pin of `general.controller`;
   * `None` where that lookup throws (no `general`, or a controller the pin
   * tables do not have).
   */
  function DefaultSensorPin(general: Value): (r: Option<int>)
    ensures r.Some? <==> general.Record? && Property(general, "controller").Text?
                         && Pins.PinsOf(Property(general, "controller").s).Some?
    ensures r.Some? ==> r.value == 14
  {
    match Property(general, "controller")
    case Text(controller) => if general.Record? then Pins.FirstAnalogPin(controller) else None
    case _ => None
  }

  /** Sensor `j` of panel `i`: the form's, else the configuration's, else a default on the controller's first analog pin. */
  function SensorChoice(formPanels: Value, configPanels: Value, general: Value, i: nat, j: nat): (r: Result<Sensor>)
    ensures r.Err? <==>
      || formPanels.Undefined?
      || (!HasSensor(formPanels, i, j) && configPanels.Undefined?)
      || (!HasSensor(formPanels, i, j) && !HasSensor(configPanels, i, j) && DefaultSensorPin(general).None?)
    ensures r.Err? ==> r.error == TypeError
    ensures HasSensor(formPanels, i, j) ==> r == Ok(formPanels.panels[i].sensors[j])
    ensures !formPanels.Undefined? && !HasSensor(formPanels, i, j) && HasSensor(configPanels, i, j) ==>
      r == Ok(configPanels.panels[i].sensors[j])
    ensures r.Ok? && !HasSensor(formPanels, i, j) && !HasSensor(configPanels, i, j) ==>
      r == Ok(Sensor(Number(DefaultThreshold), Number(DefaultSensorPin(general).value)))
  {
    if formPanels.Undefined? then Err(TypeError)
    else if HasSensor(formPanels, i, j) then Ok(formPanels.panels[i].sensors[j])
    else if configPanels.Undefined? then Err(TypeError)
    else if HasSensor(configPanels, i, j) then Ok(configPanels.panels[i].sensors[j])
    else match DefaultSensorPin(general)
      case Some(pin) => Ok(Sensor(Number(DefaultThreshold), Number(pin)))
      case None => Err(TypeError)
  }

  function ButtonChoice(formButtons: Value, configButtons: Value, i: nat): (r: Result<Button>)
    ensures r.Err? <==> formButtons.Undefined? || (!HasButton(formButtons, i) && configButtons.Undefined?)
    ensures r.Err? ==> r.error == TypeError
    ensures HasButton(formButtons, i) ==> r == Ok(formButtons.buttons[i])
    ensures !formButtons.Undefined? && !HasButton(formButtons, i) && HasButton(configButtons, i) ==>
      r == Ok(configButtons.buttons[i])
    ensures r.Ok? && !HasButton(formButtons, i) && !HasButton(configButtons, i) ==> r == Ok(DefaultButton)
  {
    if formButtons.Undefined? then Err(TypeError)
    else if HasButton(formButtons, i) then Ok(formButtons.buttons[i])
    else if configButtons.Undefined? then Err(TypeError)
    else if HasButton(configButtons, i) then Ok(configButtons.buttons[i])
    else Ok(DefaultButton)
  }

  // ----- the regenerated lists -----

  /** Choices are all defined up to `n` panels of `m` sensors. */
  ghost predicate PanelsChosen(formPanels: Value, configPanels: Value, general: Value, n: nat, m: nat) {
    && (forall i :: 0 <= i < n ==> PanelChoice(formPanels, configPanels, i).Ok?)
    && (forall i, j :: 0 <= i < n && 0 <= j < m ==> SensorChoice(formPanels, configPanels, general, i, j).Ok?)
  }

  /**
   * `p` is the panel the generation puts at index `i`: the panel choice's own
   * fields and exactly `m` sensors, each from its sensor choice.
   */
  ghost predicate Filled(p: Panel, formPanels: Value, configPanels: Value, general: Value, i: nat, m: nat) {
    && PanelChoice(formPanels, configPanels, i).Ok?
    && p.(sensors := []) == PanelChoice(formPanels, configPanels, i).value.(sensors := [])
    && |p.sensors| == m
    && forall j :: 0 <= j < m ==> SensorChoice(formPanels, configPanels, general, i, j) == Ok(p.sensors[j])
  }

  /**
   * The panels `generateUpdatedPanels` returns: exactly `n` panels of exactly
   * `m` sensors, each panel's own fields from its panel choice and each
   * sensor from its sensor choice; a TypeError when any choice throws.
   */
  ghost function GeneratedPanels(formPanels: Value, configPanels: Value, general: Value, n: nat, m: nat): (r: Result<seq<Panel>>)
    ensures r.Ok? <==> PanelsChosen(formPanels, configPanels, general, n, m)
    ensures r.Err? ==> r.error == TypeError
    ensures r.Ok? ==> |r.value| == n && forall i :: 0 <= i < n ==> Filled(r.value[i], formPanels, configPanels, general, i, m)
  {
    if PanelsChosen(formPanels, configPanels, general, n, m) then
      Ok(seq(n, i requires 0 <= i < n =>
        PanelChoice(formPanels, configPanels, i).value.(sensors := seq(m, j requires 0 <= j < m =>
          SensorChoice(formPanels, configPanels, general, i, j).value))))
    else Err(TypeError)
  }

  lemma PanelsAgree(p: Panel, q: Panel)
    requires p.(sensors := []) == q.(sensors := [])
    requires p.sensors == q.sensors
    ensures p == q
  {
    assert p.gamepadButton == p.(sensors := []).gamepadButton;
    assert p.ledOrder == p.(sensors := []).ledOrder;
    assert p.statusLedPin == p.(sensors := []).statusLedPin;
    assert p.stepOrder == p.(sensors := []).stepOrder;
    assert q.gamepadButton == q.(sensors := []).gamepadButton;
    assert q.ledOrder == q.(sensors := []).ledOrder;
    assert q.statusLedPin == q.(sensors := []).statusLedPin;
    assert q.stepOrder == q.(sensors := []).stepOrder;
  }

  /** A list that agrees with every choice is the generated one. */
  lemma SameGeneratedPanels(formPanels: Value, configPanels: Value, general: Value, n: nat, m: nat, panels: seq<Panel>)
    requires |panels| == n
    requires forall i :: 0 <= i < n ==> Filled(panels[i], formPanels, configPanels, general, i, m)
    ensures GeneratedPanels(formPanels, configPanels, general, n, m) == Ok(panels)
  {
    assert PanelsChosen(formPanels, configPanels, general, n, m) by {
      forall i | 0 <= i < n
        ensures PanelChoice(formPanels, configPanels, i).Ok?
      {
        assert Filled(panels[i], formPanels, configPanels, general, i, m);
      }
      forall i, j | 0 <= i < n && 0 <= j < m
        ensures SensorChoice(formPanels, configPanels, general, i, j).Ok?
      {
        assert Filled(panels[i], formPanels, configPanels, general, i, m);
      }
    }
    var g := GeneratedPanels(formPanels, configPanels, general, n, m).value;
    forall i | 0 <= i < n
      ensures g[i] == panels[i]
    {
      assert Filled(g[i], formPanels, configPanels, general, i, m);
      assert Filled(panels[i], formPanels, configPanels, general, i, m);
      assert g[i].sensors == panels[i].sensors;
      PanelsAgree(g[i], panels[i]);
    }
    assert g == panels;
  }

  lemma FilledStep(p: Panel, sensors: seq<Sensor>, formPanels: Value, configPanels: Value, general: Value, i: nat, m: nat)
    requires PanelChoice(formPanels, configPanels, i) == Ok(p)
    requires |sensors| == m
    requires forall j :: 0 <= j < m ==> SensorChoice(formPanels, configPanels, general, i, j) == Ok(sensors[j])
    ensures Filled(p.(sensors := sensors), formPanels, configPanels, general, i, m)
  {
  }

  lemma GenerationFailsAtPanel(formPanels: Value, configPanels: Value, general: Value, n: nat, m: nat, i: nat)
    requires i < n && PanelChoice(formPanels, configPanels, i).Err?
    ensures GeneratedPanels(formPanels, configPanels, general, n, m) == Err(TypeError)
  {
  }

  lemma GenerationFailsAtSensor(formPanels: Value, configPanels: Value, general: Value, n: nat, m: nat, i: nat, j: nat)
    requires i < n && j < m && SensorChoice(formPanels, configPanels, general, i, j).Err?
    ensures GeneratedPanels(formPanels, configPanels, general, n, m) == Err(TypeError)
  {
  }

  /** `generateUpdatedPanels`: a first loop picks the panels, a second resets and refills each panel's sensors. */
  method GenerateUpdatedPanels(formPanels: Value, configPanels: Value, general: Value, panelCount: Value, sensorCount: Value)
    returns (r: Result<seq<Panel>>)
    ensures r == GeneratedPanels(formPanels, configPanels, general, IterationBound(panelCount), IterationBound(sensorCount))
  {
    var n := IterationBound(panelCount);
    var m := IterationBound(sensorCount);
    var panels: seq<Panel> := [];
    var panelIndex := 0;
    while panelIndex < n
      invariant 0 <= panelIndex <= n
      invariant |panels| == panelIndex
      invariant forall i :: 0 <= i < panelIndex ==> PanelChoice(formPanels, configPanels, i) == Ok(panels[i])
    {
      if HasPanel(formPanels, panelIndex) {
        panels := panels + [formPanels.panels[panelIndex]];
      } else if formPanels.Undefined? || configPanels.Undefined? {
        GenerationFailsAtPanel(formPanels, configPanels, general, n, m, panelIndex);
        return Err(TypeError);
      } else if HasPanel(configPanels, panelIndex) {
        panels := panels + [configPanels.panels[panelIndex]];
      } else {
        panels := panels + [DefaultPanel];
      }
      panelIndex := panelIndex + 1;
    }
    panelIndex := 0;
    while panelIndex < n
      invariant 0 <= panelIndex <= n
      invariant |panels| == n
      invariant forall i :: 0 <= i < panelIndex ==> Filled(panels[i], formPanels, configPanels, general, i, m)
      invariant forall i :: panelIndex <= i < n ==> PanelChoice(formPanels, configPanels, i) == Ok(panels[i])
    {
      var sensors := FillSensors(formPanels, configPanels, general, panelIndex, m);
      if sensors.Err? {
        ghost var j :| 0 <= j < m && SensorChoice(formPanels, configPanels, general, panelIndex, j).Err?;
        GenerationFailsAtSensor(formPanels, configPanels, general, n, m, panelIndex, j);
        return Err(TypeError);
      }
      FilledStep(panels[panelIndex], sensors.value, formPanels, configPanels, general, panelIndex, m);
      panels := panels[panelIndex := panels[panelIndex].(sensors := sensors.value)];
      panelIndex := panelIndex + 1;
    }
    SameGeneratedPanels(formPanels, configPanels, general, n, m, panels);
    return Ok(panels);
  }

  /** The inner loop of `generateUpdatedPanels`: the `m` sensors of panel `panelIndex`, in order. */
  method FillSensors(formPanels: Value, configPanels: Value, general: Value, panelIndex: nat, m: nat)
    returns (r: Result<seq<Sensor>>)
    ensures r.Ok? ==> |r.value| == m
    ensures r.Ok? ==> forall j :: 0 <= j < m ==> SensorChoice(formPanels, configPanels, general, panelIndex, j) == Ok(r.value[j])
    ensures r.Err? ==> r.error == TypeError && exists j :: 0 <= j < m && SensorChoice(formPanels, configPanels, general, panelIndex, j).Err?
  {
    var sensors: seq<Sensor> := [];
    var sensorIndex := 0;
    while sensorIndex < m
      invariant 0 <= sensorIndex <= m
      invariant |sensors| == sensorIndex
      invariant forall j :: 0 <= j < sensorIndex ==>
        SensorChoice(formPanels, configPanels, general, panelIndex, j) == Ok(sensors[j])
    {
      var sensor := SensorOf(formPanels, configPanels, general, panelIndex, sensorIndex);
      if sensor.Err? {
        return Err(TypeError);
      }
      sensors := sensors + [sensor.value];
      sensorIndex := sensorIndex + 1;
    }
    return Ok(sensors);
  }

  /**
   * One step of the inner loop: the form's sensor if there is one, else the
   * configuration's, else the default, throwing where the lookups throw.
   */
  method SensorOf(formPanels: Value, configPanels: Value, general: Value, panelIndex: nat, sensorIndex: nat)
    returns (r: Result<Sensor>)
    ensures r == SensorChoice(formPanels, configPanels, general, panelIndex, sensorIndex)
  {
    if formPanels.Undefined? {
      return Err(TypeError);
    }
    if HasSensor(formPanels, panelIndex, sensorIndex) {
      return Ok(formPanels.panels[panelIndex].sensors[sensorIndex]);
    }
    if configPanels.Undefined? {
      return Err(TypeError);
    }
    if HasSensor(configPanels, panelIndex, sensorIndex) {
      return Ok(configPanels.panels[panelIndex].sensors[sensorIndex]);
    }
    var pin := DefaultSensorPin(general);
    if pin.None? {
      return Err(TypeError);
    }
    return Ok(Sensor(Number(DefaultThreshold), Number(pin.value)));
  }

  /** The buttons `generateUpdatedButtons` returns: exactly `k`, each from its button choice. */
  ghost function GeneratedButtons(formButtons: Value, configButtons: Value, k: nat): (r: Result<seq<Button>>)
    ensures r.Ok? <==> forall i :: 0 <= i < k ==> ButtonChoice(formButtons, configButtons, i).Ok?
    ensures r.Err? ==> r.error == TypeError
    ensures r.Ok? ==> |r.value| == k
    ensures r.Ok? ==> forall i :: 0 <= i < k ==> r.value[i] == ButtonChoice(formButtons, configButtons, i).value
  {
    if forall i :: 0 <= i < k ==> ButtonChoice(formButtons, configButtons, i).Ok? then
      Ok(seq(k, i requires 0 <= i < k => ButtonChoice(formButtons, configButtons, i).value))
    else Err(TypeError)
  }

  /** `generateUpdatedButtons`: one loop over the buttons. */
  method GenerateUpdatedButtons(formButtons: Value, configButtons: Value, buttonCount: Value) returns (r: Result<seq<Button>>)
    ensures r == GeneratedButtons(formButtons, configButtons, IterationBound(buttonCount))
  {
    var k := IterationBound(buttonCount);
    var buttons: seq<Button> := [];
    var buttonIndex := 0;
    while buttonIndex < k
      invariant 0 <= buttonIndex <= k
      invariant |buttons| == buttonIndex
      invariant forall i :: 0 <= i < buttonIndex ==> ButtonChoice(formButtons, configButtons, i) == Ok(buttons[i])
    {
      if HasButton(formButtons, buttonIndex) {
        buttons := buttons + [formButtons.buttons[buttonIndex]];
      } else if formButtons.Undefined? || configButtons.Undefined? {
        assert ButtonChoice(formButtons, configButtons, buttonIndex).Err?;
        return Err(TypeError);
      } else if HasButton(configButtons, buttonIndex) {
        buttons := buttons + [configButtons.buttons[buttonIndex]];
      } else {
        buttons := buttons + [DefaultButton];
      }
      buttonIndex := buttonIndex + 1;
    }
    assert GeneratedButtons(formButtons, configButtons, k).Ok?;
    assert GeneratedButtons(formButtons, configButtons, k).value == buttons;
    return Ok(buttons);
  }

  // ----- properties of regeneration -----

  /**
   * Lowering the counts keeps a prefix of what the form holds: when the form
   * already has `n` panels with `m` sensors each, the regenerated list is its
   * first `n` panels cut to their first `m` sensors.
   */
  lemma RegenerationKeepsFormPrefix(formPanels: seq<Panel>, configPanels: Value, general: Value, n: nat, m: nat)
    requires n <= |formPanels|
    requires forall i :: 0 <= i < n ==> m <= |formPanels[i].sensors|
    ensures GeneratedPanels(PanelsVal(formPanels), configPanels, general, n, m)
      == Ok(seq(n, i requires 0 <= i < n => formPanels[i].(sensors := formPanels[i].sensors[..m])))
  {
    var form := PanelsVal(formPanels);
    var expected := seq(n, i requires 0 <= i < n => formPanels[i].(sensors := formPanels[i].sensors[..m]));
    assert PanelsChosen(form, configPanels, general, n, m) by {
      forall i, j | 0 <= i < n && 0 <= j < m
        ensures SensorChoice(form, configPanels, general, i, j).Ok?
      {
        assert HasSensor(form, i, j);
      }
    }
    SameGeneratedPanels(form, configPanels, general, n, m, expected);
  }

  /** Regenerating with the counts the form's lists already have gives the form's lists back. */
  lemma RegenerationWithSameCountsIsIdentity(formPanels: seq<Panel>, configPanels: Value, general: Value, m: nat)
    requires forall i :: 0 <= i < |formPanels| ==> |formPanels[i].sensors| == m
    ensures GeneratedPanels(PanelsVal(formPanels), configPanels, general, |formPanels|, m) == Ok(formPanels)
  {
    RegenerationKeepsFormPrefix(formPanels, configPanels, general, |formPanels|, m);
    var g := seq(|formPanels|, i requires 0 <= i < |formPanels| => formPanels[i].(sensors := formPanels[i].sensors[..m]));
    forall i | 0 <= i < |formPanels|
      ensures g[i] == formPanels[i]
    {
      assert formPanels[i].sensors[..m] == formPanels[i].sensors;
    }
    assert g == formPanels;
  }

  /** The button list likewise keeps its first `k` entries when the count drops. */
  lemma ButtonRegenerationKeepsFormPrefix(formButtons: seq<Button>, configButtons: Value, k: nat)
    requires k <= |formButtons|
    ensures GeneratedButtons(ButtonsVal(formButtons), configButtons, k) == Ok(formButtons[..k])
  {
    var g := GeneratedButtons(ButtonsVal(formButtons), configButtons, k);
    assert forall i :: 0 <= i < k ==> ButtonChoice(ButtonsVal(formButtons), configButtons, i).Ok?;
    assert g.value == formButtons[..k];
  }

  /**
   * Growing past the form's panels on a known controller: the new panels are
   * the defaults, and their sensors are default sensors on pin 14, unless the
   * device configuration has them.
   */
  lemma GrownPanelsAreDefaults(configPanels: seq<Panel>, general: Value, n: nat, m: nat, i: nat, j: nat)
    requires DefaultSensorPin(general).Some?
    requires |configPanels| <= i < n && j < m
    ensures var g := GeneratedPanels(PanelsVal([]), PanelsVal(configPanels), general, n, m);
      && g.Ok?
      && g.value[i].(sensors := []) == DefaultPanel
      && g.value[i].sensors[j] == Sensor(Number(DefaultThreshold), Number(14))
  {
    var form := PanelsVal([]);
    var config := PanelsVal(configPanels);
    assert PanelsChosen(form, config, general, n, m) by {
      forall i', j' | 0 <= i' < n && 0 <= j' < m
        ensures SensorChoice(form, config, general, i', j').Ok?
      {
      }
    }
  }

  /** A mounted dialog computes no panels: the component reads counts that its state does not have. */
  lemma MountGeneratesNothing(formPanels: Value, configPanels: Value, general: Value)
    ensures GeneratedPanels(formPanels, configPanels, general, IterationBound(Undefined), IterationBound(Undefined)) == Ok([])
  {
  }

  // ----- the form events -----

  /** The parts of `$event.target` the handler reads. */
  datatype EventTarget = EventTarget(name: Value, value: Value, checked: Value)

  /**
   * What a form event leaves behind: the form (mutated in place, so a count
   * written before a throw stays written) and how the handler ended.
   */
  datatype FormUpdate = FormUpdate(form: FormSettings, outcome: Outcome)

  /** The form the dialog opens with: counts and names read from the configuration, its lists taken as they are. */
  function OpenedForm(padConfig: PadConfig.Config): (f: FormSettings)
    ensures f.name == PadConfig.SelectPadName(padConfig)
    ensures f.panels == Get(padConfig, "panels") && f.buttons == Get(padConfig, "buttons")
    ensures Get(padConfig, "panels").PanelsVal? ==> f.panelCount == PadConfig.SelectPanelsCount(padConfig)
    ensures Get(padConfig, "panels").Undefined? ==> f.panelCount == Undefined
    ensures HasPanel(Get(padConfig, "panels"), 0) ==> f.sensorCount == Number(PadConfig.SelectSensorsCount(padConfig))
    ensures !HasPanel(Get(padConfig, "panels"), 0) ==> f.sensorCount == Undefined
    ensures Get(padConfig, "buttons").ButtonsVal? ==> f.buttonCount == Number(|padConfig["buttons"].buttons|)
    ensures f.panelThresholdLiftGap == Property(Get(padConfig, "general"), "panelThresholdLiftGap")
    ensures f.invertedDigitalButtonLogic == Property(Get(padConfig, "general"), "invertedDigitalButtonLogic")
  {
    var general := Get(padConfig, "general");
    var panels := Get(padConfig, "panels");
    FormSettings(
      Property(general, "name"),
      LengthOf(panels),
      if HasPanel(panels, 0) then Number(|panels.panels[0].sensors|) else Undefined,
      LengthOf(Get(padConfig, "buttons")),
      Property(general, "panelThresholdLiftGap"),
      panels,
      Get(padConfig, "buttons"),
      Property(general, "invertedDigitalButtonLogic"))
  }

  /** `panels[padIndex].gamepadButton = value`, on the form's panel list. */
  function WithGamepadButton(panels: Value, padIndex: Value, value: Value): (r: Result<Value>)
    ensures r.Ok? <==> padIndex.Number? && HasPanel(panels, padIndex.n)
    ensures r.Err? ==> r.error == TypeError
    ensures r.Ok? ==>
      && r.value.PanelsVal?
      && |r.value.panels| == |panels.panels|
      && (forall i :: 0 <= i < |panels.panels| && i != padIndex.n ==> r.value.panels[i] == panels.panels[i])
      && r.value.panels[padIndex.n] == panels.panels[padIndex.n].(gamepadButton := value)
  {
    if padIndex.Number? && HasPanel(panels, padIndex.n) then
      var p := padIndex.n;
      Ok(PanelsVal(panels.panels[p := panels.panels[p].(gamepadButton := value)]))
    else Err(TypeError)
  }

  /** `panels[padIndex].sensors[sensorIndex].teensyPin = value`, on the form's panel list. */
  function WithSensorPin(panels: Value, padIndex: Value, sensorIndex: Value, value: Value): (r: Result<Value>)
    ensures r.Ok? <==> padIndex.Number? && sensorIndex.Number? && HasSensor(panels, padIndex.n, sensorIndex.n)
    ensures r.Err? ==> r.error == TypeError
    ensures r.Ok? ==>
      var p, s := padIndex.n, sensorIndex.n;
      && r.value.PanelsVal?
      && |r.value.panels| == |panels.panels|
      && (forall i :: 0 <= i < |panels.panels| && i != p ==> r.value.panels[i] == panels.panels[i])
      && r.value.panels[p].(sensors := panels.panels[p].sensors) == panels.panels[p]
      && |r.value.panels[p].sensors| == |panels.panels[p].sensors|
      && (forall j :: 0 <= j < |panels.panels[p].sensors| && j != s ==> r.value.panels[p].sensors[j] == panels.panels[p].sensors[j])
      && r.value.panels[p].sensors[s] == panels.panels[p].sensors[s].(teensyPin := value)
  {
    if padIndex.Number? && sensorIndex.Number? && HasSensor(panels, padIndex.n, sensorIndex.n) then
      var p, s := padIndex.n, sensorIndex.n;
      var ss := panels.panels[p].sensors;
      Ok(PanelsVal(panels.panels[p := panels.panels[p].(sensors := ss[s := ss[s].(teensyPin := value)])]))
    else Err(TypeError)
  }

  /** The fields `handleFormValueUpdate` tells apart by `$event.target?.name`. */
  datatype Field =
    | NameField | PanelCountField | SensorCountField | ButtonCountField
    | LiftGapField | GamepadButtonField | SensorPinField | InvertedLogicField
    | OtherField

  /** The field an event is for; a missing target, or a name the handler does not test, is `OtherField`. */
  function FieldOf(target: Option<EventTarget>): (f: Field)
    ensures target.None? ==> f == OtherField
  {
    if target.None? then OtherField
    else
      var name := target.value.name;
      if name == Text("name") then NameField
      else if name == Text("panelCount") then PanelCountField
      else if name == Text("sensorCount") then SensorCountField
      else if name == Text("buttonCount") then ButtonCountField
      else if name == Text("panelThresholdLiftGap") then LiftGapField
      else if name == Text("gamepadButton") then GamepadButtonField
      else if name == Text("sensorPinSelect") then SensorPinField
      else if name == Text("invertedDigitalButtonLogic") then InvertedLogicField
      else OtherField
  }

  /** The names the form's inputs carry, classified; the two button editors are not among the handled ones. */
  lemma FieldNames(v: Value, c: Value)
    ensures FieldOf(Some(EventTarget(Text("name"), v, c))) == NameField
    ensures FieldOf(Some(EventTarget(Text("panelCount"), v, c))) == PanelCountField
    ensures FieldOf(Some(EventTarget(Text("sensorCount"), v, c))) == SensorCountField
    ensures FieldOf(Some(EventTarget(Text("buttonCount"), v, c))) == ButtonCountField
    ensures FieldOf(Some(EventTarget(Text("panelThresholdLiftGap"), v, c))) == LiftGapField
    ensures FieldOf(Some(EventTarget(Text("gamepadButton"), v, c))) == GamepadButtonField
    ensures FieldOf(Some(EventTarget(Text("sensorPinSelect"), v, c))) == SensorPinField
    ensures FieldOf(Some(EventTarget(Text("invertedDigitalButtonLogic"), v, c))) == InvertedLogicField
    ensures FieldOf(Some(EventTarget(Text("buttonGamepadButton"), v, c))) == OtherField
    ensures FieldOf(Some(EventTarget(Text("buttonPinSelect"), v, c))) == OtherField
  {
  }

  /** The form with new counts and, when the regeneration succeeded, the regenerated panel list. */
  ghost function Reshaped(form: FormSettings, padConfig: PadConfig.Config): (u: FormUpdate)
    ensures u.form.(panels := form.panels) == form
  {
    match GeneratedPanels(form.panels, Get(padConfig, "panels"), Get(padConfig, "general"),
                          IterationBound(form.panelCount), IterationBound(form.sensorCount))
    case Ok(panels) => FormUpdate(form.(panels := PanelsVal(panels)), Done)
    case Err(e) => FormUpdate(form, Threw(e))
  }

  /** The form with a new button count and, when the regeneration succeeded, the regenerated button list. */
  ghost function ReshapedButtons(form: FormSettings, padConfig: PadConfig.Config): (u: FormUpdate)
    ensures u.form.(buttons := form.buttons) == form
  {
    match GeneratedButtons(form.buttons, Get(padConfig, "buttons"), IterationBound(form.buttonCount))
    case Ok(buttons) => FormUpdate(form.(buttons := ButtonsVal(buttons)), Done)
    case Err(e) => FormUpdate(form, Threw(e))
  }

  /**
   * `handleFormValueUpdate`: text fields and the switch set their one field;
   * a count that differs from the stored one is stored and the lists are
   * regenerated; the two list edits write into the listed panel; an unknown
   * field or a missing target changes nothing.
   */
  ghost function FormValueUpdateResult(form: FormSettings, padConfig: PadConfig.Config,
                                       target: Option<EventTarget>, padIndex: Value, sensorIndex: Value): (u: FormUpdate)
  {
    match FieldOf(target)
    case OtherField => FormUpdate(form, Done)
    case NameField => FormUpdate(form.(name := target.value.value), Done)
    case PanelCountField =>
      if form.panelCount != target.value.value then Reshaped(form.(panelCount := target.value.value), padConfig)
      else FormUpdate(form, Done)
    case SensorCountField =>
      if form.sensorCount != target.value.value then Reshaped(form.(sensorCount := target.value.value), padConfig)
      else FormUpdate(form, Done)
    case ButtonCountField =>
      if form.buttonCount != target.value.value then ReshapedButtons(form.(buttonCount := target.value.value), padConfig)
      else FormUpdate(form, Done)
    case LiftGapField => FormUpdate(form.(panelThresholdLiftGap := target.value.value), Done)
    case GamepadButtonField =>
      (match WithGamepadButton(form.panels, padIndex, target.value.value)
       case Ok(panels) => FormUpdate(form.(panels := panels), Done)
       case Err(e) => FormUpdate(form, Threw(e)))
    case SensorPinField =>
      (match WithSensorPin(form.panels, padIndex, sensorIndex, target.value.value)
       case Ok(panels) => FormUpdate(form.(panels := panels), Done)
       case Err(e) => FormUpdate(form, Threw(e)))
    case InvertedLogicField => FormUpdate(form.(invertedDigitalButtonLogic := target.value.checked), Done)
  }

  /**
   * What each kind of event does: the text fields and the switch set their
   * one field, a count event equal to the stored count changes nothing, a
   * different one stores the count and regenerates, the list edits write
   * into the addressed panel or throw, and any other event changes nothing.
   */
  lemma FormValueUpdateCases(form: FormSettings, padConfig: PadConfig.Config,
                             target: Option<EventTarget>, padIndex: Value, sensorIndex: Value)
    ensures FieldOf(target) == OtherField ==> FormValueUpdateResult(form, padConfig, target, padIndex, sensorIndex) == FormUpdate(form, Done)
    ensures FieldOf(target) == NameField ==> FormValueUpdateResult(form, padConfig, target, padIndex, sensorIndex) == FormUpdate(form.(name := target.value.value), Done)
    ensures FieldOf(target) == LiftGapField ==> FormValueUpdateResult(form, padConfig, target, padIndex, sensorIndex) == FormUpdate(form.(panelThresholdLiftGap := target.value.value), Done)
    ensures FieldOf(target) == InvertedLogicField ==>
      FormValueUpdateResult(form, padConfig, target, padIndex, sensorIndex) == FormUpdate(form.(invertedDigitalButtonLogic := target.value.checked), Done)
    ensures FieldOf(target) == PanelCountField ==>
      FormValueUpdateResult(form, padConfig, target, padIndex, sensorIndex) == if form.panelCount == target.value.value then FormUpdate(form, Done)
           else Reshaped(form.(panelCount := target.value.value), padConfig)
    ensures FieldOf(target) == SensorCountField ==>
      FormValueUpdateResult(form, padConfig, target, padIndex, sensorIndex) == if form.sensorCount == target.value.value then FormUpdate(form, Done)
           else Reshaped(form.(sensorCount := target.value.value), padConfig)
    ensures FieldOf(target) == ButtonCountField ==>
      FormValueUpdateResult(form, padConfig, target, padIndex, sensorIndex) == if form.buttonCount == target.value.value then FormUpdate(form, Done)
           else ReshapedButtons(form.(buttonCount := target.value.value), padConfig)
    ensures FieldOf(target) == GamepadButtonField ==>
      var w := WithGamepadButton(form.panels, padIndex, target.value.value);
      FormValueUpdateResult(form, padConfig, target, padIndex, sensorIndex) == if w.Ok? then FormUpdate(form.(panels := w.value), Done) else FormUpdate(form, Threw(w.error))
    ensures FieldOf(target) == SensorPinField ==>
      var w := WithSensorPin(form.panels, padIndex, sensorIndex, target.value.value);
      FormValueUpdateResult(form, padConfig, target, padIndex, sensorIndex) == if w.Ok? then FormUpdate(form.(panels := w.value), Done) else FormUpdate(form, Threw(w.error))
  {
  }

  /**
   * The two button editors send `buttonGamepadButton` and `buttonPinSelect`
   * events with the button's index, and the handler tests neither name, so
   * such an edit leaves the form exactly as it was.
   */
  lemma ButtonEditsChangeNothing(form: FormSettings, padConfig: PadConfig.Config, v: Value, c: Value, buttonIndex: Value)
    ensures FormValueUpdateResult(form, padConfig, Some(EventTarget(Text("buttonGamepadButton"), v, c)), buttonIndex, Undefined)
            == FormUpdate(form, Done)
    ensures FormValueUpdateResult(form, padConfig, Some(EventTarget(Text("buttonPinSelect"), v, c)), buttonIndex, Undefined)
            == FormUpdate(form, Done)
  {
    FieldNames(v, c);
  }

  /** `buttons[i].gamepadButton = value` (or `.teensyPin` when `pin`), on the form's button list. */
  function WithButtonField(buttons: Value, buttonIndex: Value, pin: bool, value: Value): (r: Result<Value>)
    ensures r.Ok? <==> buttonIndex.Number? && HasButton(buttons, buttonIndex.n)
    ensures r.Err? ==> r.error == TypeError
    ensures r.Ok? ==>
      && r.value.ButtonsVal?
      && |r.value.buttons| == |buttons.buttons|
      && (forall i :: 0 <= i < |buttons.buttons| && i != buttonIndex.n ==> r.value.buttons[i] == buttons.buttons[i])
      && r.value.buttons[buttonIndex.n]
         == if pin then buttons.buttons[buttonIndex.n].(teensyPin := value) else buttons.buttons[buttonIndex.n].(gamepadButton := value)
  {
    if buttonIndex.Number? && HasButton(buttons, buttonIndex.n) then
      var b, button := buttonIndex.n, buttons.buttons[buttonIndex.n];
      Ok(ButtonsVal(buttons.buttons[b := if pin then button.(teensyPin := value) else button.(gamepadButton := value)]))
    else Err(TypeError)
  }

  /**
   * The handler with the two button branches the editors evidently expect:
   * a button edit writes the one field of the addressed button, and every
   * other event is handled as before.
   */
  ghost function IntendedFormValueUpdateResult(form: FormSettings, padConfig: PadConfig.Config,
                                               target: Option<EventTarget>, padIndex: Value, sensorIndex: Value): (u: FormUpdate)
    ensures target.Some? && target.value.name in {Text("buttonGamepadButton"), Text("buttonPinSelect")} ==>
      var w := WithButtonField(form.buttons, padIndex, target.value.name == Text("buttonPinSelect"), target.value.value);
      && (w.Ok? ==> u == FormUpdate(form.(buttons := w.value), Done))
      && (w.Err? ==> u == FormUpdate(form, Threw(TypeError)))
    ensures !(target.Some? && target.value.name in {Text("buttonGamepadButton"), Text("buttonPinSelect")}) ==>
      u == FormValueUpdateResult(form, padConfig, target, padIndex, sensorIndex)
  {
    if target.Some? && target.value.name in {Text("buttonGamepadButton"), Text("buttonPinSelect")} then
      match WithButtonField(form.buttons, padIndex, target.value.name == Text("buttonPinSelect"), target.value.value)
      case Ok(buttons) => FormUpdate(form.(buttons := buttons), Done)
      case Err(e) => FormUpdate(form, Threw(e))
    else FormValueUpdateResult(form, padConfig, target, padIndex, sensorIndex)
  }

  /** With the intended branches, a pin edit of an existing button is kept in the form, and nothing else changes. */
  lemma IntendedButtonPinEditIsKept(form: FormSettings, padConfig: PadConfig.Config, bs: seq<Button>, i: nat, v: Value, c: Value)
    requires form.buttons == ButtonsVal(bs) && i < |bs|
    ensures var u := IntendedFormValueUpdateResult(form, padConfig, Some(EventTarget(Text("buttonPinSelect"), v, c)), Number(i), Undefined);
      && u.outcome == Done
      && u.form.(buttons := form.buttons) == form
      && u.form.buttons == ButtonsVal(bs[i := bs[i].(teensyPin := v)])
  {
    var w := WithButtonField(form.buttons, Number(i), true, v);
    assert w.value.buttons == bs[i := bs[i].(teensyPin := v)];
  }

  // ----- properties of the dialog -----

  /**
   * A count event that stores a new non-negative panel count reshapes the
   * form to exactly that many panels, each with the stored sensor count,
   * or throws and keeps the old panels.
   */
  lemma PanelCountEventReshapes(form: FormSettings, padConfig: PadConfig.Config, count: nat)
    requires form.panelCount != Number(count)
    ensures var u := FormValueUpdateResult(form, padConfig, Some(EventTarget(Text("panelCount"), Number(count), Undefined)), Undefined, Undefined);
      && u.form.panelCount == Number(count)
      && (u.outcome == Done ==>
            && u.form.panels.PanelsVal?
            && |u.form.panels.panels| == count
            && forall i :: 0 <= i < count ==> |u.form.panels.panels[i].sensors| == IterationBound(form.sensorCount))
      && (u.outcome != Done ==> u.form.panels == form.panels)
  {
  }

  /**
   * With the dialog's default properties (an empty configuration), opening
   * it leaves no panel list, and then choosing a positive panel count throws
   * after the count was stored.
   */
  lemma DefaultPropsPanelCountThrows(count: nat)
    requires count > 0
    ensures var shown := OpenedForm(map[]);
      var u := FormValueUpdateResult(shown, map[], Some(EventTarget(Text("panelCount"), Number(count), Undefined)), Undefined, Undefined);
      && shown.panels == Undefined
      && u.outcome == Threw(TypeError)
      && u.form == shown.(panelCount := Number(count))
  {
    var shown := OpenedForm(map[]);
    assert !PanelChoice(Undefined, Undefined, 0).Ok?;
  }

  /**
   * Opening the dialog and saving it unchanged hands the configuration's own
   * panels, buttons and name to `updatePadConfigFromSettings`, which then
   * leaves them all as they were.
   */
  lemma OpenThenSaveKeepsConfig(padConfig: PadConfig.Config)
    requires Get(padConfig, "general").Record? && "name" in padConfig["general"].fields
    requires "panels" in padConfig && "buttons" in padConfig
    ensures var f := OpenedForm(padConfig);
      var r := PadConfig.UpdatePadConfigFromSettingsResult(padConfig, PadConfig.SettingsPayload(f.name, f.panels, f.buttons));
      r == Ok(padConfig)
  {
    var f := OpenedForm(padConfig);
    var g := padConfig["general"].fields;
    assert g["name" := g["name"]] == g;
    var r := PadConfig.UpdatePadConfigFromSettingsResult(padConfig, PadConfig.SettingsPayload(f.name, f.panels, f.buttons)).value;
    assert r.Keys == padConfig.Keys;
    assert r == padConfig;
  }

  /**
   * Right after opening, a count event that repeats the configuration's own
   * panel count changes nothing, and one that repeats it on a uniform
   * configuration would regenerate exactly the configuration's panels.
   */
  lemma OpenedCountsRegenerateConfig(padConfig: PadConfig.Config, ps: seq<Panel>, m: nat)
    requires Get(padConfig, "panels") == PanelsVal(ps) && |ps| > 0
    requires forall i :: 0 <= i < |ps| ==> |ps[i].sensors| == m
    ensures var f := OpenedForm(padConfig);
      && f.panelCount == Number(|ps|) && f.sensorCount == Number(m)
      && FormValueUpdateResult(f, padConfig, Some(EventTarget(Text("panelCount"), Number(|ps|), Undefined)), Undefined, Undefined)
         == FormUpdate(f, Done)
      && GeneratedPanels(f.panels, Get(padConfig, "panels"), Get(padConfig, "general"),
                         IterationBound(f.panelCount), IterationBound(f.sensorCount)) == Ok(ps)
  {
    RegenerationWithSameCountsIsIdentity(ps, PanelsVal(ps), Get(padConfig, "general"), m);
  }

  /** The dialog component: whether it is open and the form it edits. */
  class Settings {
    var open: bool
    var form: FormSettings

    constructor ()
      ensures !open && form == InitialForm
    {
      open := false;
      form := InitialForm;
    }

    method HandleSettingsIconClick(padConfig: PadConfig.Config)
      modifies this
      ensures open && form == OpenedForm(padConfig)
    {
      open := true;
      form := OpenedForm(padConfig);
    }

    /** Closes the dialog and hands the form to `onChange` when one was given. */
    method HandleSaveButtonClick(hasOnChange: bool) returns (delivered: Option<FormSettings>)
      modifies this
      ensures !open && form == old(form)
      ensures delivered == if hasOnChange then Some(old(form)) else None
    {
      open := false;
      delivered := if hasOnChange then Some(form) else None;
    }

    method HandleCancelButtonClick()
      modifies this
      ensures !open && form == old(form)
    {
      open := false;
    }

    method HandleFormValueUpdate(padConfig: PadConfig.Config, target: Option<EventTarget>, padIndex: Value, sensorIndex: Value)
      returns (out: Outcome)
      modifies this
      ensures open == old(open)
      ensures FormUpdate(form, out) == FormValueUpdateResult(old(form), padConfig, target, padIndex, sensorIndex)
    {
      FormValueUpdateCases(form, padConfig, target, padIndex, sensorIndex);
      out := Done;
      match FieldOf(target) {
        case OtherField =>
        case NameField =>
          form := form.(name := target.value.value);
        case PanelCountField =>
          if form.panelCount != target.value.value {
            form := form.(panelCount := target.value.value);
            out := ReshapePanels(padConfig);
          }
        case SensorCountField =>
          if form.sensorCount != target.value.value {
            form := form.(sensorCount := target.value.value);
            out := ReshapePanels(padConfig);
          }
        case ButtonCountField =>
          if form.buttonCount != target.value.value {
            form := form.(buttonCount := target.value.value);
            out := ReshapeButtons(padConfig);
          }
        case LiftGapField =>
          form := form.(panelThresholdLiftGap := target.value.value);
        case GamepadButtonField =>
          var panels := WithGamepadButton(form.panels, padIndex, target.value.value);
          if panels.Err? {
            return Threw(panels.error);
          }
          form := form.(panels := panels.value);
        case SensorPinField =>
          var panels := WithSensorPin(form.panels, padIndex, sensorIndex, target.value.value);
          if panels.Err? {
            return Threw(panels.error);
          }
          form := form.(panels := panels.value);
        case InvertedLogicField =>
          form := form.(invertedDigitalButtonLogic := target.value.checked);
      }
    }

    /** The panel list regenerated for the stored counts; on a throw the list stays as it was. */
    method ReshapePanels(padConfig: PadConfig.Config) returns (out: Outcome)
      modifies this
      ensures open == old(open)
      ensures FormUpdate(form, out) == Reshaped(old(form), padConfig)
    {
      var panels := GenerateUpdatedPanels(form.panels, Get(padConfig, "panels"), Get(padConfig, "general"),
                                          form.panelCount, form.sensorCount);
      if panels.Err? {
        return Threw(panels.error);
      }
      form := form.(panels := PanelsVal(panels.value));
      out := Done;
    }

    /** The button list regenerated for the stored count; on a throw the list stays as it was. */
    method ReshapeButtons(padConfig: PadConfig.Config) returns (out: Outcome)
      modifies this
      ensures open == old(open)
      ensures FormUpdate(form, out) == ReshapedButtons(old(form), padConfig)
    {
      var buttons := GenerateUpdatedButtons(form.buttons, Get(padConfig, "buttons"), form.buttonCount);
      if buttons.Err? {
        return Threw(buttons.error);
      }
      form := form.(buttons := ButtonsVal(buttons.value));
      out := Done;
    }

    /** Mounting regenerates panels from counts the component state does not hold, and keeps nothing. */
    method ComponentDidMount(padConfig: PadConfig.Config)
      ensures open == old(open) && form == old(form)
    {
      var _ := GenerateUpdatedPanels(form.panels, Get(padConfig, "panels"), Get(padConfig, "general"), Undefined, Undefined);
    }
  }
}
