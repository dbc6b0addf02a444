/**
 * The live-values store: the latest sensor readings and button states the
 * device streamed. Panels normally carry a `sensors` list, but the reshaping
 * reducers put other shapes in the same slot, and the selectors read all of
 * them.
 */
module PadValues {
  import opened Values

  /** One live sensor reading `{value, pressed}`. */
  datatype LiveSensor = LiveSensor(value: Value, pressed: Value)

  /** One live button state `{pressed}`. */
  datatype LiveButton = LiveButton(pressed: Value)

  /**
   * What a `panels` slot holds: a panel with its `sensors` (as the device
   * reports it), a bare list of readings (as `setPanelCount` builds it), or
   * a `{pressed: false}` record (as `setButtonCount` builds it).
   */
  datatype LivePanel =
    | SensorPanel(sensors: seq<LiveSensor>)
    | BareReadings(readings: seq<LiveSensor>)
    | PressedOnly(pressed: bool)

  /** The store's `panels` and `buttons`; `None` is `undefined`, which `setPadValues` may store. */
  datatype LiveValues = LiveValues(panels: Option<seq<LivePanel>>, buttons: Option<seq<LiveButton>>)

  /** The payload of `setPadValues`; a missing key is `None`. */
  datatype PadValuesPayload = PadValuesPayload(panels: Option<seq<LivePanel>>, buttons: Option<seq<LiveButton>>)

  const InitialValues: LiveValues := LiveValues(Some([]), Some([]))

  /** `{pressed: false, value: 0}`, also the fill element of `setPanelCount`. */
  const ZeroReading: LiveSensor := LiveSensor(Number(0), Flag(false))

  /** The 32-bit limit of array lengths: `Array(n)` throws a RangeError from here on. */
  const MaxArrayLength: int := 0x1_0000_0000

  /**
   * The length of `Array(x)`: a number is the length (a RangeError when
   * negative or too large); any other single argument becomes the array's
   * one element.
   */
  function ArrayLength(x: Value): (r: Result<nat>)
    ensures x.Number? && 0 <= x.n < MaxArrayLength ==> r == Ok(x.n)
    ensures x.Number? && !(0 <= x.n < MaxArrayLength) ==> r == Err(RangeError)
    ensures !x.Number? ==> r == Ok(1)
  {
    match x
    case Number(n) => if 0 <= n < MaxArrayLength then Ok(n) else Err(RangeError)
    case _ => Ok(1)
  }

  // ----- setPadValues / clearPadValues -----

  function SetPadValuesResult(payload: PadValuesPayload): (r: LiveValues)
    ensures r.panels == payload.panels && r.buttons == payload.buttons
  {
    LiveValues(payload.panels, payload.buttons)
  }

  // ----- setPadValue -----

  predicate SensorAt(st: LiveValues, panelIndex: int, sensorIndex: int) {
    && st.panels.Some?
    && 0 <= panelIndex < |st.panels.value|
    && st.panels.value[panelIndex].SensorPanel?
    && 0 <= sensorIndex < |st.panels.value[panelIndex].sensors|
  }

  /** `panels[p].sensors[s].value = v`: exactly that field changes; a missing step throws a TypeError. */
  function SetPadValueResult(st: LiveValues, panelIndex: int, sensorIndex: int, v: Value): (r: Result<LiveValues>)
    ensures r.Ok? <==> SensorAt(st, panelIndex, sensorIndex)
    ensures r.Err? ==> r.error == TypeError
    ensures r.Ok? ==> r.value.buttons == st.buttons && r.value.panels.Some?
    ensures r.Ok? ==>
      var ps := st.panels.value;
      var qs := r.value.panels.value;
      && |qs| == |ps|
      && (forall i :: 0 <= i < |ps| && i != panelIndex ==> qs[i] == ps[i])
      && qs[panelIndex].SensorPanel?
      && |qs[panelIndex].sensors| == |ps[panelIndex].sensors|
      && (forall j :: 0 <= j < |ps[panelIndex].sensors| && j != sensorIndex ==>
            qs[panelIndex].sensors[j] == ps[panelIndex].sensors[j])
      && qs[panelIndex].sensors[sensorIndex] == ps[panelIndex].sensors[sensorIndex].(value := v)
  {
    if SensorAt(st, panelIndex, sensorIndex) then
      var ps := st.panels.value;
      var ss := ps[panelIndex].sensors;
      Ok(st.(panels := Some(ps[panelIndex := SensorPanel(ss[sensorIndex := ss[sensorIndex].(value := v)])])))
    else Err(TypeError)
  }

  // ----- setButtonValue -----

  /** `buttons[i].pressed = pressed`: exactly that field changes; a missing button throws a TypeError. */
  function SetButtonValueResult(st: LiveValues, buttonIndex: int, pressed: Value): (r: Result<LiveValues>)
    ensures r.Ok? <==> st.buttons.Some? && 0 <= buttonIndex < |st.buttons.value|
    ensures r.Err? ==> r.error == TypeError
    ensures r.Ok? ==>
      && r.value.panels == st.panels
      && r.value.buttons.Some?
      && |r.value.buttons.value| == |st.buttons.value|
      && (forall i :: 0 <= i < |st.buttons.value| && i != buttonIndex ==> r.value.buttons.value[i] == st.buttons.value[i])
      && r.value.buttons.value[buttonIndex] == LiveButton(pressed)
  {
    if st.buttons.Some? && 0 <= buttonIndex < |st.buttons.value|
    then Ok(st.(buttons := Some(st.buttons.value[buttonIndex := LiveButton(pressed)])))
    else Err(TypeError)
  }

  // ----- setPanelCount -----

  /** `Array(count).fill(0).map(...)` for the outer, and, when it has elements, the inner arrays. */
  function ZeroPanels(panelCount: Value, sensorCount: Value): (r: Result<seq<LivePanel>>)
    ensures r.Ok? <==> ArrayLength(panelCount).Ok? && (ArrayLength(panelCount).value > 0 ==> ArrayLength(sensorCount).Ok?)
    ensures r.Ok? ==>
      && |r.value| == ArrayLength(panelCount).value
      && forall i :: 0 <= i < |r.value| ==>
           r.value[i].BareReadings?
           && |r.value[i].readings| == ArrayLength(sensorCount).value
           && forall j :: 0 <= j < |r.value[i].readings| ==> r.value[i].readings[j] == ZeroReading
  {
    match ArrayLength(panelCount)
    case Err(e) => Err(e)
    case Ok(n) =>
      if n == 0 then Ok([])
      else
        match ArrayLength(sensorCount)
        case Err(e) => Err(e)
        case Ok(m) => Ok(seq(n, _ => BareReadings(seq(m, _ => ZeroReading))))
  }

  /** `panels` becomes `panelCount` bare lists of `sensorCount` zero readings; `buttons` stays. */
  function SetPanelCountResult(st: LiveValues, payload: map<string, Value>): (r: Result<LiveValues>)
    ensures var z := ZeroPanels(Get(payload, "panelCount"), Get(payload, "sensorCount"));
      && (r.Ok? <==> z.Ok?)
      && (r.Ok? ==> r.value == st.(panels := Some(z.value)))
      && (r.Err? ==> r.error == RangeError)
  {
    match ZeroPanels(Get(payload, "panelCount"), Get(payload, "sensorCount"))
    case Ok(ps) => Ok(st.(panels := Some(ps)))
    case Err(e) => Err(e)
  }

  // ----- setButtonCount -----

  /**
   * As written: the count is read from `payload.panelCount`, and the
   * `{pressed: false}` entries overwrite `panels`; `buttons` stays.
   */
  function SetButtonCountResult(st: LiveValues, payload: map<string, Value>): (r: Result<LiveValues>)
    ensures r.Ok? <==> ArrayLength(Get(payload, "panelCount")).Ok?
    ensures r.Err? ==> r.error == RangeError
    ensures r.Ok? ==>
      && r.value.buttons == st.buttons
      && r.value.panels.Some?
      && |r.value.panels.value| == ArrayLength(Get(payload, "panelCount")).value
      && forall i :: 0 <= i < |r.value.panels.value| ==> r.value.panels.value[i] == PressedOnly(false)
  {
    match ArrayLength(Get(payload, "panelCount"))
    case Err(e) => Err(e)
    case Ok(n) => Ok(st.(panels := Some(seq(n, _ => PressedOnly(false)))))
  }

  /** What the reducer's name promises: `buttonCount` released buttons, with `panels` untouched. */
  function IntendedButtonCountResult(st: LiveValues, payload: map<string, Value>): (r: Result<LiveValues>)
    ensures r.Ok? <==> ArrayLength(Get(payload, "buttonCount")).Ok?
    ensures r.Ok? ==>
      && r.value.panels == st.panels
      && r.value.buttons.Some?
      && |r.value.buttons.value| == ArrayLength(Get(payload, "buttonCount")).value
      && forall i :: 0 <= i < |r.value.buttons.value| ==> r.value.buttons.value[i] == LiveButton(Flag(false))
  {
    match ArrayLength(Get(payload, "buttonCount"))
    case Err(e) => Err(e)
    case Ok(n) => Ok(st.(buttons := Some(seq(n, _ => LiveButton(Flag(false))))))
  }

  /**
   * A `{buttonCount: 3}` payload: the reducer as written replaces the panels
   * by one `{pressed: false}` record (the length of `Array(undefined)`) and
   * leaves the two buttons alone, where three released buttons were meant.
   */
  lemma SetButtonCountMissesButtons()
    ensures var st := LiveValues(Some([SensorPanel([ZeroReading])]), Some([LiveButton(Flag(true)), LiveButton(Flag(true))]));
      var payload := map["buttonCount" := Number(3)];
      && SetButtonCountResult(st, payload) == Ok(LiveValues(Some([PressedOnly(false)]), st.buttons))
      && IntendedButtonCountResult(st, payload).Ok?
      && |IntendedButtonCountResult(st, payload).value.buttons.value| == 3
      && SetButtonCountResult(st, payload) != IntendedButtonCountResult(st, payload)
  {
    var st := LiveValues(Some([SensorPanel([ZeroReading])]), Some([LiveButton(Flag(true)), LiveButton(Flag(true))]));
    var payload := map["buttonCount" := Number(3)];
    assert Get(payload, "panelCount") == Undefined;
    assert seq(1, _ => PressedOnly(false)) == [PressedOnly(false)];
  }

  // ----- selectors -----

  /** `values.panels[p]?.sensors ?? []`; reading `panels[p]` of an `undefined` list throws. */
  function SelectPadValuesSensors(st: LiveValues, panelIndex: int): (r: Result<seq<LiveSensor>>)
    ensures r.Err? <==> st.panels.None?
    ensures r.Err? ==> r.error == TypeError
    ensures r.Ok? && r.value != [] ==>
      0 <= panelIndex < |st.panels.value| && st.panels.value[panelIndex].SensorPanel?
    ensures r.Ok? && 0 <= panelIndex < |st.panels.value| && st.panels.value[panelIndex].SensorPanel? ==>
      r.value == st.panels.value[panelIndex].sensors
  {
    match st.panels
    case None => Err(TypeError)
    case Some(ps) =>
      if 0 <= panelIndex < |ps| && ps[panelIndex].SensorPanel? then Ok(ps[panelIndex].sensors) else Ok([])
  }

  /** `values.panels[p]?.sensors?.[s] ?? {pressed: false, value: 0}`. */
  function SelectPadValuesSensor(st: LiveValues, panelIndex: int, sensorIndex: int): (r: Result<LiveSensor>)
    ensures r.Err? <==> st.panels.None?
    ensures r.Err? ==> r.error == TypeError
    ensures SensorAt(st, panelIndex, sensorIndex) ==> r == Ok(st.panels.value[panelIndex].sensors[sensorIndex])
    ensures st.panels.Some? && !SensorAt(st, panelIndex, sensorIndex) ==> r == Ok(ZeroReading)
  {
    match st.panels
    case None => Err(TypeError)
    case Some(ps) =>
      if 0 <= panelIndex < |ps| && ps[panelIndex].SensorPanel? && 0 <= sensorIndex < |ps[panelIndex].sensors|
      then Ok(ps[panelIndex].sensors[sensorIndex])
      else Ok(ZeroReading)
  }

  // ----- properties -----

  /** Writing a reading and selecting it gives the new value; every other sensor reads as before. */
  lemma SelectAfterSetPadValue(st: LiveValues, p: int, s: int, v: Value, p2: int, s2: int)
    requires SensorAt(st, p, s)
    ensures var after := SetPadValueResult(st, p, s, v).value;
      && SelectPadValuesSensor(after, p, s) == Ok(st.panels.value[p].sensors[s].(value := v))
      && ((p2, s2) != (p, s) ==> SelectPadValuesSensor(after, p2, s2) == SelectPadValuesSensor(st, p2, s2))
  {
    var after := SetPadValueResult(st, p, s, v).value;
    if (p2, s2) != (p, s) && SensorAt(st, p2, s2) {
      assert SensorAt(after, p2, s2);
    }
  }

  /**
   * After `setPadValues` the selector reads the payload: the sensor's reading
   * where the payload's panel carries it, the zero reading where it does not,
   * and a TypeError when the payload has no `panels`; the buttons are the
   * payload's.
   */
  lemma SelectAfterSetPadValues(payload: PadValuesPayload, p: int, s: int)
    ensures var after := SetPadValuesResult(payload);
      && after.buttons == payload.buttons
      && (payload.panels.None? ==> SelectPadValuesSensor(after, p, s) == Err(TypeError))
      && (payload.panels.Some? && 0 <= p < |payload.panels.value| && payload.panels.value[p].SensorPanel?
          && 0 <= s < |payload.panels.value[p].sensors|
          ==> SelectPadValuesSensor(after, p, s) == Ok(payload.panels.value[p].sensors[s]))
      && (payload.panels.Some? && !(0 <= p < |payload.panels.value| && payload.panels.value[p].SensorPanel?
          && 0 <= s < |payload.panels.value[p].sensors|)
          ==> SelectPadValuesSensor(after, p, s) == Ok(ZeroReading))
  {
  }

  /**
   * The readings `setPanelCount` builds have no `sensors` field: every
   * sensor selects as the zero reading and writing any reading throws.
   */
  lemma PanelCountHidesReadings(st: LiveValues, payload: map<string, Value>, p: int, s: int, v: Value)
    requires SetPanelCountResult(st, payload).Ok?
    ensures var after := SetPanelCountResult(st, payload).value;
      && SelectPadValuesSensor(after, p, s) == Ok(ZeroReading)
      && SelectPadValuesSensors(after, p) == Ok([])
      && SetPadValueResult(after, p, s, v) == Err(TypeError)
  {
  }

  /** After `clearPadValues` every sensor selects as the zero reading and no reading or button can be written. */
  lemma SelectorsAfterClear(p: int, s: int, i: int, v: Value)
    ensures SelectPadValuesSensor(InitialValues, p, s) == Ok(ZeroReading)
    ensures SelectPadValuesSensors(InitialValues, p) == Ok([])
    ensures SetPadValueResult(InitialValues, p, s, v) == Err(TypeError)
    ensures SetButtonValueResult(InitialValues, i, v) == Err(TypeError)
  {
  }

  /** The live-values store; `clearPadValues` returns it to its initial state. */
  class Store {
    var panels: Option<seq<LivePanel>>
    var buttons: Option<seq<LiveButton>>

    function State(): LiveValues
      reads this
    {
      LiveValues(panels, buttons)
    }

    constructor ()
      ensures State() == InitialValues
    {
      panels := Some([]);
      buttons := Some([]);
    }

    method SetPadValues(payload: PadValuesPayload)
      modifies this
      ensures State() == SetPadValuesResult(payload)
    {
      panels := payload.panels;
      buttons := payload.buttons;
    }

    method ClearPadValues()
      modifies this
      ensures State() == InitialValues
    {
      panels := Some([]);
      buttons := Some([]);
    }

    method SetPadValue(panelIndex: int, sensorIndex: int, v: Value) returns (out: Outcome)
      modifies this
      ensures Reduced(SetPadValueResult(old(State()), panelIndex, sensorIndex, v), old(State()), State(), out)
    {
      if panels.None? || !(0 <= panelIndex < |panels.value|) || !panels.value[panelIndex].SensorPanel? {
        return Threw(TypeError);
      }
      var sensors := panels.value[panelIndex].sensors;
      if !(0 <= sensorIndex < |sensors|) {
        return Threw(TypeError);
      }
      sensors := sensors[sensorIndex := sensors[sensorIndex].(value := v)];
      panels := Some(panels.value[panelIndex := SensorPanel(sensors)]);
      out := Done;
    }

    method SetButtonValue(buttonIndex: int, pressed: Value) returns (out: Outcome)
      modifies this
      ensures Reduced(SetButtonValueResult(old(State()), buttonIndex, pressed), old(State()), State(), out)
    {
      if buttons.None? || !(0 <= buttonIndex < |buttons.value|) {
        return Threw(TypeError);
      }
      buttons := Some(buttons.value[buttonIndex := LiveButton(pressed)]);
      out := Done;
    }

    method SetPanelCount(payload: map<string, Value>) returns (out: Outcome)
      modifies this
      ensures Reduced(SetPanelCountResult(old(State()), payload), old(State()), State(), out)
    {
      var rows := ZeroPanels(Get(payload, "panelCount"), Get(payload, "sensorCount"));
      if rows.Err? {
        return Threw(rows.error);
      }
      panels := Some(rows.value);
      out := Done;
    }

    method SetButtonCount(payload: map<string, Value>) returns (out: Outcome)
      modifies this
      ensures Reduced(SetButtonCountResult(old(State()), payload), old(State()), State(), out)
    {
      var count := ArrayLength(Get(payload, "panelCount"));
      if count.Err? {
        return Threw(count.error);
      }
      panels := Some(seq(count.value, _ => PressedOnly(false)));
      out := Done;
    }
  }
}
