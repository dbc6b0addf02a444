/**
 * The JavaScript values that the pad configurator's stores and forms hold,
 * and the few pieces of JavaScript semantics the modelled code relies on:
 * reading a missing property, writing a property, `Object.keys`, `??` and
 * `.length`.
 *
 * Configuration panels, their sensors and the digital buttons are typed
 * records; everything else the device or the user supplies is an open
 * `Record` of further values.
 */
module Values {

  datatype Option<+T> = None | Some(value: T)

  /** The exceptions that the modelled code raises. */
  datatype Error =
    | TypeError     // a property read through `undefined`, or written on a primitive
    | RangeError    // `Array(n)` with a negative length or one of 2^32 and more
    | ConnectError  // the `Error` thrown when the serial bridge refuses a connection
    | IpcError      // the rejection of a call into the serial bridge, passed on unchanged

  datatype Result<+T> = Ok(value: T) | Err(error: Error)

  /** How a call that returns nothing ends: normally, or by throwing. */
  datatype Outcome = Done | Threw(error: Error)

  datatype Value =
    | Undefined
    | Text(s: string)
    | Number(n: int)
    | Flag(b: bool)
    | PanelsVal(panels: seq<Panel>)
    | ButtonsVal(buttons: seq<Button>)
    | Record(fields: map<string, Value>)

  /** One analog sensor of a panel, as the device reports its configuration. */
  datatype Sensor = Sensor(threshold: Value, teensyPin: Value)

  /** One panel of the pad, as the device reports its configuration. */
  datatype Panel = Panel(
    gamepadButton: Value,
    ledOrder: Value,
    statusLedPin: Value,
    stepOrder: Value,
    sensors: seq<Sensor>)

  /** One digital button, as the device reports its configuration. */
  datatype Button = Button(gamepadButton: Value, teensyPin: Value)

  /** A store's state after a reducer: the reducer's result, or the old state if it threw. */
  ghost predicate Reduced<S>(spec: Result<S>, before: S, after: S, out: Outcome) {
    match spec
    case Ok(v) => after == v && out == Done
    case Err(e) => after == before && out == Threw(e)
  }

  /** `obj[key]` on a plain object: `undefined` when the key is missing. */
  function Get(m: map<string, Value>, key: string): (r: Value)
    ensures key !in m ==> r == Undefined
    ensures key in m ==> r == m[key]
  {
    if key in m then m[key] else Undefined
  }

  /** `v?.key` for a named (non-index, non-`length`) key. */
  function Property(v: Value, key: string): (r: Value)
    ensures r != Undefined ==> v.Record? && key in v.fields && r == v.fields[key]
    ensures v.Record? ==> r == Get(v.fields, key)
  {
    if v.Record? then Get(v.fields, key) else Undefined
  }

  /** `a ?? b`. Null is not part of the model, so only `undefined` falls through. */
  function Coalesce(a: Value, b: Value): (r: Value)
    ensures a != Undefined ==> r == a
    ensures a == Undefined ==> r == b
  {
    if a == Undefined then b else a
  }

  /** `v?.length`: lists and strings have one, a record may carry a `length` key. */
  function LengthOf(v: Value): (r: Value)
    ensures v.PanelsVal? ==> r == Number(|v.panels|)
    ensures v.ButtonsVal? ==> r == Number(|v.buttons|)
    ensures v.Text? ==> r == Number(|v.s|)
    ensures v.Undefined? || v.Number? || v.Flag? ==> r == Undefined
  {
    match v
    case PanelsVal(ps) => Number(|ps|)
    case ButtonsVal(bs) => Number(|bs|)
    case Text(s) => Number(|s|)
    case Record(m) => Get(m, "length")
    case _ => Undefined
  }

  /**
   * `target[key] = x` in strict-mode code for a named key: a record gains or
   * replaces the key, `undefined` and primitives throw a TypeError; a list
   * accepts the named property, which nothing that reads a list sees.
   */
  function SetProperty(target: Value, key: string, x: Value): (r: Result<Value>)
    ensures r.Ok? <==> target.Record? || target.PanelsVal? || target.ButtonsVal?
    ensures target.Record? ==> r == Ok(Record(target.fields[key := x]))
    ensures target.PanelsVal? || target.ButtonsVal? ==> r == Ok(target)
    ensures r.Err? ==> r.error == TypeError
  {
    match target
    case Record(m) => Ok(Record(m[key := x]))
    case PanelsVal(_) => Ok(target)
    case ButtonsVal(_) => Ok(target)
    case _ => Err(TypeError)
  }

  /** The decimal digits of `n`, as `String(n)` writes them. */
  function Decimal(n: nat): (r: string)
    decreases n
  {
    if n < 10 then [DigitChar(n)] else Decimal(n / 10) + [DigitChar(n % 10)]
  }

  function DigitChar(d: nat): (c: char)
    requires d < 10
    ensures '0' <= c <= '9' && c as int - '0' as int == d
  {
    (d + '0' as int) as char
  }

  lemma {:induction false} DecimalShape(n: nat)
    ensures |Decimal(n)| >= 1
    ensures n < 10 <==> |Decimal(n)| == 1
    ensures Decimal(n)[|Decimal(n)| - 1] == DigitChar(n % 10)
    decreases n
  {
    if n >= 10 {
      DecimalShape(n / 10);
    }
  }

  /** Different numbers have different decimal spellings: list indices give distinct keys. */
  lemma {:induction false} DecimalInjective(a: nat, b: nat)
    requires Decimal(a) == Decimal(b)
    ensures a == b
    decreases a
  {
    DecimalShape(a);
    DecimalShape(b);
    if a >= 10 && b >= 10 {
      var da, db := Decimal(a), Decimal(b);
      assert Decimal(a / 10) == da[..|da| - 1];
      assert Decimal(b / 10) == db[..|db| - 1];
      DecimalInjective(a / 10, b / 10);
      assert DigitChar(a % 10) == DigitChar(b % 10);
    } else {
      assert a < 10 && b < 10;
      assert DigitChar(a) == DigitChar(b);
    }
  }

  /** The keys `Object.keys` gives for a list or string of length `n`: "0" .. String(n - 1). */
  function IndexKeys(n: nat): (r: set<string>)
    ensures forall i :: 0 <= i < n ==> Decimal(i) in r
  {
    set i | 0 <= i < n :: Decimal(i)
  }

  /** `Object.keys(v)`: TypeError on `undefined`, indices for lists and strings, none for numbers and booleans. */
  function OwnKeys(v: Value): (r: Result<set<string>>)
    ensures r.Err? <==> v.Undefined?
    ensures v.Record? ==> r == Ok(v.fields.Keys)
    ensures v.Number? || v.Flag? ==> r == Ok({})
  {
    match v
    case Undefined => Err(TypeError)
    case Record(m) => Ok(m.Keys)
    case Text(s) => Ok(IndexKeys(|s|))
    case PanelsVal(ps) => Ok(IndexKeys(|ps|))
    case ButtonsVal(bs) => Ok(IndexKeys(|bs|))
    case _ => Ok({})
  }
}
