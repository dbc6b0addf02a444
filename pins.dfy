/**
 * The microcontroller pin tables of the pin selector, and the list of menu
 * entries the selector offers for a controller.
 */
module Pins {
  import opened Values

  /** An analog pin: its label ("A0", "A1", ...) and the pin number the firmware uses. */
  datatype AnalogPin = AnalogPin(name: string, value: int)

  datatype PinTable = PinTable(analog: seq<AnalogPin>, digital: seq<nat>)

  /** `Array(count).fill().map((_, i) => ({name: `A${i}`, value: i + 14}))` */
  function AnalogPins(count: nat): seq<AnalogPin> {
    seq(count, i requires 0 <= i < count => AnalogPin("A" + Decimal(i), i + 14))
  }

  /** `Array(count).fill().map((_, i) => i)` */
  function DigitalPins(count: nat): seq<nat> {
    seq(count, i requires 0 <= i < count => i)
  }

  /** The static `pins` table, looked up by controller identifier; `None` for any other identifier. */
  function PinsOf(controller: string): Option<PinTable> {
    if controller == "teensy40" then Some(PinTable(AnalogPins(14), DigitalPins(40)))
    else if controller == "teensy41" then Some(PinTable(AnalogPins(18), DigitalPins(55)))
    else None
  }

  /** Every table entry is analog pin A<i> at `i + 14`, and digital pin `i` is `i`. */
  ghost predicate Regular(t: PinTable) {
    && (forall i :: 0 <= i < |t.analog| ==> t.analog[i] == AnalogPin("A" + Decimal(i), i + 14))
    && (forall i :: 0 <= i < |t.digital| ==> t.digital[i] == i)
  }

  lemma Teensy40Table()
    ensures PinsOf("teensy40").Some?
    ensures |PinsOf("teensy40").value.analog| == 14 && |PinsOf("teensy40").value.digital| == 40
    ensures Regular(PinsOf("teensy40").value)
    ensures PinsOf("teensy40").value.analog[13] == AnalogPin("A13", 27)
  {
    assert Decimal(13) == "13" by {
      assert Decimal(1) == "1";
      assert DigitChar(3) == '3';
    }
  }

  lemma Teensy41Table()
    ensures PinsOf("teensy41").Some?
    ensures |PinsOf("teensy41").value.analog| == 18 && |PinsOf("teensy41").value.digital| == 55
    ensures Regular(PinsOf("teensy41").value)
    ensures PinsOf("teensy41").value.analog[17] == AnalogPin("A17", 31)
  {
    assert Decimal(17) == "17" by {
      assert Decimal(1) == "1";
      assert DigitChar(7) == '7';
    }
  }

  /** For every known controller the analog values rise strictly from 14, the digital pins from 0, and the labels are distinct. */
  lemma {:induction false} KnownTablesOrdered(controller: string)
    requires PinsOf(controller).Some?
    ensures var t := PinsOf(controller).value;
      && |t.analog| > 0 && t.analog[0].value == 14
      && (forall i, j :: 0 <= i < j < |t.analog| ==> t.analog[i].value < t.analog[j].value)
      && (forall i, j :: 0 <= i < j < |t.digital| ==> t.digital[i] < t.digital[j])
      && (forall i, j :: 0 <= i < j < |t.analog| ==> t.analog[i].name != t.analog[j].name)
  {
    var t := PinsOf(controller).value;
    forall i, j | 0 <= i < j < |t.analog|
      ensures t.analog[i].name != t.analog[j].name
    {
      if t.analog[i].name == t.analog[j].name {
        assert "A" + Decimal(i) == "A" + Decimal(j);
        assert Decimal(i) == ("A" + Decimal(i))[1..];
        assert Decimal(j) == ("A" + Decimal(j))[1..];
        DecimalInjective(i, j);
      }
    }
  }

  /** One entry of the selector's drop-down: a section heading or a selectable pin. */
  datatype MenuEntry = Subheader(title: string) | Item(caption: string, value: int)

  function AnalogItems(t: PinTable): seq<MenuEntry> {
    seq(|t.analog|, i requires 0 <= i < |t.analog| => Item(t.analog[i].name, t.analog[i].value))
  }

  function DigitalItems(t: PinTable): seq<MenuEntry> {
    seq(|t.digital|, i requires 0 <= i < |t.digital| => Item(Decimal(t.digital[i]), t.digital[i]))
  }

  /**
   * The children of the selector: the "Analog Pins" heading and the analog
   * items when analog pins are shown, then the "Digital Pins" heading and the
   * digital items when digital pins are shown. An unknown controller keeps
   * the headings but offers no items.
   */
  function MenuEntries(controller: string, showAnalogPins: bool, showDigitalPins: bool): seq<MenuEntry> {
    var table := PinsOf(controller);
    (if showAnalogPins then [Subheader("Analog Pins")] else [])
    + (if showAnalogPins && table.Some? then AnalogItems(table.value) else [])
    + (if showDigitalPins then [Subheader("Digital Pins")] else [])
    + (if showDigitalPins && table.Some? then DigitalItems(table.value) else [])
  }

  /** The pin values a list of entries offers, in order. */
  function ItemValues(entries: seq<MenuEntry>): seq<int> {
    if entries == [] then []
    else (if entries[0].Item? then [entries[0].value] else []) + ItemValues(entries[1..])
  }

  function AnalogValues(t: PinTable): seq<int> {
    seq(|t.analog|, i requires 0 <= i < |t.analog| => t.analog[i].value)
  }

  lemma {:induction false} ItemValuesAppend(a: seq<MenuEntry>, b: seq<MenuEntry>)
    ensures ItemValues(a + b) == ItemValues(a) + ItemValues(b)
    decreases |a|
  {
    if a == [] {
      assert a + b == b;
    } else {
      assert (a + b)[0] == a[0];
      assert (a + b)[1..] == a[1..] + b;
      ItemValuesAppend(a[1..], b);
    }
  }

  lemma {:induction false} ItemValuesOfItems(s: seq<MenuEntry>, values: seq<int>)
    requires |s| == |values|
    requires forall i :: 0 <= i < |s| ==> s[i].Item? && s[i].value == values[i]
    ensures ItemValues(s) == values
    decreases |s|
  {
    if s != [] {
      ItemValuesOfItems(s[1..], values[1..]);
    }
  }

  /**
   * The pins offered are exactly the analog values (when analog pins are
   * shown) followed by the digital pins (when digital pins are shown) of the
   * controller's table, and none at all for an unknown controller.
   */
  lemma MenuOffersTablePins(controller: string, showAnalogPins: bool, showDigitalPins: bool)
    ensures var table := PinsOf(controller);
      ItemValues(MenuEntries(controller, showAnalogPins, showDigitalPins))
      == if table.None? then []
         else (if showAnalogPins then AnalogValues(table.value) else [])
              + (if showDigitalPins then table.value.digital else [])
  {
    var table := PinsOf(controller);
    var h1: seq<MenuEntry> := if showAnalogPins then [Subheader("Analog Pins")] else [];
    var a: seq<MenuEntry> := if showAnalogPins && table.Some? then AnalogItems(table.value) else [];
    var h2: seq<MenuEntry> := if showDigitalPins then [Subheader("Digital Pins")] else [];
    var d: seq<MenuEntry> := if showDigitalPins && table.Some? then DigitalItems(table.value) else [];
    assert MenuEntries(controller, showAnalogPins, showDigitalPins) == h1 + a + h2 + d;
    ItemValuesAppend(h1 + a + h2, d);
    ItemValuesAppend(h1 + a, h2);
    ItemValuesAppend(h1, a);
    if table.Some? {
      ItemValuesOfItems(AnalogItems(table.value), AnalogValues(table.value));
      ItemValuesOfItems(DigitalItems(table.value), table.value.digital);
    }
  }

  /** The teensyPin a new sensor gets: the first analog pin of the controller, or `None` when `pins[controller].analog[0]` throws. */
  function FirstAnalogPin(controller: string): (r: Option<int>)
    ensures r.Some? <==> PinsOf(controller).Some?
    ensures r.Some? ==> r.value == 14
  {
    match PinsOf(controller)
    case Some(t) => if |t.analog| > 0 then Some(t.analog[0].value) else None
    case None => None
  }
}
