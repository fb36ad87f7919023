/**
 * The value codec of the OpenZWave backend: how a value reported by OpenZWave
 * becomes a ZWaveValue (readValue), in particular how a list value's selected
 * string becomes an index into its items, and which write setValue issues for
 * a ZWaveValue, in particular the range check on a list selection.
 */
module ValueCodec {
  import opened ZWaveTypes

  /** ZWaveValue::Type, cast from OpenZWave's ValueID::ValueType. */
  datatype ValueType =
    | TypeBool | TypeByte | TypeDecimal | TypeInt | TypeList | TypeSchedule
    | TypeShort | TypeString | TypeButton | TypeRaw | TypeBitSet

  /** The QVariant payload of a ZWaveValue. */
  datatype Variant =
    | VInvalid
    | VBool(b: bool)
    | VInt(i: int)
    | VReal(r: real)
    | VString(s: string)
    | VStringList(items: seq<string>)

  /** What identifies a value: the fields of OpenZWave's ValueID. */
  datatype ValueDescriptor = ValueDescriptor(
    id: ValueId, genre: int, commandClass: int, instance: int, index: int, valueType: ValueType)

  /**
   * What the Manager's getters answer for one value: GetValueAs* for each
   * scalar type, GetValueListItems / GetValueListSelection for a list, and
   * GetValueHelp for the description.
   */
  datatype ValueReading = ValueReading(
    asBool: bool, asShort: int, asByte: int, asInt: int, asFloat: real, asString: string,
    listItems: seq<string>, listSelection: string, help: string)

  datatype ZWaveValue = ZWaveValue(
    desc: ValueDescriptor, description: string, payload: Variant, selection: int)

  /** QList::indexOf: the first position of s in items, or -1. */
  function IndexOf(items: seq<string>, s: string): (r: int)
    ensures -1 <= r < |items|
    ensures r == -1 <==> s !in items
    ensures r >= 0 ==> items[r] == s && forall j :: 0 <= j < r ==> items[j] != s
    decreases |items|
  {
    if |items| == 0 then -1
    else if items[0] == s then 0
    else
      var k := IndexOf(items[1..], s);
      if k == -1 then -1 else k + 1
  }

  /** The selection readValue stores: an index for a list value, -1 for every other type. */
  function DecodeSelection(t: ValueType, items: seq<string>, selected: string): (r: int)
    ensures t != TypeList ==> r == -1
    ensures t == TypeList ==> (r == -1 <==> selected !in items)
    ensures r != -1 ==> 0 <= r < |items| && items[r] == selected
    ensures r != -1 ==> forall j :: 0 <= j < r ==> items[j] != selected
  {
    if t == TypeList then IndexOf(items, selected) else -1
  }

  /** readValue: the ZWaveValue built for a descriptor from the Manager's answers. */
  function ReadValue(desc: ValueDescriptor, reading: ValueReading): (v: ZWaveValue)
    ensures v.desc == desc && v.description == reading.help
    ensures desc.valueType == TypeList ==> v.payload == VStringList(reading.listItems)
    ensures v.selection == DecodeSelection(desc.valueType, reading.listItems, reading.listSelection)
    ensures desc.valueType in {TypeSchedule, TypeRaw, TypeBitSet} ==> v.payload == VInvalid
  {
    var payload :=
      match desc.valueType
      case TypeButton | TypeBool => VBool(reading.asBool)
      case TypeShort => VInt(reading.asShort)
      case TypeByte => VInt(reading.asByte)
      case TypeInt => VInt(reading.asInt)
      case TypeList => VStringList(reading.listItems)
      case TypeDecimal => VReal(reading.asFloat)
      case TypeString => VString(reading.asString)
      case _ => VInvalid;
    ZWaveValue(desc, reading.help, payload,
               DecodeSelection(desc.valueType, reading.listItems, reading.listSelection))
  }

  /**
   * QVariant::toStringList for the payloads this model carries: a string list
   * as it is, a single string as a one-element list, anything else empty.
   */
  function ListItems(payload: Variant): seq<string> {
    match payload
    case VStringList(items) => items
    case VString(s) => [s]
    case _ => []
  }

  /** The list branch of setValue: the string to select, or None when the index is out of range. */
  function EncodeSelection(items: seq<string>, selection: int): (r: Option<string>)
    ensures r.Some? <==> 0 <= selection < |items|
    ensures r.Some? ==> r.value in items && r.value == items[selection]
  {
    if selection < 0 || selection >= |items| then None else Some(items[selection])
  }

  /** A write that setValue hands to the Manager. */
  datatype ValueWrite =
    | WriteListSelection(valueId: ValueId, item: string)
    | WriteScalar(valueId: ValueId, valueType: ValueType, payload: Variant)

  /** The write setValue issues for a value, or None when it answers false without one. */
  function WriteFor(value: ZWaveValue): (w: Option<ValueWrite>)
    ensures value.desc.valueType in {TypeBool, TypeButton, TypeByte, TypeShort} ==>
      w == Some(WriteScalar(value.desc.id, value.desc.valueType, value.payload))
    ensures value.desc.valueType == TypeList ==>
      (w.Some? <==> 0 <= value.selection < |ListItems(value.payload)|)
    ensures value.desc.valueType == TypeList && w.Some? ==>
      w.value == WriteListSelection(value.desc.id, ListItems(value.payload)[value.selection])
    ensures value.desc.valueType in {TypeDecimal, TypeInt, TypeSchedule, TypeString, TypeRaw, TypeBitSet} ==>
      w.None?
  {
    match value.desc.valueType
    case TypeBool | TypeButton | TypeByte | TypeShort =>
      Some(WriteScalar(value.desc.id, value.desc.valueType, value.payload))
    case TypeList =>
      (match EncodeSelection(ListItems(value.payload), value.selection)
       case None => None
       case Some(item) => Some(WriteListSelection(value.desc.id, item)))
    case _ => None
  }

  /**
   * Decoding then encoding: a selection found by readValue writes back exactly
   * the string OpenZWave reported as selected.
   */
  lemma DecodeThenEncode(desc: ValueDescriptor, reading: ValueReading)
    requires desc.valueType == TypeList
    ensures var v := ReadValue(desc, reading);
      v.selection == -1 <==> reading.listSelection !in reading.listItems
    ensures var v := ReadValue(desc, reading);
      v.selection != -1 ==>
        WriteFor(v) == Some(WriteListSelection(desc.id, reading.listSelection))
  {
  }

  /**
   * Encoding then decoding: the string written for an in-range selection is
   * found again at that index, provided no earlier item repeats it; in every
   * case it is found at an index no later than the selection.
   */
  lemma EncodeThenDecode(items: seq<string>, selection: int)
    requires 0 <= selection < |items|
    ensures var item := EncodeSelection(items, selection).value;
      0 <= IndexOf(items, item) <= selection && items[IndexOf(items, item)] == item
    ensures (forall j :: 0 <= j < selection ==> items[j] != items[selection]) ==>
      IndexOf(items, EncodeSelection(items, selection).value) == selection
  {
  }
}
