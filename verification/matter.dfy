/**
 * Vocabulary shared by the light and temperature drivers: fixed-width
 * integers, the ESP-IDF error code, the identifiers of the Matter
 * application clusters this firmware touches, and the attribute value
 * union handed over by the Matter attribute store.
 */
module Matter {

  type uint8 = x: int | 0 <= x < 0x100
  type uint16 = x: int | 0 <= x < 0x1_0000
  type uint32 = x: int | 0 <= x < 0x1_0000_0000
  type int32 = x: int | -0x8000_0000 <= x < 0x8000_0000

  /** `esp_err_t`, a 32-bit integer, kept as its bit pattern so that `|=` is the C operator. */
  type EspErr = bv32
  /** `a |= b`: codes are combined bit by bit. */
  function Or(a: EspErr, b: EspErr): EspErr { a | b }

  const ESP_OK: EspErr := 0

  /* Cluster identifiers of the Matter application cluster library. */
  const ON_OFF_CLUSTER: uint32 := 0x0006
  const LEVEL_CONTROL_CLUSTER: uint32 := 0x0008
  const COLOR_CONTROL_CLUSTER: uint32 := 0x0300
  const TEMPERATURE_MEASUREMENT_CLUSTER: uint32 := 0x0402

  /* Attribute identifiers, each relative to its cluster. */
  const ON_OFF_ATTRIBUTE: uint32 := 0x0000                    // OnOff::OnOff
  const CURRENT_LEVEL_ATTRIBUTE: uint32 := 0x0000             // LevelControl::CurrentLevel
  const CURRENT_HUE_ATTRIBUTE: uint32 := 0x0000               // ColorControl::CurrentHue
  const CURRENT_SATURATION_ATTRIBUTE: uint32 := 0x0001        // ColorControl::CurrentSaturation
  const COLOR_TEMPERATURE_MIREDS_ATTRIBUTE: uint32 := 0x0007  // ColorControl::ColorTemperatureMireds
  const COLOR_MODE_ATTRIBUTE: uint32 := 0x0008                // ColorControl::ColorMode
  const MEASURED_VALUE_ATTRIBUTE: uint32 := 0x0000            // TemperatureMeasurement::MeasuredValue

  /* ColorControl::ColorMode enumeration values. */
  const COLOR_MODE_HUE_SATURATION: uint8 := 0
  const COLOR_MODE_TEMPERATURE: uint8 := 2

  datatype Option<T> = None | Some(value: T)

  /** The key under which the attribute store keeps one attribute. */
  datatype AttributeRef = AttributeRef(endpoint: uint16, cluster: uint32, attribute: uint32)

  /**
   * `esp_matter_attr_val_t`: a type tag and a union. The drivers read the
   * union through a fixed member (`val.b`, `val.u8`, `val.u16`) whatever the
   * tag says, so the union is given by its little-endian storage, the bytes
   * the stored member does not cover being zero.
   */
  datatype AttrVal =
    | Invalid                 // esp_matter_invalid(NULL): the union holds a null pointer
    | Boolean(b: bool)
    | Uint8(u8: uint8)
    | Uint16(u16: uint16)
    | Int(i: int32)
  {
    /** The low 32 bits of the union's storage. */
    function Bits(): (r: uint32)
      ensures Int? && i >= 0 ==> r == i
      ensures Int? && i < 0 ==> r == i + 0x1_0000_0000
    {
      match this
      case Invalid => 0
      case Boolean(b) => if b then 1 else 0
      case Uint8(x) => x
      case Uint16(x) => x
      case Int(x) => x % 0x1_0000_0000
    }

    /** `val.u8`: the low byte of the storage. */
    function AsUint8(): (r: uint8)
      ensures Uint8? ==> r == u8
      ensures Boolean? ==> (r == 1 <==> b) && (r == 0 <==> !b)
      ensures Invalid? ==> r == 0
    {
      Bits() % 0x100
    }

    /** `val.u16`: the low two bytes of the storage. */
    function AsUint16(): (r: uint16)
      ensures Uint16? ==> r == u16
      ensures Uint8? ==> r == u8
      ensures Invalid? ==> r == 0
    {
      Bits() % 0x1_0000
    }

    /** `val.b`: a bool occupying the low byte. */
    function AsBool(): (r: bool)
      ensures Boolean? ==> r == b
      ensures Invalid? ==> !r
      ensures r <==> AsUint8() != 0
    {
      AsUint8() != 0
    }
  }

  /** The attribute store of one node: every attribute it holds, by reference. */
  type Store = map<AttributeRef, AttrVal>

  /**
   * `attribute::get` followed by `attribute::get_val(attribute, &val)`: the
   * stored value when the attribute exists; otherwise `val` keeps whatever it
   * held before (a null attribute makes `get_val` return an error without
   * writing, and the caller ignores that error).
   */
  function Fetch(store: Store, ref: AttributeRef, prev: AttrVal): (v: AttrVal)
    ensures v == prev || (ref in store && v == store[ref])
    ensures ref in store ==> v == store[ref]
  {
    if ref in store then store[ref] else prev
  }

  /** `err |= e` over a sequence of codes, first to last, starting from `acc`. */
  function OrAll(acc: EspErr, codes: seq<EspErr>): (r: EspErr)
    ensures r == ESP_OK ==> acc == ESP_OK
    decreases |codes|
  {
    if codes == [] then acc
    else
      var prev := OrAll(acc, codes[..|codes| - 1]);
      OrOk(prev, codes[|codes| - 1]);
      Or(prev, codes[|codes| - 1])
  }

  /** Bitwise OR of two codes is ESP_OK exactly when both are. */
  lemma OrOk(a: EspErr, b: EspErr)
    ensures Or(a, b) == ESP_OK <==> a == ESP_OK && b == ESP_OK
  {
  }

  /** OR-accumulating codes yields ESP_OK exactly when every code, and the start value, is ESP_OK. */
  lemma {:induction false} OrAllOk(acc: EspErr, codes: seq<EspErr>)
    ensures OrAll(acc, codes) == ESP_OK <==> acc == ESP_OK && forall i :: 0 <= i < |codes| ==> codes[i] == ESP_OK
    decreases |codes|
  {
    if codes != [] {
      var n := |codes| - 1;
      OrAllOk(acc, codes[..n]);
      OrOk(OrAll(acc, codes[..n]), codes[n]);
      assert forall i :: 0 <= i < n ==> codes[..n][i] == codes[i];
    }
  }
}
