/**
 * The LED indicator driver the light setters call (`led_indicator_set_on_off`,
 * `led_indicator_get_hsv`, `led_indicator_set_hsv`,
 * `led_indicator_set_color_temperature`). It is vendor code; what is modelled
 * is the state it keeps and the code each call returns.
 */
module LedIndicator {
  import opened Matter

  /** The indicator's HSV triple. Channel widths are the vendor's, so channels are plain integers. */
  datatype Hsv = Hsv(h: int, s: int, v: int)

  /** Everything the light setters can change on the LED. */
  datatype LedState = LedState(on: bool, hsv: Hsv, temperature: int)

  /** One call that writes to the indicator, with the value it carries. */
  datatype Write =
    | OnOffWrite(on: bool)
    | HsvWrite(hsv: Hsv)
    | TemperatureWrite(temperature: int)

  /**
   * The state after write `w` returned `code`: the write takes effect when the
   * driver returns ESP_OK and is dropped otherwise. Exactly the written field changes.
   */
  function Outcome(st: LedState, w: Write, code: EspErr): (r: LedState)
    ensures code != ESP_OK ==> r == st
    ensures !w.OnOffWrite? ==> r.on == st.on
    ensures !w.HsvWrite? ==> r.hsv == st.hsv
    ensures !w.TemperatureWrite? ==> r.temperature == st.temperature
    ensures code == ESP_OK ==> match w
      case OnOffWrite(b) => r.on == b
      case HsvWrite(x) => r.hsv == x
      case TemperatureWrite(t) => r.temperature == t
  {
    if code != ESP_OK then st
    else match w
      case OnOffWrite(b) => st.(on := b)
      case HsvWrite(x) => st.(hsv := x)
      case TemperatureWrite(t) => st.(temperature := t)
  }

  class Indicator {
    /** What the LED currently shows. */
    var state: LedState
    /** The code the driver returns for each write. */
    const respond: Write -> EspErr
    /** Every write issued to the driver, oldest first. */
    ghost var trace: seq<Write>

    constructor (initial: LedState, respond: Write -> EspErr)
      ensures state == initial && this.respond == respond && trace == []
    {
      state := initial;
      this.respond := respond;
      trace := [];
    }

    method SetOnOff(on: bool) returns (err: EspErr)
      modifies this
      ensures err == respond(OnOffWrite(on))
      ensures trace == old(trace) + [OnOffWrite(on)]
      ensures state == Outcome(old(state), OnOffWrite(on), err)
    {
      err := respond(OnOffWrite(on));
      state := Outcome(state, OnOffWrite(on), err);
      trace := trace + [OnOffWrite(on)];
    }

    method GetHsv() returns (hsv: Hsv)
      ensures hsv == state.hsv
    {
      hsv := state.hsv;
    }

    method SetHsv(hsv: Hsv) returns (err: EspErr)
      modifies this
      ensures err == respond(HsvWrite(hsv))
      ensures trace == old(trace) + [HsvWrite(hsv)]
      ensures state == Outcome(old(state), HsvWrite(hsv), err)
    {
      err := respond(HsvWrite(hsv));
      state := Outcome(state, HsvWrite(hsv), err);
      trace := trace + [HsvWrite(hsv)];
    }

    method SetColorTemperature(temperature: int) returns (err: EspErr)
      modifies this
      ensures err == respond(TemperatureWrite(temperature))
      ensures trace == old(trace) + [TemperatureWrite(temperature)]
      ensures state == Outcome(old(state), TemperatureWrite(temperature), err)
    {
      err := respond(TemperatureWrite(temperature));
      state := Outcome(state, TemperatureWrite(temperature), err);
      trace := trace + [TemperatureWrite(temperature)];
    }
  }
}
