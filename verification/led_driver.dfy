/**
 * main/led_driver.cpp: the `led_set_*` setters that turn a Matter attribute
 * value into one write to the LED indicator, the dispatcher that picks the
 * setter for an attribute write, the start-up push of the stored attribute
 * values, and the light endpoint's initial configuration.
 */
module LedDriver {
  import opened Matter
  import opened Remap
  import opened LedIndicator

  /** The five `led_set_*` helpers. */
  datatype Setter = Power | Brightness | Hue | Saturation | Temperature

  /** The (cluster, attribute) pair whose writes a setter serves. */
  function Key(setter: Setter): (key: (uint32, uint32))
    ensures key.0 in {ON_OFF_CLUSTER, LEVEL_CONTROL_CLUSTER, COLOR_CONTROL_CLUSTER}
  {
    match setter
    case Power => (ON_OFF_CLUSTER, ON_OFF_ATTRIBUTE)
    case Brightness => (LEVEL_CONTROL_CLUSTER, CURRENT_LEVEL_ATTRIBUTE)
    case Hue => (COLOR_CONTROL_CLUSTER, CURRENT_HUE_ATTRIBUTE)
    case Saturation => (COLOR_CONTROL_CLUSTER, CURRENT_SATURATION_ATTRIBUTE)
    case Temperature => (COLOR_CONTROL_CLUSTER, COLOR_TEMPERATURE_MIREDS_ATTRIBUTE)
  }

  /**
   * The branch structure of `led_driver_attribute_update`: a write on the
   * light endpoint to one of the five handled attributes selects that
   * attribute's setter; every other write selects nothing.
   */
  function Dispatch(lightEndpoint: uint16, endpoint: uint16, cluster: uint32, attribute: uint32): (r: Option<Setter>)
    ensures r.Some? ==> endpoint == lightEndpoint && Key(r.value) == (cluster, attribute)
    ensures forall s: Setter :: endpoint == lightEndpoint && Key(s) == (cluster, attribute) ==> r == Some(s)
  {
    if endpoint != lightEndpoint then None
    else if cluster == ON_OFF_CLUSTER then
      if attribute == ON_OFF_ATTRIBUTE then Some(Power) else None
    else if cluster == LEVEL_CONTROL_CLUSTER then
      if attribute == CURRENT_LEVEL_ATTRIBUTE then Some(Brightness) else None
    else if cluster == COLOR_CONTROL_CLUSTER then
      if attribute == CURRENT_HUE_ATTRIBUTE then Some(Hue)
      else if attribute == CURRENT_SATURATION_ATTRIBUTE then Some(Saturation)
      else if attribute == COLOR_TEMPERATURE_MIREDS_ATTRIBUTE then Some(Temperature)
      else None
    else None
  }

  /** The colour-temperature setter divides by the mireds value, which must not be zero. */
  predicate Defined(setter: Setter, val: AttrVal)
  {
    setter == Temperature ==> val.AsUint16() != 0
  }

  /** `w` carries the device-scale value that `setter` derives from `val`. */
  predicate Carries(setter: Setter, val: AttrVal, w: Write)
    requires Defined(setter, val)
  {
    match setter
    case Power => w == OnOffWrite(val.AsBool())
    case Brightness => w.HsvWrite? && w.hsv.v == RemapToRange(val.AsUint8(), MATTER_BRIGHTNESS, STANDARD_BRIGHTNESS)
    case Hue => w.HsvWrite? && w.hsv.h == RemapToRange(val.AsUint8(), MATTER_HUE, STANDARD_HUE)
    case Saturation => w.HsvWrite? && w.hsv.s == RemapToRange(val.AsUint8(), MATTER_HUE, STANDARD_HUE)
    case Temperature => w == TemperatureWrite(RemapToRangeInverse(val.AsUint16(), STANDARD_TEMPERATURE_FACTOR))
  }

  /** An HSV write keeps, from the triple read before it, every channel `setter` does not own. */
  predicate KeepsOtherChannels(setter: Setter, before: Hsv, w: Write)
  {
    w.HsvWrite? ==>
      && (setter != Hue ==> w.hsv.h == before.h)
      && (setter != Saturation ==> w.hsv.s == before.s)
      && (setter != Brightness ==> w.hsv.v == before.v)
  }

  /**
   * The one write a setter issues when the LED's HSV triple reads `hsv`:
   * power is passed through, brightness, hue and saturation overwrite one
   * channel of the triple, and colour temperature is written absolutely.
   */
  function WriteFor(setter: Setter, val: AttrVal, hsv: Hsv): (w: Write)
    requires Defined(setter, val)
    ensures Carries(setter, val, w) && KeepsOtherChannels(setter, hsv, w)
    ensures w.OnOffWrite? <==> setter == Power
    ensures w.TemperatureWrite? <==> setter == Temperature
    ensures setter == Brightness && val.AsUint8() <= MATTER_BRIGHTNESS ==> 0 <= w.hsv.v <= STANDARD_BRIGHTNESS
    ensures setter == Hue && val.AsUint8() <= MATTER_HUE ==> 0 <= w.hsv.h <= STANDARD_HUE
    ensures setter == Saturation && val.AsUint8() <= MATTER_SATURATION ==> 0 <= w.hsv.s <= STANDARD_HUE
    ensures setter == Temperature ==> 15 <= w.temperature <= STANDARD_TEMPERATURE_FACTOR
  {
    match setter
    case Power => OnOffWrite(val.AsBool())
    case Brightness =>
      var u8 := val.AsUint8();
      RemapBounded(u8, MATTER_BRIGHTNESS, STANDARD_BRIGHTNESS);
      HsvWrite(hsv.(v := RemapToRange(u8, MATTER_BRIGHTNESS, STANDARD_BRIGHTNESS)))
    case Hue =>
      var u8 := val.AsUint8();
      RemapBounded(u8, MATTER_HUE, STANDARD_HUE);
      HsvWrite(hsv.(h := RemapToRange(u8, MATTER_HUE, STANDARD_HUE)))
    case Saturation =>
      var u8 := val.AsUint8();
      RemapBounded(u8, MATTER_HUE, STANDARD_HUE);
      HsvWrite(hsv.(s := RemapToRange(u8, MATTER_HUE, STANDARD_HUE)))
    case Temperature =>
      var u16 := val.AsUint16();
      TemperatureScale(u16, u16);
      TemperatureWrite(RemapToRangeInverse(u16, STANDARD_TEMPERATURE_FACTOR))
  }

  /**
   * What a call that selected `step` did to `led`, given the state and trace
   * it found: no step leaves everything alone and reports ESP_OK; a setter
   * issues its one write and returns the driver's code for it.
   */
  ghost predicate Performed(led: Indicator, before: LedState, traceBefore: seq<Write>, step: Option<Setter>,
                            val: AttrVal, err: EspErr)
    reads led
    requires step.Some? ==> Defined(step.value, val)
  {
    match step
    case None => led.state == before && led.trace == traceBefore && err == ESP_OK
    case Some(s) =>
      var w := WriteFor(s, val, before.hsv);
      led.trace == traceBefore + [w] && err == led.respond(w) && led.state == Outcome(before, w, err)
  }

  /** `led_set_power` */
  method SetPower(led: Indicator, val: AttrVal) returns (err: EspErr)
    modifies led
    ensures Performed(led, old(led.state), old(led.trace), Some(Power), val, err)
  {
    err := led.SetOnOff(val.AsBool());
  }

  /** `led_set_hue` */
  method SetHue(led: Indicator, val: AttrVal) returns (err: EspErr)
    modifies led
    ensures Performed(led, old(led.state), old(led.trace), Some(Hue), val, err)
  {
    var value := RemapToRange(val.AsUint8(), MATTER_HUE, STANDARD_HUE);
    var hsv := led.GetHsv();
    hsv := hsv.(h := value);
    err := led.SetHsv(hsv);
  }

  /** `led_set_saturation`: remapped with the hue constants, as the source does. */
  method SetSaturation(led: Indicator, val: AttrVal) returns (err: EspErr)
    modifies led
    ensures Performed(led, old(led.state), old(led.trace), Some(Saturation), val, err)
  {
    var value := RemapToRange(val.AsUint8(), MATTER_HUE, STANDARD_HUE);
    var hsv := led.GetHsv();
    hsv := hsv.(s := value);
    err := led.SetHsv(hsv);
  }

  /** `led_set_brightness` */
  method SetBrightness(led: Indicator, val: AttrVal) returns (err: EspErr)
    modifies led
    ensures Performed(led, old(led.state), old(led.trace), Some(Brightness), val, err)
  {
    var value := RemapToRange(val.AsUint8(), MATTER_BRIGHTNESS, STANDARD_BRIGHTNESS);
    var hsv := led.GetHsv();
    hsv := hsv.(v := value);
    err := led.SetHsv(hsv);
  }

  /** `led_set_temperature` */
  method SetTemperature(led: Indicator, val: AttrVal) returns (err: EspErr)
    requires val.AsUint16() != 0
    modifies led
    ensures Performed(led, old(led.state), old(led.trace), Some(Temperature), val, err)
  {
    var value := RemapToRangeInverse(val.AsUint16(), STANDARD_TEMPERATURE_FACTOR);
    err := led.SetColorTemperature(value);
  }

  /** A write the dispatcher routes to the colour-temperature setter carries a non-zero mireds value. */
  predicate UpdateDefined(lightEndpoint: uint16, endpoint: uint16, cluster: uint32, attribute: uint32, val: AttrVal)
  {
    Dispatch(lightEndpoint, endpoint, cluster, attribute) == Some(Temperature) ==> val.AsUint16() != 0
  }

  /**
   * `led_driver_attribute_update`: runs the setter the dispatcher selects, and
   * otherwise does nothing and returns ESP_OK.
   */
  method AttributeUpdate(led: Indicator, lightEndpoint: uint16, endpoint: uint16, cluster: uint32,
                         attribute: uint32, val: AttrVal) returns (err: EspErr)
    requires UpdateDefined(lightEndpoint, endpoint, cluster, attribute, val)
    modifies led
    ensures Performed(led, old(led.state), old(led.trace), Dispatch(lightEndpoint, endpoint, cluster, attribute), val, err)
  {
    err := ESP_OK;
    if endpoint == lightEndpoint {
      if cluster == ON_OFF_CLUSTER {
        if attribute == ON_OFF_ATTRIBUTE {
          err := SetPower(led, val);
        }
      } else if cluster == LEVEL_CONTROL_CLUSTER {
        if attribute == CURRENT_LEVEL_ATTRIBUTE {
          err := SetBrightness(led, val);
        }
      } else if cluster == COLOR_CONTROL_CLUSTER {
        if attribute == CURRENT_HUE_ATTRIBUTE {
          err := SetHue(led, val);
        } else if attribute == CURRENT_SATURATION_ATTRIBUTE {
          err := SetSaturation(led, val);
        } else if attribute == COLOR_TEMPERATURE_MIREDS_ATTRIBUTE {
          err := SetTemperature(led, val);
        }
      }
    }
  }

  /** No two setters serve the same attribute. */
  lemma KeyInjective(a: Setter, b: Setter)
    requires Key(a) == Key(b)
    ensures a == b
  {
  }

  /** A write elsewhere than the light endpoint, or to an attribute no setter serves, selects nothing. */
  lemma UnhandledWriteSelectsNothing(lightEndpoint: uint16, endpoint: uint16, cluster: uint32, attribute: uint32)
    requires endpoint != lightEndpoint || forall s: Setter :: Key(s) != (cluster, attribute)
    ensures Dispatch(lightEndpoint, endpoint, cluster, attribute) == None
  {
  }

  /** Every handled attribute written on the light endpoint reaches its own setter. */
  lemma HandledWriteSelectsItsSetter(lightEndpoint: uint16, setter: Setter)
    ensures Dispatch(lightEndpoint, lightEndpoint, Key(setter).0, Key(setter).1) == Some(setter)
  {
  }

  // ---- start-up push of the stored values ----

  /**
   * The setters `led_driver_set_defaults` runs, in order, for the byte read
   * as the colour mode: brightness first, power last, and between them hue
   * then saturation in hue/saturation mode, colour temperature in
   * colour-temperature mode, nothing in any other mode.
   */
  function DefaultSteps(mode: uint8): (steps: seq<Setter>)
    ensures 2 <= |steps| <= 4
    ensures steps[0] == Brightness && steps[|steps| - 1] == Power
    ensures Hue in steps <==> mode == COLOR_MODE_HUE_SATURATION
    ensures Saturation in steps <==> mode == COLOR_MODE_HUE_SATURATION
    ensures Temperature in steps <==> mode == COLOR_MODE_TEMPERATURE
    ensures mode == COLOR_MODE_HUE_SATURATION ==> steps[1] == Hue && steps[2] == Saturation
    ensures forall i, j :: 0 <= i < j < |steps| ==> steps[i] != steps[j]
  {
    var middle :=
      if mode == COLOR_MODE_HUE_SATURATION then [Hue, Saturation]
      else if mode == COLOR_MODE_TEMPERATURE then [Temperature]
      else [];
    [Brightness] + middle + [Power]
  }

  function LevelRef(endpoint: uint16): AttributeRef { AttributeRef(endpoint, LEVEL_CONTROL_CLUSTER, CURRENT_LEVEL_ATTRIBUTE) }
  function ColorModeRef(endpoint: uint16): AttributeRef { AttributeRef(endpoint, COLOR_CONTROL_CLUSTER, COLOR_MODE_ATTRIBUTE) }
  function HueRef(endpoint: uint16): AttributeRef { AttributeRef(endpoint, COLOR_CONTROL_CLUSTER, CURRENT_HUE_ATTRIBUTE) }
  function SaturationRef(endpoint: uint16): AttributeRef { AttributeRef(endpoint, COLOR_CONTROL_CLUSTER, CURRENT_SATURATION_ATTRIBUTE) }
  function MiredsRef(endpoint: uint16): AttributeRef { AttributeRef(endpoint, COLOR_CONTROL_CLUSTER, COLOR_TEMPERATURE_MIREDS_ATTRIBUTE) }
  function OnOffRef(endpoint: uint16): AttributeRef { AttributeRef(endpoint, ON_OFF_CLUSTER, ON_OFF_ATTRIBUTE) }

  /** Where the start-up push reads the value for `setter`. */
  function RefOf(setter: Setter, endpoint: uint16): AttributeRef
  {
    match setter
    case Power => OnOffRef(endpoint)
    case Brightness => LevelRef(endpoint)
    case Hue => HueRef(endpoint)
    case Saturation => SaturationRef(endpoint)
    case Temperature => MiredsRef(endpoint)
  }

  /** The colour-mode byte the start-up push branches on (the level value is still in `val` if no mode is stored). */
  function ModeByte(store: Store, endpoint: uint16): uint8
  {
    Fetch(store, ColorModeRef(endpoint), Fetch(store, LevelRef(endpoint), Invalid)).AsUint8()
  }

  /**
   * The setters of the start-up push, each with the value it is handed. One
   * `val` is reused for every read, so a missing attribute hands on the value
   * read before it.
   */
  function DefaultPlan(store: Store, endpoint: uint16): (plan: seq<(Setter, AttrVal)>)
    ensures 2 <= |plan| <= 4
    ensures plan[0] == (Brightness, Fetch(store, LevelRef(endpoint), Invalid))
    ensures plan[|plan| - 1].0 == Power
  {
    var level := Fetch(store, LevelRef(endpoint), Invalid);
    var mode := Fetch(store, ColorModeRef(endpoint), level);
    if mode.AsUint8() == COLOR_MODE_HUE_SATURATION then
      var hue := Fetch(store, HueRef(endpoint), mode);
      var saturation := Fetch(store, SaturationRef(endpoint), hue);
      [(Brightness, level)] + [(Hue, hue)] + [(Saturation, saturation)] + [(Power, Fetch(store, OnOffRef(endpoint), saturation))]
    else if mode.AsUint8() == COLOR_MODE_TEMPERATURE then
      var mireds := Fetch(store, MiredsRef(endpoint), mode);
      [(Brightness, level)] + [(Temperature, mireds)] + [(Power, Fetch(store, OnOffRef(endpoint), mireds))]
    else
      [(Brightness, level)] + [(Power, Fetch(store, OnOffRef(endpoint), mode))]
  }

  /**
   * The start-up push runs the setters `DefaultSteps` names for the colour
   * mode it reads, and hands each setter the stored value of its own
   * attribute whenever that attribute exists.
   */
  lemma DefaultPlanFollowsSteps(store: Store, endpoint: uint16)
    ensures var plan := DefaultPlan(store, endpoint);
      && |plan| == |DefaultSteps(ModeByte(store, endpoint))|
      && (forall i :: 0 <= i < |plan| ==> plan[i].0 == DefaultSteps(ModeByte(store, endpoint))[i])
      && (forall i :: 0 <= i < |plan| && RefOf(plan[i].0, endpoint) in store ==>
            plan[i].1 == store[RefOf(plan[i].0, endpoint)])
  {
  }

  /**
   * One `val` serves every read: a setter whose attribute is missing is handed
   * the value read just before, which for the first colour setter is the
   * colour mode (itself the level when no colour mode is stored).
   */
  lemma MissingAttributeReusesVal(store: Store, endpoint: uint16)
    ensures var plan := DefaultPlan(store, endpoint);
      forall i :: 0 < i < |plan| && RefOf(plan[i].0, endpoint) !in store ==>
        plan[i].1 == if i == 1 then Fetch(store, ColorModeRef(endpoint), plan[0].1) else plan[i - 1].1
  {
  }

  predicate PlanDefined(plan: seq<(Setter, AttrVal)>)
  {
    forall i :: 0 <= i < |plan| ==> Defined(plan[i].0, plan[i].1)
  }

  /** The code the driver returns for each of `writes`. */
  function Codes(respond: Write -> EspErr, writes: seq<Write>): (codes: seq<EspErr>)
    ensures |codes| == |writes| && forall i :: 0 <= i < |writes| ==> codes[i] == respond(writes[i])
  {
    if writes == [] then [] else Codes(respond, writes[..|writes| - 1]) + [respond(writes[|writes| - 1])]
  }

  /** The LED state, the writes issued and the accumulated code after a run of setters. */
  datatype Effect = Effect(state: LedState, writes: seq<Write>, err: EspErr)

  /**
   * Runs every setter of `plan` in turn from state `st`, each reading the
   * HSV triple the previous ones left, and OR-accumulates their codes into `acc`.
   * Every setter is attempted whatever the earlier ones returned.
   */
  function Push(st: LedState, respond: Write -> EspErr, plan: seq<(Setter, AttrVal)>, acc: EspErr): (e: Effect)
    requires PlanDefined(plan)
    ensures |e.writes| == |plan|
    decreases |plan|
  {
    if plan == [] then Effect(st, [], acc)
    else
      var p := Push(st, respond, plan[..|plan| - 1], acc);
      var w := WriteFor(plan[|plan| - 1].0, plan[|plan| - 1].1, p.state.hsv);
      Effect(Outcome(p.state, w, respond(w)), p.writes + [w], Or(p.err, respond(w)))
  }

  /** Running one more setter after a push: its write goes last and its code is OR-ed in last. */
  lemma PushStep(st: LedState, respond: Write -> EspErr, plan: seq<(Setter, AttrVal)>, acc: EspErr,
                 setter: Setter, val: AttrVal, before: Effect)
    requires PlanDefined(plan) && Defined(setter, val)
    requires before == Push(st, respond, plan, acc)
    ensures PlanDefined(plan + [(setter, val)])
    ensures var w := WriteFor(setter, val, before.state.hsv);
      Push(st, respond, plan + [(setter, val)], acc)
        == Effect(Outcome(before.state, w, respond(w)), before.writes + [w], Or(before.err, respond(w)))
  {
    assert (plan + [(setter, val)])[..|plan|] == plan;
  }

  /** The i-th write of a push carries the value the i-th setter derives from its attribute value. */
  lemma {:induction false} PushCarries(st: LedState, respond: Write -> EspErr, plan: seq<(Setter, AttrVal)>, acc: EspErr)
    requires PlanDefined(plan)
    ensures var e := Push(st, respond, plan, acc);
      forall i :: 0 <= i < |plan| ==> Carries(plan[i].0, plan[i].1, e.writes[i])
    decreases |plan|
  {
    if plan != [] {
      var n := |plan| - 1;
      var p, e := Push(st, respond, plan[..n], acc), Push(st, respond, plan, acc);
      PushCarries(st, respond, plan[..n], acc);
      assert e.writes == p.writes + [WriteFor(plan[n].0, plan[n].1, p.state.hsv)];
      forall i | 0 <= i < |plan|
        ensures Carries(plan[i].0, plan[i].1, e.writes[i])
      {
        if i < n {
          assert plan[..n][i] == plan[i];
        }
      }
    }
  }

  /** A push returns the OR of its start value and of the code of every write it issued. */
  lemma {:induction false} PushErr(st: LedState, respond: Write -> EspErr, plan: seq<(Setter, AttrVal)>, acc: EspErr)
    requires PlanDefined(plan)
    ensures var e := Push(st, respond, plan, acc);
      e.err == OrAll(acc, Codes(respond, e.writes))
    decreases |plan|
  {
    if plan != [] {
      var n := |plan| - 1;
      var p := Push(st, respond, plan[..n], acc);
      PushErr(st, respond, plan[..n], acc);
      var e := Push(st, respond, plan, acc);
      assert e.writes[..n] == p.writes;
      var codes := Codes(respond, e.writes);
      assert codes[..n] == Codes(respond, p.writes);
    }
  }

  /** A push reports ESP_OK exactly when it started from ESP_OK and every write it issued returned ESP_OK. */
  lemma PushOkIff(st: LedState, respond: Write -> EspErr, plan: seq<(Setter, AttrVal)>, acc: EspErr)
    requires PlanDefined(plan)
    ensures var e := Push(st, respond, plan, acc);
      e.err == ESP_OK <==> acc == ESP_OK && forall i :: 0 <= i < |e.writes| ==> respond(e.writes[i]) == ESP_OK
  {
    var e := Push(st, respond, plan, acc);
    PushErr(st, respond, plan, acc);
    OrAllOk(acc, Codes(respond, e.writes));
  }

  /** The start-up push can run: in colour-temperature mode the mireds value it reads is non-zero. */
  predicate DefaultsDefined(store: Store, endpoint: uint16)
  {
    PlanDefined(DefaultPlan(store, endpoint))
  }

  /** The LED is in `state` with trace `trace` and `err` was accumulated exactly as pushing `steps` from `st0` would give. */
  ghost predicate Reached(st0: LedState, respond: Write -> EspErr, t0: seq<Write>, steps: seq<(Setter, AttrVal)>,
                          state: LedState, trace: seq<Write>, err: EspErr)
  {
    && PlanDefined(steps)
    && var d := Push(st0, respond, steps, ESP_OK);
       state == d.state && trace == t0 + d.writes && err == d.err
  }

  /** After a setter performs its write on top of the state reached by `steps`, `steps` extended by it is reached. */
  lemma Advance(led: Indicator, st0: LedState, t0: seq<Write>, steps: seq<(Setter, AttrVal)>, err: EspErr,
                before: LedState, traceBefore: seq<Write>, setter: Setter, val: AttrVal, e: EspErr)
    requires Reached(st0, led.respond, t0, steps, before, traceBefore, err)
    requires Defined(setter, val)
    requires Performed(led, before, traceBefore, Some(setter), val, e)
    ensures Reached(st0, led.respond, t0, steps + [(setter, val)], led.state, led.trace, Or(err, e))
  {
    var done := Push(st0, led.respond, steps, ESP_OK);
    PushStep(st0, led.respond, steps, ESP_OK, setter, val, done);
  }

  /**
   * `led_driver_set_defaults`: pushes the stored brightness, colour and power
   * to the LED, attempting every setter and OR-ing their codes.
   */
  method SetDefaults(led: Indicator, store: Store, endpoint: uint16) returns (err: EspErr)
    requires DefaultsDefined(store, endpoint)
    modifies led
    ensures var e := Push(old(led.state), led.respond, DefaultPlan(store, endpoint), ESP_OK);
      led.state == e.state && led.trace == old(led.trace) + e.writes && err == e.err
  {
    ghost var plan := DefaultPlan(store, endpoint);
    ghost var st0, t0 := led.state, led.trace;
    // the setters run so far, and the state and trace before the latest one
    ghost var steps: seq<(Setter, AttrVal)> := [];
    ghost var before, traceBefore := led.state, led.trace;
    err := ESP_OK;
    var val := Invalid;
    var e: EspErr;

    // brightness
    val := Fetch(store, LevelRef(endpoint), val);
    e := SetBrightness(led, val);
    Advance(led, st0, t0, steps, err, before, traceBefore, Brightness, val, e);
    err := Or(err, e);
    steps, before, traceBefore := steps + [(Brightness, val)], led.state, led.trace;

    // colour
    val := Fetch(store, ColorModeRef(endpoint), val);
    if val.AsUint8() == COLOR_MODE_HUE_SATURATION {
      val := Fetch(store, HueRef(endpoint), val);
      e := SetHue(led, val);
      Advance(led, st0, t0, steps, err, before, traceBefore, Hue, val, e);
      err := Or(err, e);
      steps, before, traceBefore := steps + [(Hue, val)], led.state, led.trace;
      val := Fetch(store, SaturationRef(endpoint), val);
      e := SetSaturation(led, val);
      Advance(led, st0, t0, steps, err, before, traceBefore, Saturation, val, e);
      err := Or(err, e);
      steps, before, traceBefore := steps + [(Saturation, val)], led.state, led.trace;
      assert plan == steps + [(Power, Fetch(store, OnOffRef(endpoint), val))];
    } else if val.AsUint8() == COLOR_MODE_TEMPERATURE {
      val := Fetch(store, MiredsRef(endpoint), val);
      assert plan[1] == (Temperature, val);
      e := SetTemperature(led, val);
      Advance(led, st0, t0, steps, err, before, traceBefore, Temperature, val, e);
      err := Or(err, e);
      steps, before, traceBefore := steps + [(Temperature, val)], led.state, led.trace;
      assert plan == steps + [(Power, Fetch(store, OnOffRef(endpoint), val))];
    } else {
      // colour mode not supported: logged only
      assert plan == steps + [(Power, Fetch(store, OnOffRef(endpoint), val))];
    }

    // power
    val := Fetch(store, OnOffRef(endpoint), val);
    e := SetPower(led, val);
    Advance(led, st0, t0, steps, err, before, traceBefore, Power, val, e);
    err := Or(err, e);
  }


  // ---- initial configuration of the light endpoint ----

  /** The fields of `extended_color_light::config_t` that `matter_board_led_init` sets. */
  datatype LightConfig = LightConfig(
    onOff: bool,
    startUpOnOff: Option<uint8>,
    currentLevel: uint8,
    onLevel: uint8,
    startUpCurrentLevel: uint8,
    colorMode: uint8,
    enhancedColorMode: uint8,
    startupColorTemperatureMireds: Option<uint16>)

  /**
   * The configuration after `matter_board_led_init`'s assignments to a
   * default-constructed one: the light starts off (DEFAULT_POWER is
   * overwritten by `false`), at level DEFAULT_BRIGHTNESS / 4 and in
   * colour-temperature mode, with no start-up overrides.
   */
  function InitialLightConfig(defaults: LightConfig): (c: LightConfig)
    ensures !c.onOff && c.startUpOnOff == None
    ensures c.currentLevel == c.onLevel == c.startUpCurrentLevel == 16
    ensures c.colorMode == c.enhancedColorMode == COLOR_MODE_TEMPERATURE
    ensures c.startupColorTemperatureMireds == None
  {
    var c := defaults.(onOff := DEFAULT_POWER);
    var c := c.(onOff := false, startUpOnOff := None);
    var c := c.(currentLevel := DEFAULT_BRIGHTNESS / 4, onLevel := DEFAULT_BRIGHTNESS / 4,
                startUpCurrentLevel := DEFAULT_BRIGHTNESS / 4);
    var c := c.(colorMode := COLOR_MODE_TEMPERATURE, enhancedColorMode := COLOR_MODE_TEMPERATURE);
    c.(startupColorTemperatureMireds := None)
  }

  /** The light endpoint's stored attributes right after creation from configuration `c`. */
  function StoreFor(endpoint: uint16, c: LightConfig, mireds: uint16): (store: Store)
    ensures ModeByte(store, endpoint) == c.colorMode
    ensures forall s: Setter :: RefOf(s, endpoint) in store <==> s != Hue && s != Saturation
  {
    map[LevelRef(endpoint) := Uint8(c.currentLevel),
        ColorModeRef(endpoint) := Uint8(c.colorMode),
        MiredsRef(endpoint) := Uint16(mireds),
        OnOffRef(endpoint) := Boolean(c.onOff)]
  }

  /**
   * Pushed from the initial configuration, the defaults take the
   * colour-temperature branch: brightness 16 * 100 / 254 = 6, then the
   * colour temperature, then power off.
   */
  lemma InitialPushIsTemperatureMode(endpoint: uint16, defaults: LightConfig, mireds: uint16,
                                     st: LedState, respond: Write -> EspErr)
    requires mireds != 0
    ensures var store := StoreFor(endpoint, InitialLightConfig(defaults), mireds);
      && DefaultsDefined(store, endpoint)
      && DefaultSteps(ModeByte(store, endpoint)) == [Brightness, Temperature, Power]
      && var e := Push(st, respond, DefaultPlan(store, endpoint), ESP_OK);
         && |e.writes| == 3
         && e.writes[0].HsvWrite? && e.writes[0].hsv.v == 6
         && e.writes[1] == TemperatureWrite(STANDARD_TEMPERATURE_FACTOR / mireds)
         && e.writes[2] == OnOffWrite(false)
  {
    var store := StoreFor(endpoint, InitialLightConfig(defaults), mireds);
    assert ModeByte(store, endpoint) == COLOR_MODE_TEMPERATURE;
    var plan := DefaultPlan(store, endpoint);
    assert plan == [(Brightness, Uint8(16))] + [(Temperature, Uint16(mireds))] + [(Power, Boolean(false))];
    var e := Push(st, respond, plan, ESP_OK);
    PushCarries(st, respond, plan, ESP_OK);
    assert Carries(plan[0].0, plan[0].1, e.writes[0]);
    assert Carries(plan[1].0, plan[1].1, e.writes[1]);
    assert Carries(plan[2].0, plan[2].1, e.writes[2]);
  }
}
