# ESP32 Matter light and temperature sensor: a Dafny model

The firmware runs a Matter node with two application endpoints. One is an
extended colour light driven by an LED indicator. The other is a temperature
sensor. This project models the part of the firmware that holds decisions,
and proves what those decisions guarantee.

- **Light setters and dispatcher.** These live in `main/led_driver.cpp`.
  - A Matter attribute write (OnOff, CurrentLevel, CurrentHue,
    CurrentSaturation or ColorTemperatureMireds) becomes exactly one write to
    the LED indicator, remapped from the Matter scale to the device scale.
  - Brightness, hue and saturation are read-modify-write operations on the
    LED's HSV triple.
  - `led_driver_set_defaults` pushes the stored attribute values to the LED at
    start-up. It OR-combines the `esp_err_t` codes of every setter it
    attempts.
  - The model also covers the light's initial configuration.
- **Temperature sampler.** This lives in `main/temp_driver.cpp`. In the
  configuration the firmware ships, a timer callback publishes a synthetic
  saw-tooth reading to TemperatureMeasurement/MeasuredValue. The DS18B20 bus
  search and the resolution set-up of the hardware configuration are modelled
  as loops.
- **Application callbacks.** These live in `main/main.cpp`.
  - The attribute callback forwards pre-updates on the light endpoint to the
    LED driver.
  - The identify callback acknowledges every request.
  - The event callback reopens commissioning when the last fabric is removed.

## Modules

- `Matter` (`matter.dfy`) holds the fixed-width integer types and the cluster
  and attribute identifiers. It models `esp_err_t` as a 32-bit pattern
  (`bv32`), so that `err |= e` is the C operator.
  - The attribute value union is read through `val.b`, `val.u8` and
    `val.u16`, as the C code does whatever the value's type tag says.
  - An attribute read through the store is `Fetch`. A missing attribute
    leaves `val` holding what it held before.
- `Remap` (`remap.dfy`) holds the scale constants of `main/app_priv.h` and
  the two remapping macros, with their bounds, monotonicity and end points.
- `LedIndicator` (`led_indicator.dfy`) stands in for the vendor LED driver.
  It is a class holding the LED state (on/off, HSV triple, colour
  temperature), a function giving the code the driver returns for each
  write, and a ghost trace of the writes issued.
- `LedDriver` (`led_driver.dfy`) holds the five `led_set_*` setters,
  `led_driver_attribute_update`, `led_driver_set_defaults` and
  `matter_board_led_init`'s configuration.
  - `Dispatch` and `WriteFor` are the specification functions the methods
    are proved against.
  - `DefaultPlan` and `Push` describe the start-up push as a run of setters.
- `TempDriver` (`temp_driver.dfy`) holds the sampler class, the closed form
  and period of the synthetic reading, the search loop and the resolution
  loop.
- `App` (`app.dfy`) holds the three callbacks of `main/main.cpp`.

`REMAP_TO_RANGE` and `REMAP_TO_RANGE_INVERSE` are vendor macros outside the
repository. The model makes two assumptions about them:
- It takes `REMAP_TO_RANGE` as truncating `value * to / from`.
- It assumes `REMAP_TO_RANGE_INVERSE` has no zero guard, so the colour
  temperature setter requires a non-zero mireds value. `UpdateDefined` and
  `DefaultsDefined` carry that requirement to the callers.

Saturation is remapped with the hue constants (254 becomes 360), as the code
does. `Remap.SaturationUsesHueScale` states the consequence.

## Model

| member | source | states |
|---|---|---|
| Matter.AttrVal.AsBool | main/led_driver.cpp:28 | `val.b` is the stored bool for a Boolean value, false for the invalid value, and true exactly when the low byte is non-zero |
| Matter.AttrVal.AsUint8 | main/led_driver.cpp:32 | `val.u8` is the stored byte for a Uint8 value, 1/0 for a Boolean true/false, and 0 for the invalid value |
| Matter.AttrVal.AsUint16 | main/led_driver.cpp:60 | `val.u16` is the stored value for a Uint16 or Uint8 value, and 0 for the invalid value |
| Matter.Fetch | main/led_driver.cpp:100-101 | reading an attribute gives its stored value when it exists, and otherwise leaves `val` as it was |
| Matter.OrOk | main/led_driver.cpp:102 | `a \| b` is ESP_OK exactly when both codes are ESP_OK |
| Matter.OrAll | main/led_driver.cpp:94-128 | the `err \|=` chain: once its start value is an error, no later code brings it back to ESP_OK |
| Matter.OrAllOk | main/led_driver.cpp:94-130 | OR-accumulating codes from a start value gives ESP_OK iff the start value and every code are ESP_OK |
| Remap.RemapToRange | main/led_driver.cpp:33 | the result is the largest r with `r * from <= value * to` (truncating division) |
| Remap.RemapToRangeInverse | main/led_driver.cpp:60 | the result is the largest r with `r * value <= factor`, for a non-zero divisor |
| Remap.RemapMonotone | main/led_driver.cpp:33 | a larger Matter value never gives a smaller device value |
| Remap.RemapBounded | main/led_driver.cpp:51 | a value within the Matter maximum stays within the device maximum |
| Remap.RemapEndpoints | main/led_driver.cpp:51 | 0 maps to 0 and the Matter maximum maps to the device maximum |
| Remap.InverseAntitone | main/led_driver.cpp:60 | a larger mireds value never gives a larger device temperature |
| Remap.BrightnessScale | main/led_driver.cpp:51 | CurrentLevel 0..254 becomes 0..100, monotonically, with 0 and 254 at the two ends |
| Remap.HueScale | main/led_driver.cpp:33 | CurrentHue 0..254 becomes 0..360, monotonically, with 0 and 254 at the two ends |
| Remap.HueInRangeIff | main/led_driver.cpp:33 | a byte stays within 0..360 exactly when it is at most 254; 255 gives 361 |
| Remap.SaturationUsesHueScale | main/led_driver.cpp:42 | saturation 254 becomes 360, above the saturation maximum 100; the saturation constants would have given 100 |
| Remap.TemperatureScale | main/led_driver.cpp:60 | mireds 1..65535 become 1000000..15, antitone, with 1 and 1000000 mapping to each other |
| LedIndicator.Outcome | main/led_driver.cpp:28 | a write takes effect when the driver returns ESP_OK and is dropped otherwise; only the written field changes |
| LedIndicator.Indicator.SetOnOff | main/led_driver.cpp:28 | returns the driver's code, records the write, and updates the LED per `Outcome` |
| LedIndicator.Indicator.GetHsv | main/led_driver.cpp:35 | returns the LED's current HSV triple |
| LedIndicator.Indicator.SetHsv | main/led_driver.cpp:37 | returns the driver's code, records the write, and updates the LED per `Outcome` |
| LedIndicator.Indicator.SetColorTemperature | main/led_driver.cpp:61 | returns the driver's code, records the write, and updates the LED per `Outcome` |
| LedDriver.Key | main/led_driver.cpp:70-86 | every setter serves an attribute of the OnOff, LevelControl or ColorControl cluster |
| LedDriver.KeyInjective | main/led_driver.cpp:70-86 | no two setters serve the same (cluster, attribute) pair |
| LedDriver.Dispatch | main/led_driver.cpp:65-90 | a write selects a setter only on the light endpoint and only the one serving its (cluster, attribute); every served pair on the light endpoint selects its setter |
| LedDriver.UnhandledWriteSelectsNothing | main/led_driver.cpp:70-89 | a write on another endpoint, or to an attribute no setter serves, selects nothing |
| LedDriver.HandledWriteSelectsItsSetter | main/led_driver.cpp:71-86 | each of the five handled attributes on the light endpoint reaches its own setter |
| LedDriver.WriteFor | main/led_driver.cpp:26-62 | power passes `val.b` through; brightness, hue and saturation replace one HSV channel with the remapped byte and keep the other two; colour temperature writes `1000000 / mireds` (within 15..1000000) and touches no HSV channel |
| LedDriver.SetPower | main/led_driver.cpp:26-29 | issues exactly the power write of `WriteFor` and returns the driver's code for it |
| LedDriver.SetHue | main/led_driver.cpp:31-38 | reads the HSV triple, issues the one HSV write of `WriteFor` for it, and returns the driver's code |
| LedDriver.SetSaturation | main/led_driver.cpp:40-47 | reads the HSV triple, issues the one HSV write of `WriteFor` for it, and returns the driver's code |
| LedDriver.SetBrightness | main/led_driver.cpp:49-56 | reads the HSV triple, issues the one HSV write of `WriteFor` for it, and returns the driver's code |
| LedDriver.SetTemperature | main/led_driver.cpp:58-62 | issues the colour temperature write of `WriteFor` and returns the driver's code |
| LedDriver.AttributeUpdate | main/led_driver.cpp:65-90 | runs exactly the setter `Dispatch` selects and returns its code; when nothing is selected, the LED and the trace are unchanged and the result is ESP_OK |
| LedDriver.DefaultSteps | main/led_driver.cpp:99-128 | brightness first and power last; hue then saturation exactly in hue/saturation mode; colour temperature exactly in colour-temperature mode; nothing else in any other mode; no setter twice |
| LedDriver.DefaultPlan | main/led_driver.cpp:97-127 | the start-up push hands two to four setters a value each: brightness first, with the stored level (or the invalid value), and power last |
| LedDriver.MissingAttributeReusesVal | main/led_driver.cpp:97-127 | one `val` serves every read: a setter whose attribute is missing gets the value read just before it; for the first colour setter that is the colour-mode value |
| LedDriver.DefaultPlanFollowsSteps | main/led_driver.cpp:97-128 | the start-up push runs `DefaultSteps` for the colour mode it reads, and hands each setter its own attribute's stored value whenever that attribute exists |
| LedDriver.Push | main/led_driver.cpp:102-128 | running a plan of setters issues one write per setter; `PushCarries`, `PushErr` and `PushOkIff` give their values and the combined code |
| LedDriver.PushCarries | main/led_driver.cpp:99-128 | the i-th write of the push carries the device value the i-th setter derives from its attribute value |
| LedDriver.PushErr | main/led_driver.cpp:94-130 | the push's result is the OR of the codes of every write it issued |
| LedDriver.PushOkIff | main/led_driver.cpp:94-130 | the push returns ESP_OK iff every write it issued returned ESP_OK |
| LedDriver.PushStep | main/led_driver.cpp:102 | one more setter after a push adds its write last and ORs its code in last |
| LedDriver.SetDefaults | main/led_driver.cpp:92-131 | the LED ends in the state of `Push` over `DefaultPlan`, the trace gains exactly its writes, and the result is its OR-ed code |
| LedDriver.InitialLightConfig | main/led_driver.cpp:146-155 | the light starts off (the `DEFAULT_POWER` assignment is overwritten), at level 64 / 4 = 16 and in colour-temperature mode, with no start-up overrides |
| LedDriver.StoreFor | main/led_driver.cpp:146-165 | the endpoint created from a configuration stores its colour mode as the mode byte the push reads, and holds the level, mireds and on/off attributes but no hue or saturation |
| LedDriver.InitialPushIsTemperatureMode | main/led_driver.cpp:146-155 | pushed from the initial configuration, the defaults take the colour-temperature branch: brightness 6, then `1000000 / mireds`, then power off |
| TempDriver.NextFakeTemp | main/temp_driver.cpp:42-43 | the step keeps the reading within 2000..4000, and goes down exactly when one more step would pass 4000 |
| TempDriver.FakeTempAfter | main/temp_driver.cpp:21-43 | after any number of samples, `fake_temp` stays within 2000..4000 |
| TempDriver.FakeTempClosedForm | main/temp_driver.cpp:42-43 | the n-th value is `2000 + 50 * (n mod 41)` |
| TempDriver.FakeTempPeriodic | main/temp_driver.cpp:42-43 | the readings repeat with period 41 |
| TempDriver.FakeTempOnStepGrid | main/temp_driver.cpp:42-43 | every reading is a multiple of 50 |
| TempDriver.FakeTempDistinctInPeriod | main/temp_driver.cpp:42-43 | the 41 readings of one period are strictly increasing |
| TempDriver.TempSensor.constructor | main/temp_driver.cpp:21 | the sampler starts at 2000 with no reports, on the endpoint it is given |
| TempDriver.TempSensor.Read | main/temp_driver.cpp:39-43 | publishes the value held before the call to MeasuredValue on the stored endpoint, then advances it by one step, keeping the sampler invariant |
| TempDriver.ReportsInRange | main/temp_driver.cpp:39-43 | every report goes to TemperatureMeasurement/MeasuredValue on the sampler's endpoint and carries `2000 + 50 * (i mod 41)` |
| TempDriver.NextProbe | main/temp_driver.cpp:72 | once the given results are used up, the iterator reports NOT_FOUND |
| TempDriver.BeforeEnd | main/temp_driver.cpp:71-88 | the results before the first NOT_FOUND form a prefix with no NOT_FOUND in it, followed by NOT_FOUND or by nothing |
| TempDriver.CountDs18b20Prefix | main/temp_driver.cpp:78 | a prefix holds no more accepted DS18B20 devices than the whole |
| TempDriver.SearchDevices | main/temp_driver.cpp:62-88 | the count is the number of accepted DS18B20 devices before NOT_FOUND, capped at MAX_NR_DEV; short of the cap the search reads through NOT_FOUND; at the cap it stops right after the first accepted device, which is the handle |
| TempDriver.SetResolutions | main/temp_driver.cpp:93-96 | exactly `ds18b20_device_num` resolution calls, each on the kept handle with 9-bit resolution |
| App.Routed | main/main.cpp:146-157 | a callback selects a setter only for a pre-update on the light endpoint, and then the one `Dispatch` selects |
| App.AttributeUpdateCb | main/main.cpp:146-157 | a pre-update on the light endpoint does what `AttributeUpdate` does and returns its code; anything else returns ESP_OK and leaves the LED and its trace alone |
| App.OnlyLightPreUpdatesRouted | main/main.cpp:149-156 | post-update, read and write callbacks, and pre-updates on any other endpoint, select nothing |
| App.LightPreUpdateRunsSetter | main/main.cpp:151-153 | a pre-update of a handled attribute on the light endpoint runs that attribute's setter |
| App.IdentificationCb | main/main.cpp:136-141 | every identify request returns ESP_OK |
| App.EventCb | main/main.cpp:92-111 | a commissioning window is requested iff a fabric was removed, none is left and no window is open; it lasts 300 s and is advertised on DNS-SD only |
| App.NoSecondWindow | main/main.cpp:98 | while a window is open, no event requests another |

## Left out

- `app_main` (NVS, power management, node creation, OpenThread, certification declaration, OTA, console, debug timer): vendor initialisation and I/O that aborts on failure.
- `main/adc_driver.cpp`: vendor ADC calls and calibration only, with no logic of its own.
- `main/button_driver.cpp`: the whole file is commented out.
- `led_driver_init`, endpoint creation and deferred persistence in `matter_board_led_init`: calls into the Matter SDK and the board support package. `InitialLightConfig` models only the configuration values it sets, and `StoreFor` models the attributes the created endpoint then holds.
- The attribute store is a map from (endpoint, cluster, attribute) to value, and `attribute::get_val` on a missing attribute is taken to leave `val` unchanged. `endpoint::get_priv_data` is replaced by passing the LED handle directly.
- The LED indicator driver is vendor code, so it is a stand-in. A write is assumed to take effect exactly when the driver returns ESP_OK. The code returned for each write is an arbitrary function of the write.
- LedIndicator.Outcome: the stand-in assumes a write changes only its own field. An on/off or colour-temperature write leaves alone the HSV triple that the next `led_indicator_get_hsv` returns. The vendor driver that decides this is not part of this model, and the final LED state of the push's colour-temperature branch depends on it.
- HSV channels and colour temperature are unbounded integers. The width of `led_indicator_ihsv_t`'s bit fields is not in the repository, so any truncation on packing is not modelled.
- The definitions of `REMAP_TO_RANGE` and `REMAP_TO_RANGE_INVERSE` are not in the repository. They are taken to be `value * to / from` and `factor / value` on non-negative integers.
- Remap.RemapToRangeInverse: requires a non-zero divisor, because no zero guard is assumed; a zero ColorTemperatureMireds write is therefore outside the model, not an error path.
- The real-sensor branch of `temp_sensor_reader` (`temperature * 100`) is floating point and a vendor call. The sensor read-out loop of `matter_temp_init` is left out for the same reason.
- The bus installation, iterator creation and deletion, and `ESP_ERROR_CHECK` aborts are vendor calls. The search sees the iterator's results as a sequence, which is taken to end in NOT_FOUND. The firmware's do-while never ends if `onewire_device_iter_get_next` keeps returning an error other than ESP_ERR_NOT_FOUND. Because the results are finite and NOT_FOUND follows the last one, `SearchDevices` always terminates and does not model that non-termination.
- Timer creation, the 30 s period and the concurrency between the timer context and the Matter thread are left out. Each sample is one `Read` call.
- `app_event_cb` only logs for every event but fabric removal. The error from opening the commissioning window is only logged. The fabric table and the window manager's state are parameters.
- Logging, and the OpenThread configuration macros of `main/app_priv.h`, are left out.
