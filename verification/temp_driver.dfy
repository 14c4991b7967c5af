/**
 * main/temp_driver.cpp: the periodic temperature sampler, which in the
 * shipped configuration publishes a synthetic saw-tooth reading, and the
 * DS18B20 bus search and resolution set-up of `matter_temp_init`.
 */
module TempDriver {
  import opened Matter

  /* The synthetic reading, in hundredths of a degree Celsius. */
  const FAKE_TEMP_START: int32 := 2000
  const FAKE_TEMP_STEP: int32 := 50
  const FAKE_TEMP_MAX: int32 := 4000

  /** How many DS18B20 devices the search keeps. */
  const MAX_NR_DEV: nat := 1

  /** Number of distinct synthetic readings before the sequence repeats: 2000, 2050, ..., 4000. */
  const FAKE_TEMP_PERIOD: nat := 41

  // ---- the synthetic sampler ----

  /** The reading after `t`: one step up, back to the start once past the maximum. */
  function NextFakeTemp(t: int): (r: int)
    ensures FAKE_TEMP_START <= t <= FAKE_TEMP_MAX ==> FAKE_TEMP_START <= r <= FAKE_TEMP_MAX
    ensures r < t <==> t + FAKE_TEMP_STEP > FAKE_TEMP_MAX
  {
    if t + FAKE_TEMP_STEP > FAKE_TEMP_MAX then FAKE_TEMP_START else t + FAKE_TEMP_STEP
  }

  /** The value `fake_temp` holds after `n` samples: never outside 20.00..40.00 degrees. */
  function FakeTempAfter(n: nat): (t: int32)
    ensures FAKE_TEMP_START <= t <= FAKE_TEMP_MAX
  {
    if n == 0 then FAKE_TEMP_START else NextFakeTemp(FakeTempAfter(n - 1))
  }

  /** Helper: counting modulo 41. */
  lemma ModStep(n: nat)
    ensures (n + 1) % 41 == if n % 41 == 40 then 0 else n % 41 + 1
    ensures (n + 41) % 41 == n % 41
  {
  }

  /** The n-th sample is the start value plus `n mod 41` steps of 50. */
  lemma {:induction false} FakeTempClosedForm(n: nat)
    ensures FakeTempAfter(n) == 2000 + 50 * (n % 41)
  {
    if n > 0 {
      FakeTempClosedForm(n - 1);
      ModStep(n - 1);
    }
  }

  /** The readings repeat every 41 samples. */
  lemma FakeTempPeriodic(n: nat)
    ensures FakeTempAfter(n + FAKE_TEMP_PERIOD) == FakeTempAfter(n)
  {
    FakeTempClosedForm(n);
    FakeTempClosedForm(n + FAKE_TEMP_PERIOD);
    ModStep(n);
  }

  /** Every reading is a whole number of steps. */
  lemma FakeTempOnStepGrid(n: nat)
    ensures FakeTempAfter(n) % FAKE_TEMP_STEP == 0
  {
    FakeTempClosedForm(n);
  }

  /** Within one period the readings are all different: every value of the saw-tooth occurs once. */
  lemma FakeTempDistinctInPeriod(i: nat, j: nat)
    requires i < j < FAKE_TEMP_PERIOD
    ensures FakeTempAfter(i) < FakeTempAfter(j)
  {
    FakeTempClosedForm(i);
    FakeTempClosedForm(j);
  }

  /** `attribute::update(endpoint, cluster, attribute, &val)`: one value reported to the attribute store. */
  datatype Report = Report(ref: AttributeRef, val: AttrVal)

  function MeasuredValueRef(endpoint: uint16): AttributeRef
  {
    AttributeRef(endpoint, TEMPERATURE_MEASUREMENT_CLUSTER, MEASURED_VALUE_ATTRIBUTE)
  }

  /** The report the i-th sample makes on `endpoint`. */
  function SampleReport(endpoint: uint16, i: nat): Report
  {
    Report(MeasuredValueRef(endpoint), Int(FakeTempAfter(i)))
  }

  /**
   * The sampler: the endpoint stored in `s_ctx` when the sensor endpoint is
   * created, the global `fake_temp`, and every report made so far.
   */
  class TempSensor {
    /** `s_ctx.temp_endpoint_id` */
    const endpoint: uint16
    /** `fake_temp` */
    var fakeTemp: int32
    /** The updates issued to the attribute store, oldest first. */
    var reports: seq<Report>

    /** `fake_temp` is the sample after as many steps as reports were made, and report i carries sample i. */
    ghost predicate Valid()
      reads this
    {
      && fakeTemp == FakeTempAfter(|reports|)
      && forall i :: 0 <= i < |reports| ==> reports[i] == SampleReport(endpoint, i)
    }

    constructor (endpoint: uint16)
      ensures Valid() && this.endpoint == endpoint && reports == [] && fakeTemp == FAKE_TEMP_START
    {
      this.endpoint := endpoint;
      fakeTemp := FAKE_TEMP_START;
      reports := [];
    }

    /** `temp_sensor_reader`, synthetic branch: publish the current value, then advance it. */
    method Read()
      requires Valid()
      modifies this
      ensures Valid()
      ensures reports == old(reports) + [Report(MeasuredValueRef(endpoint), Int(old(fakeTemp)))]
      ensures fakeTemp == NextFakeTemp(old(fakeTemp))
    {
      var val := Int(fakeTemp);
      reports := reports + [Report(MeasuredValueRef(endpoint), val)];
      fakeTemp := fakeTemp + FAKE_TEMP_STEP;
      if fakeTemp > FAKE_TEMP_MAX {
        fakeTemp := FAKE_TEMP_START;
      }
    }
  }

  /** Every report of a valid sampler is a MeasuredValue update on its endpoint within 20.00..40.00 degrees. */
  lemma ReportsInRange(sensor: TempSensor, i: nat)
    requires sensor.Valid() && i < |sensor.reports|
    ensures sensor.reports[i].ref == MeasuredValueRef(sensor.endpoint)
    ensures sensor.reports[i].val.Int?
    ensures FAKE_TEMP_START <= sensor.reports[i].val.i <= FAKE_TEMP_MAX
    ensures sensor.reports[i].val.i == FAKE_TEMP_START + FAKE_TEMP_STEP * (i % FAKE_TEMP_PERIOD)
  {
    FakeTempClosedForm(i);
  }

  // ---- the DS18B20 bus search (compiled out while the synthetic sampler is used) ----

  /**
   * One result of `onewire_device_iter_get_next`: a device, which
   * `ds18b20_new_device` accepts or not; the end of the search; or another error.
   */
  datatype Probe = Device(isDs18b20: bool) | NotFound | SearchError

  /** The iterator's i-th result; past the given results the search is over. */
  function NextProbe(probes: seq<Probe>, i: nat): (p: Probe)
    ensures i >= |probes| ==> p == NotFound
  {
    if i < |probes| then probes[i] else NotFound
  }

  /** The results the iterator returns before the first NotFound. */
  function BeforeEnd(probes: seq<Probe>): (p: seq<Probe>)
    ensures |p| <= |probes| && p == probes[..|p|]
    ensures NotFound !in p
    ensures |p| < |probes| ==> probes[|p|] == NotFound
  {
    if probes == [] || probes[0] == NotFound then [] else [probes[0]] + BeforeEnd(probes[1..])
  }

  /** How many results of `s` are devices accepted as DS18B20. */
  function CountDs18b20(s: seq<Probe>): (n: nat)
    ensures n <= |s|
  {
    if s == [] then 0 else CountDs18b20(s[..|s| - 1]) + (if s[|s| - 1] == Device(true) then 1 else 0)
  }

  /** Counting a sequence extended by one result. */
  lemma CountDs18b20Snoc(s: seq<Probe>, p: Probe)
    ensures CountDs18b20(s + [p]) == CountDs18b20(s) + (if p == Device(true) then 1 else 0)
  {
    assert (s + [p])[..|s|] == s;
  }

  /** A prefix holds no more DS18B20 devices than the whole. */
  lemma {:induction false} CountDs18b20Prefix(s: seq<Probe>, k: nat)
    requires k <= |s|
    ensures CountDs18b20(s[..k]) <= CountDs18b20(s)
    decreases |s|
  {
    if k < |s| {
      var n := |s| - 1;
      assert s[..n][..k] == s[..k];
      CountDs18b20Prefix(s[..n], k);
    } else {
      assert s[..k] == s;
    }
  }

  /**
   * The search loop of `matter_temp_init`: reads results until NotFound,
   * counting the devices accepted as DS18B20 and stopping once MAX_NR_DEV
   * of them are found. `calls` is how many results it read, `handle` the
   * position of the last accepted device.
   */
  method SearchDevices(probes: seq<Probe>) returns (count: nat, calls: nat, handle: Option<nat>)
    ensures var found := CountDs18b20(BeforeEnd(probes));
      count == if found < MAX_NR_DEV then found else MAX_NR_DEV
    ensures count < MAX_NR_DEV ==> calls == |BeforeEnd(probes)| + 1
    ensures count == MAX_NR_DEV ==> 0 < calls <= |BeforeEnd(probes)| && probes[calls - 1] == Device(true)
    ensures handle.Some? <==> count > 0
    ensures handle.Some? ==> handle.value < calls && probes[handle.value] == Device(true)
    ensures count == MAX_NR_DEV ==> CountDs18b20(probes[..calls]) == MAX_NR_DEV && handle == Some(calls - 1)
  {
    ghost var prefix := BeforeEnd(probes);
    count, calls, handle := 0, 0, None;
    while true
      invariant calls <= |prefix| && count == CountDs18b20(prefix[..calls]) && count < MAX_NR_DEV
      invariant handle.Some? <==> count > 0
      invariant prefix[..calls] == probes[..calls]
      decreases |prefix| - calls
    {
      var result := NextProbe(probes, calls);
      ghost var seen := calls;
      if seen < |prefix| {
        assert result == prefix[seen];
        CountStep(prefix, seen);
      }
      calls := calls + 1;
      if result.Device? {
        if result.isDs18b20 {
          handle := Some(calls - 1);
          count := count + 1;
          if count >= MAX_NR_DEV {
            CountDs18b20Prefix(prefix, calls);
            assert prefix[..calls] == probes[..calls];
            break;
          }
        }
      }
      if result == NotFound {
        assert prefix[..seen] == prefix;
        break;
      }
    }
  }

  /** Reading one more result of the prefix adds one exactly when it is an accepted DS18B20. */
  lemma CountStep(prefix: seq<Probe>, k: nat)
    requires k < |prefix|
    ensures CountDs18b20(prefix[..k + 1]) == CountDs18b20(prefix[..k]) + (if prefix[k] == Device(true) then 1 else 0)
  {
    assert prefix[..k + 1] == prefix[..k] + [prefix[k]];
    CountDs18b20Snoc(prefix[..k], prefix[k]);
  }

  /** The resolutions `ds18b20_set_resolution` accepts; the firmware asks for the coarsest. */
  datatype Resolution = Resolution9B | Resolution10B | Resolution11B | Resolution12B

  /**
   * The resolution loop of `matter_temp_init`: one `ds18b20_set_resolution`
   * per device counted, every one of them on the single handle kept by the
   * search and with 9-bit resolution.
   */
  method SetResolutions(handle: nat, deviceNum: nat) returns (calls: seq<(nat, Resolution)>)
    ensures |calls| == deviceNum
    ensures forall i :: 0 <= i < |calls| ==> calls[i] == (handle, Resolution9B)
  {
    calls := [];
    for i := 0 to deviceNum
      invariant |calls| == i
      invariant forall j :: 0 <= j < |calls| ==> calls[j] == (handle, Resolution9B)
    {
      calls := calls + [(handle, Resolution9B)];
    }
  }
}
