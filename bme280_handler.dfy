/**
 * BME280Handler: a cached wrapper around the Bmx280 I2C driver. Every read
 * goes to the device when a handle is open and the read succeeds; otherwise
 * the last cached value is returned.
 */
module Bme280 {
  import opened Wrappers

  /**
   * A sensor reading: an integer stand-in for the app's float. Readings are
   * only stored, returned and forwarded, never computed with.
   */
  datatype Reading = Reading(value: int)

  /** The value both caches hold before any successful read. */
  const ZERO: Reading := Reading(0)

  /** What one driver read returns: a value, or an IOException. */
  datatype DeviceResult = Ok(value: Reading) | Fault

  /** An open Bmx280 driver handle, on the I2C bus it was opened on. */
  datatype Device = Device(bus: string)

  /** The Raspberry Pi I2C bus the sensor sits on. */
  const BME_I2C_BUS := "I2C1"

  /**
   * The cache after one read: the device's value when a handle is open and
   * the read succeeded, the previous cache otherwise.
   */
  function Sampled(cache: Reading, device: Option<Device>, result: DeviceResult): (r: Reading)
    ensures r == cache || (device.Some? && result == Ok(r))
    ensures device.Some? && result.Ok? ==> r == result.value
  {
    match result
    case Ok(v) => if device.Some? then v else cache
    case Fault => cache
  }

  /** The cache after a run of reads against the same handle state. */
  function SampleAll(cache: Reading, device: Option<Device>, results: seq<DeviceResult>): Reading
    decreases |results|
  {
    if results == [] then cache
    else SampleAll(Sampled(cache, device, results[0]), device, results[1..])
  }

  /** The value of the last successful read in results, or init when none succeeded. */
  function LastSuccess(init: Reading, results: seq<DeviceResult>): Reading
  {
    if results == [] then init
    else if results[|results| - 1].Ok? then results[|results| - 1].value
    else LastSuccess(init, results[..|results| - 1])
  }

  lemma {:induction false} SampleAllSnoc(cache: Reading, device: Option<Device>, results: seq<DeviceResult>, last: DeviceResult)
    ensures SampleAll(cache, device, results + [last]) == Sampled(SampleAll(cache, device, results), device, last)
    decreases |results|
  {
    if results != [] {
      assert (results + [last])[1..] == results[1..] + [last];
      SampleAllSnoc(Sampled(cache, device, results[0]), device, results[1..], last);
    } else {
      assert (results + [last])[1..] == [];
    }
  }

  /**
   * With an open handle the cache always holds the last successfully read
   * value, or its initial value if no read has succeeded: faults only ever
   * make a read return stale data.
   */
  lemma {:induction false} CacheHoldsLastSuccess(cache: Reading, d: Device, results: seq<DeviceResult>)
    ensures SampleAll(cache, Some(d), results) == LastSuccess(cache, results)
  {
    if results != [] {
      var n := |results| - 1;
      assert results == results[..n] + [results[n]];
      SampleAllSnoc(cache, Some(d), results[..n], results[n]);
      CacheHoldsLastSuccess(cache, d, results[..n]);
    }
  }

  /** Without a handle no read reaches the device, so the cache never changes. */
  lemma {:induction false} NoDeviceKeepsCache(cache: Reading, results: seq<DeviceResult>)
    ensures SampleAll(cache, None, results) == cache
  {
    if results != [] {
      NoDeviceKeepsCache(cache, results[1..]);
    }
  }

  class BME280Handler {
    /** The driver handle; None stands for null. */
    var mBmx280: Option<Device>
    /** Last temperature returned. */
    var mTemp: Reading
    /** Last pressure returned. */
    var mPress: Reading

    constructor ()
      ensures mBmx280 == None && mTemp == ZERO && mPress == ZERO
    {
      mBmx280 := None;
      mTemp := ZERO;
      mPress := ZERO;
    }

    /**
     * start(): opens says whether the driver constructor succeeded. When it
     * did, the handle is kept even if configuring the chip then fails; when
     * it threw, the previous handle (if any) is left in place.
     */
    method Start(opens: bool)
      modifies this`mBmx280
      ensures mBmx280 == if opens then Some(Device(BME_I2C_BUS)) else old(mBmx280)
    {
      if opens {
        mBmx280 := Some(Device(BME_I2C_BUS));
      }
    }

    /** readTemperature(): result is what the device would answer, consulted only with an open handle. */
    method ReadTemperature(result: DeviceResult) returns (t: Reading)
      modifies this`mTemp
      ensures mTemp == Sampled(old(mTemp), mBmx280, result)
      ensures t == mTemp
      ensures mPress == old(mPress) && mBmx280 == old(mBmx280)
    {
      if mBmx280.Some? {
        match result {
          case Ok(v) => mTemp := v;
          case Fault =>
        }
      }
      t := mTemp;
    }

    /** readPressure(): as ReadTemperature, on the pressure cache. */
    method ReadPressure(result: DeviceResult) returns (p: Reading)
      modifies this`mPress
      ensures mPress == Sampled(old(mPress), mBmx280, result)
      ensures p == mPress
      ensures mTemp == old(mTemp) && mBmx280 == old(mBmx280)
    {
      if mBmx280.Some? {
        match result {
          case Ok(v) => mPress := v;
          case Fault =>
        }
      }
      p := mPress;
    }

    /**
     * stop(): closes an open handle and clears it whatever close() does;
     * with no handle nothing happens.
     */
    method Stop()
      modifies this`mBmx280
      ensures mBmx280 == None
      ensures old(mBmx280) == None ==> unchanged(this)
      ensures mTemp == old(mTemp) && mPress == old(mPress)
    {
      if mBmx280.Some? {
        mBmx280 := None;
      }
    }
  }

  /** The static BME280Handler.INSTANCE. */
  class SensorSingleton {
    var instance: BME280Handler?

    constructor ()
      ensures instance == null
    {
      instance := null;
    }

    /** getInstance(): creates the handler on the first call and returns that same one on every later call. */
    method GetInstance() returns (h: BME280Handler)
      modifies this
      ensures instance == h
      ensures old(instance) != null ==> h == old(instance)
      ensures old(instance) == null ==> fresh(h) && h.mBmx280 == None && h.mTemp == ZERO && h.mPress == ZERO
    {
      if instance == null {
        instance := new BME280Handler();
      }
      h := instance;
    }
  }
}
