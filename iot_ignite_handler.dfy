/**
 * IotIgniteHandler: the connection watchdog and the two publish loops.
 *
 * The watchdog runnable retries the connection every 10 s while the platform
 * is not connected. After a connection the node and the two things are
 * registered and marked online, and one publish runnable per thing sends the
 * sensor's current reading and reposts itself with its stream's period. The
 * platform can change a period at run time; a period of 0 becomes 1000 ms and
 * a negative period stops the reposting.
 */
module IotIgnite {
  import opened Wrappers
  import opened Looper
  import opened Bme280
  import opened IgniteSdk

  const IGNITE_RECONNECT_INTERVAL: int := 10000
  /** The period a stream gets when its configured frequency is 0. */
  const DEFAULT_READ_FREQ: int := 1000
  /** The period of a stream before any configuration has arrived. */
  const UNSET_READ_FREQ: int := -1

  const ON_DESTROY_MSG := "Application Destroyed"
  const ANDROID_THINGS_NODE_ID := "Android Things Node"
  const TEMP_THING_ID := "BME280 TEMPERATURE"
  const PRESSURE_THING_ID := "BME280 PRESSURE"

  /** The single watchdog callback the watchdog handler may hold. */
  const WATCHDOG_ENTRY := Entry(IgniteWatchdogRunnable, IGNITE_RECONNECT_INTERVAL)

  /** A configured reading frequency as stored: 0 becomes the default, anything else is kept. */
  function Coerce(freq: int): (period: int)
    ensures period != 0
    ensures freq != 0 ==> period == freq
    ensures freq == 0 ==> period == DEFAULT_READ_FREQ
  {
    if freq == 0 then DEFAULT_READ_FREQ else freq
  }

  /** An entity after a registration helper, and the SDK calls the helper made. */
  datatype Registered = Registered(entity: Option<Entity>, effects: seq<Effect>)

  /**
   * registerNodeAndSetConnectionOnline: a non-null entity is marked online
   * when it is registered already or register() succeeds; register() is only
   * asked when it is not registered yet.
   */
  function RegisterAndSetOnline(e: Option<Entity>, registerOk: bool): (r: Registered)
    ensures r.entity.Some? <==> e.Some?
    ensures e.None? ==> r.effects == []
    ensures e.Some? ==> r.entity.value.id == e.value.id
    ensures e.Some? ==> (r.entity.value.registered <==> e.value.registered || registerOk)
    ensures e.Some? ==> (MarkedOnline(r.effects, e.value.id) <==> e.value.registered || registerOk)
    ensures e.Some? ==> (Register(e.value.id) in r.effects <==> !e.value.registered)
    ensures forall x :: MarkedOnline(r.effects, x) ==> e.Some? && x == e.value.id
  {
    match e
    case None => Registered(None, [])
    case Some(n) =>
      if n.registered then Registered(e, [SetConnected(n.id, true, "")])
      else if registerOk then Registered(Some(n.(registered := true)), [Register(n.id), SetConnected(n.id, true, "")])
      else Registered(e, [Register(n.id)])
  }

  /**
   * registerThingAndSetConnectionOnline: as RegisterAndSetOnline, and only
   * when the node exists and is registered; otherwise nothing is asked.
   */
  function RegisterThingAndSetOnline(node: Option<Entity>, thing: Option<Entity>, registerOk: bool): (r: Registered)
    ensures r.entity.Some? <==> thing.Some?
    ensures thing.Some? ==> r.entity.value.id == thing.value.id
    ensures thing.Some? ==>
      (MarkedOnline(r.effects, thing.value.id) <==>
         node.Some? && node.value.registered && (thing.value.registered || registerOk))
    ensures !(node.Some? && node.value.registered) ==> r == Registered(thing, [])
    ensures forall x :: MarkedOnline(r.effects, x) ==> thing.Some? && x == thing.value.id
  {
    if node.Some? && node.value.registered then RegisterAndSetOnline(thing, registerOk)
    else Registered(thing, [])
  }

  /** The node and things after the registration part of onConnected, and the SDK calls made. */
  datatype Registration = Registration(node: Option<Entity>, temp: Option<Entity>, pressure: Option<Entity>, effects: seq<Effect>)

  /**
   * The registration part of onConnected: create and register the node;
   * only when the node ends up registered, create and register the two
   * things (otherwise the fields keep the things of an earlier connection).
   */
  function ConnectRegistration(sdk: ConnectAnswers, oldTemp: Option<Entity>, oldPressure: Option<Entity>): (r: Registration)
    ensures r.node.Some? <==> sdk.node.created
    ensures Registers(sdk.node) ==>
      (r.temp.Some? <==> sdk.temp.created) && (r.pressure.Some? <==> sdk.pressure.created) &&
      (r.temp.Some? ==> r.temp.value.id == TEMP_THING_ID) &&
      (r.pressure.Some? ==> r.pressure.value.id == PRESSURE_THING_ID)
    ensures !Registers(sdk.node) ==> r.temp == oldTemp && r.pressure == oldPressure
  {
    var n := RegisterAndSetOnline(Create(ANDROID_THINGS_NODE_ID, sdk.node), sdk.node.registerOk);
    if n.entity.Some? && n.entity.value.registered then
      var t := RegisterThingAndSetOnline(n.entity, Create(TEMP_THING_ID, sdk.temp), sdk.temp.registerOk);
      var p := RegisterThingAndSetOnline(n.entity, Create(PRESSURE_THING_ID, sdk.pressure), sdk.pressure.registerOk);
      Registration(n.entity, t.entity, p.entity, n.effects + t.effects + p.effects)
    else
      Registration(n.entity, oldTemp, oldPressure, n.effects)
  }

  /**
   * After onConnected's registration step the node is online exactly when it
   * was created and registered (already, or register() succeeded); a thing is
   * online exactly when, in addition, it was created and registered.
   */
  lemma ConnectRegistrationMarksOnline(sdk: ConnectAnswers, oldTemp: Option<Entity>, oldPressure: Option<Entity>)
    ensures var r := ConnectRegistration(sdk, oldTemp, oldPressure);
      (MarkedOnline(r.effects, ANDROID_THINGS_NODE_ID) <==> Registers(sdk.node)) &&
      (MarkedOnline(r.effects, TEMP_THING_ID) <==> Registers(sdk.node) && Registers(sdk.temp)) &&
      (MarkedOnline(r.effects, PRESSURE_THING_ID) <==> Registers(sdk.node) && Registers(sdk.pressure))
  {
  }

  /** The non-null entities of es, in order. */
  function Present(es: seq<Option<Entity>>): seq<Entity>
  {
    if es == [] then []
    else (if es[0].Some? then [es[0].value] else []) + Present(es[1..])
  }

  /** setNodeConnection / setThingConnection: one SetConnected call for a non-null entity, none for null. */
  function SetConnection(e: Option<Entity>, state: bool, reason: string): seq<Effect>
  {
    if e.Some? then [SetConnected(e.value.id, state, reason)] else []
  }

  /** The offline marks shutdown makes for es: one per non-null entity, in the order given. */
  function OfflineEffects(es: seq<Option<Entity>>): (fx: seq<Effect>)
    ensures |fx| == |Present(es)|
    ensures forall k :: 0 <= k < |fx| ==> fx[k] == SetConnected(Present(es)[k].id, false, ON_DESTROY_MSG)
  {
    if es == [] then []
    else SetConnection(es[0], false, ON_DESTROY_MSG) + OfflineEffects(es[1..])
  }

  /** Shutdown's three calls, one after the other, are exactly the offline marks of the three entities. */
  lemma OfflineEffectsOfThree(a: Option<Entity>, b: Option<Entity>, c: Option<Entity>)
    ensures OfflineEffects([a, b, c]) ==
      SetConnection(a, false, ON_DESTROY_MSG) + SetConnection(b, false, ON_DESTROY_MSG) + SetConnection(c, false, ON_DESTROY_MSG)
  {
    assert [a, b, c][1..] == [b, c];
    assert [b, c][1..] == [c];
    assert [c][1..] == [];
    assert OfflineEffects([c]) == SetConnection(c, false, ON_DESTROY_MSG);
    assert OfflineEffects([b, c]) == SetConnection(b, false, ON_DESTROY_MSG) + OfflineEffects([c]);
  }

  /**
   * Whatever publish entries were pending, re-arming the pressure runnable and
   * then the temperature runnable with an immediate run leaves exactly one
   * immediate run of each and nothing else.
   */
  lemma StartLeavesOneRunEach(q: seq<Entry>)
    requires forall e :: e in q ==> e.task != IgniteWatchdogRunnable
    ensures Rearmed(Rearmed(q, SendPressureDataRunnable, 0), SendTempDataRunnable, 0) ==
      [Entry(SendPressureDataRunnable, 0), Entry(SendTempDataRunnable, 0)]
  {
    var p0, t0 := Entry(SendPressureDataRunnable, 0), Entry(SendTempDataRunnable, 0);
    WithoutMembers(q, SendPressureDataRunnable);
    WithoutOnly(Without(q, SendPressureDataRunnable), SendTempDataRunnable);
    WithoutAppend(Without(q, SendPressureDataRunnable), [p0], SendTempDataRunnable);
    assert [p0][1..] == [];
    assert [p0, t0][1..] == [t0];
    assert [t0][1..] == [];
  }

  /** The thing a publish runnable sends to. */
  function ThingIdOf(t: Runnable): string
  {
    if t == SendPressureDataRunnable then PRESSURE_THING_ID else TEMP_THING_ID
  }

  /** The SDK calls of one publish: a one-element data list set on the thing and sent. */
  function Publication(id: string, r: Reading): seq<Effect>
  {
    [SetThingData(id, [r]), SendData(id, [r])]
  }

  class IotIgniteHandler {
    var igniteConnected: bool
    var pressureReadFreq: int
    var tempReadFreq: int
    /** The handler the watchdog runnable is posted to. */
    const igniteWatchdog: Handler
    /** The handler both publish runnables are posted to. */
    const mDataHandler: Handler
    var mBMEHandler: BME280Handler?
    var androidThingsNode: Option<Entity>
    var mTempThing: Option<Entity>
    var mPressureThing: Option<Entity>
    /** Every SDK call made so far, oldest first. */
    ghost var trace: seq<Effect>

    /** A pending publish entry is an immediate run or a repost after its stream's (positive) period. */
    ghost predicate DataEntryOk(e: Entry)
      reads this`pressureReadFreq, this`tempReadFreq
    {
      match e.task
      case SendPressureDataRunnable => e.delay == 0 || (e.delay >= 1 && e.delay == pressureReadFreq)
      case SendTempDataRunnable => e.delay == 0 || (e.delay >= 1 && e.delay == tempReadFreq)
      case IgniteWatchdogRunnable => false
    }

    /** At most one watchdog callback is pending, always with the reconnect interval. */
    ghost predicate WatchdogValid()
      reads igniteWatchdog
    {
      igniteWatchdog.pending == [] || igniteWatchdog.pending == [WATCHDOG_ENTRY]
    }

    /** A stored period is never 0 and at most one entry per publish runnable is pending. */
    ghost predicate QueueValid()
      reads this`pressureReadFreq, this`tempReadFreq, mDataHandler
    {
      pressureReadFreq != 0 && tempReadFreq != 0 &&
      (forall e | e in mDataHandler.pending :: DataEntryOk(e)) &&
      Count(mDataHandler.pending, SendPressureDataRunnable) <= 1 &&
      Count(mDataHandler.pending, SendTempDataRunnable) <= 1
    }

    /** A pending publish has a sensor and its thing to work with. */
    ghost predicate LinksValid()
      reads this`mBMEHandler, this`mTempThing, this`mPressureThing, mDataHandler
    {
      (Count(mDataHandler.pending, SendPressureDataRunnable) != 0 ==> mPressureThing.Some? && mBMEHandler != null) &&
      (Count(mDataHandler.pending, SendTempDataRunnable) != 0 ==> mTempThing.Some? && mBMEHandler != null) &&
      (mTempThing.Some? ==> mTempThing.value.id == TEMP_THING_ID) &&
      (mPressureThing.Some? ==> mPressureThing.value.id == PRESSURE_THING_ID)
    }

    ghost predicate DataValid()
      reads this`pressureReadFreq, this`tempReadFreq, this`mBMEHandler, this`mTempThing, this`mPressureThing, mDataHandler
    {
      QueueValid() && LinksValid()
    }

    ghost predicate Valid()
      reads this`pressureReadFreq, this`tempReadFreq, this`mBMEHandler, this`mTempThing, this`mPressureThing
      reads igniteWatchdog, mDataHandler
    {
      igniteWatchdog != mDataHandler && WatchdogValid() && DataValid()
    }

    constructor ()
      ensures Valid() && fresh(igniteWatchdog) && fresh(mDataHandler)
      ensures !igniteConnected
      ensures pressureReadFreq == UNSET_READ_FREQ && tempReadFreq == UNSET_READ_FREQ
      ensures igniteWatchdog.pending == [] && mDataHandler.pending == []
      ensures mBMEHandler == null
      ensures androidThingsNode == None && mTempThing == None && mPressureThing == None
      ensures trace == []
    {
      igniteConnected := false;
      pressureReadFreq := UNSET_READ_FREQ;
      tempReadFreq := UNSET_READ_FREQ;
      igniteWatchdog := new Handler();
      mDataHandler := new Handler();
      mBMEHandler := null;
      androidThingsNode := None;
      mTempThing := None;
      mPressureThing := None;
      trace := [];
    }

    /** start(): arms the watchdog. */
    method Start()
      requires Valid()
      modifies igniteWatchdog
      ensures Valid()
      ensures igniteWatchdog.pending == [WATCHDOG_ENTRY]
    {
      StartIgniteWatchdog();
    }

    /** startIgniteWatchdog(): cancel any pending watchdog callback, then post exactly one. */
    method StartIgniteWatchdog()
      requires Valid()
      modifies igniteWatchdog
      ensures Valid()
      ensures igniteWatchdog.pending == [WATCHDOG_ENTRY]
    {
      assert Without([WATCHDOG_ENTRY], IgniteWatchdogRunnable) == [] by {
        assert [WATCHDOG_ENTRY][1..] == [];
      }
      igniteWatchdog.RemoveCallbacks(IgniteWatchdogRunnable);
      igniteWatchdog.PostDelayed(IgniteWatchdogRunnable, IGNITE_RECONNECT_INTERVAL);
    }

    /** rebuildIgnite(): one connect attempt; its outcome arrives later as OnConnected or OnDisconnected. */
    method RebuildIgnite()
      modifies this`trace
      ensures trace == old(trace) + [ConnectAttempt]
    {
      trace := trace + [ConnectAttempt];
    }

    /**
     * The looper runs the watchdog callback (igniteWatchdogRunnable.run()).
     * While disconnected: one connect attempt and one repost after the
     * reconnect interval. While connected: nothing, and no repost.
     */
    method RunWatchdog(i: nat)
      requires Valid() && i < |igniteWatchdog.pending|
      modifies this`trace, igniteWatchdog
      ensures Valid()
      ensures !igniteConnected ==> igniteWatchdog.pending == [WATCHDOG_ENTRY] && trace == old(trace) + [ConnectAttempt]
      ensures igniteConnected ==> igniteWatchdog.pending == [] && trace == old(trace)
    {
      var e := igniteWatchdog.Next(i);
      assert e == WATCHDOG_ENTRY;
      if !igniteConnected {
        RebuildIgnite();
        igniteWatchdog.PostDelayed(IgniteWatchdogRunnable, IGNITE_RECONNECT_INTERVAL);
      }
    }

    /**
     * onConnected(): cancels the watchdog, starts the sensor, registers the
     * node and things and starts both publish loops. sensorOpens is whether
     * the driver could be opened; pressureConfig and tempConfig are the
     * frequencies stored on the platform for the two things.
     */
    method OnConnected(sensors: SensorSingleton, sdk: ConnectAnswers, sensorOpens: bool, pressureConfig: int, tempConfig: int)
      requires Valid()
      // checkConfigsAndStart dereferences both things
      requires Registers(sdk.node) ==> sdk.temp.created && sdk.pressure.created
      requires !Registers(sdk.node) ==> mTempThing.Some? && mPressureThing.Some?
      modifies this, igniteWatchdog, mDataHandler, sensors, sensors.instance
      ensures Valid()
      ensures igniteConnected && igniteWatchdog.pending == []
      ensures mBMEHandler == sensors.instance && mBMEHandler != null
      ensures old(sensors.instance) != null ==> mBMEHandler == old(sensors.instance)
      ensures sensorOpens ==> mBMEHandler.mBmx280 == Some(Device(BME_I2C_BUS))
      ensures !sensorOpens ==>
        mBMEHandler.mBmx280 == (if old(sensors.instance) == null then None else old(sensors.instance.mBmx280))
      ensures old(sensors.instance) == null ==> fresh(mBMEHandler) && mBMEHandler.mTemp == ZERO && mBMEHandler.mPress == ZERO
      ensures old(sensors.instance) != null ==>
        mBMEHandler.mTemp == old(sensors.instance.mTemp) && mBMEHandler.mPress == old(sensors.instance.mPress)
      ensures var r := ConnectRegistration(sdk, old(mTempThing), old(mPressureThing));
        androidThingsNode == r.node && mTempThing == r.temp && mPressureThing == r.pressure &&
        trace == old(trace) + r.effects
      ensures pressureReadFreq == Coerce(pressureConfig) && tempReadFreq == Coerce(tempConfig)
      ensures mDataHandler.pending ==
        Rearmed(Rearmed(old(mDataHandler.pending), SendPressureDataRunnable, 0), SendTempDataRunnable, 0)
      ensures mDataHandler.pending == [Entry(SendPressureDataRunnable, 0), Entry(SendTempDataRunnable, 0)]
    {
      WithoutOnly(igniteWatchdog.pending, IgniteWatchdogRunnable);
      igniteWatchdog.RemoveCallbacks(IgniteWatchdogRunnable);
      igniteConnected := true;
      assert WatchdogValid() && igniteWatchdog.pending == [];

      AttachSensor(sensors, sensorOpens);
      RegisterNodeAndThings(sdk);

      CheckConfigsAndStart(pressureConfig, tempConfig);
    }

    /** The sensor step of onConnected: take the shared BME280 handler and start it. */
    method AttachSensor(sensors: SensorSingleton, sensorOpens: bool)
      requires Valid()
      modifies this`mBMEHandler, sensors, sensors.instance
      ensures Valid()
      ensures mBMEHandler == sensors.instance && mBMEHandler != null
      ensures old(sensors.instance) != null ==> mBMEHandler == old(sensors.instance)
      ensures sensorOpens ==> mBMEHandler.mBmx280 == Some(Device(BME_I2C_BUS))
      ensures !sensorOpens ==>
        mBMEHandler.mBmx280 == (if old(sensors.instance) == null then None else old(sensors.instance.mBmx280))
      ensures old(sensors.instance) == null ==> fresh(mBMEHandler) && mBMEHandler.mTemp == ZERO && mBMEHandler.mPress == ZERO
      ensures old(sensors.instance) != null ==>
        mBMEHandler.mTemp == old(sensors.instance.mTemp) && mBMEHandler.mPress == old(sensors.instance.mPress)
    {
      mBMEHandler := sensors.GetInstance();
      mBMEHandler.Start(sensorOpens);
    }

    /**
     * The registration step of onConnected: the node is created and
     * registered and, when it ends up registered, so are the two things.
     */
    method RegisterNodeAndThings(sdk: ConnectAnswers)
      requires Valid()
      requires Registers(sdk.node) ==> sdk.temp.created && sdk.pressure.created
      requires !Registers(sdk.node) ==> mTempThing.Some? && mPressureThing.Some?
      modifies this`androidThingsNode, this`mTempThing, this`mPressureThing, this`trace
      ensures Valid()
      ensures mTempThing.Some? && mPressureThing.Some?
      ensures var r := ConnectRegistration(sdk, old(mTempThing), old(mPressureThing));
        androidThingsNode == r.node && mTempThing == r.temp && mPressureThing == r.pressure &&
        trace == old(trace) + r.effects
    {
      var r := ConnectRegistration(sdk, mTempThing, mPressureThing);
      androidThingsNode := r.node;
      mTempThing := r.temp;
      mPressureThing := r.pressure;
      trace := trace + r.effects;
    }

    /** onDisconnected(): re-arms the watchdog. */
    method OnDisconnected()
      requires Valid()
      modifies this`igniteConnected, igniteWatchdog
      ensures Valid()
      ensures !igniteConnected && igniteWatchdog.pending == [WATCHDOG_ENTRY]
    {
      igniteConnected := false;
      StartIgniteWatchdog();
    }

    /**
     * checkConfigsAndStart(): seeds both periods from the stored
     * configuration and schedules one immediate run of each publish runnable.
     */
    method CheckConfigsAndStart(pressureConfig: int, tempConfig: int)
      requires Valid() && mPressureThing.Some? && mTempThing.Some? && mBMEHandler != null
      modifies this`pressureReadFreq, this`tempReadFreq, mDataHandler
      ensures Valid()
      ensures pressureReadFreq == Coerce(pressureConfig) && tempReadFreq == Coerce(tempConfig)
      ensures mDataHandler.pending ==
        Rearmed(Rearmed(old(mDataHandler.pending), SendPressureDataRunnable, 0), SendTempDataRunnable, 0)
      ensures mDataHandler.pending == [Entry(SendPressureDataRunnable, 0), Entry(SendTempDataRunnable, 0)]
    {
      StartLeavesOneRunEach(mDataHandler.pending);
      ghost var p0, t0 := Entry(SendPressureDataRunnable, 0), Entry(SendTempDataRunnable, 0);
      CountPair(p0, t0, SendPressureDataRunnable);
      CountPair(p0, t0, SendTempDataRunnable);
      pressureReadFreq := Coerce(pressureConfig);
      tempReadFreq := Coerce(tempConfig);

      mDataHandler.RemoveCallbacks(SendPressureDataRunnable);
      mDataHandler.Post(SendPressureDataRunnable);
      mDataHandler.RemoveCallbacks(SendTempDataRunnable);
      mDataHandler.Post(SendTempDataRunnable);
    }

    /**
     * onConfigurationReceived(thing): for one of the two things, store its
     * new period (0 becomes 1000), cancel its pending publish and schedule
     * one immediate run; the other stream is not touched. Any other thing
     * changes nothing.
     */
    method OnConfigurationReceived(thingId: string, freq: int)
      requires Valid()
      // the platform only calls back for the things onConnected created
      requires thingId == PRESSURE_THING_ID ==> mPressureThing.Some? && mBMEHandler != null
      requires thingId == TEMP_THING_ID ==> mTempThing.Some? && mBMEHandler != null
      modifies this`pressureReadFreq, this`tempReadFreq, mDataHandler
      ensures Valid()
      ensures thingId == PRESSURE_THING_ID ==>
        pressureReadFreq == Coerce(freq) && tempReadFreq == old(tempReadFreq) &&
        mDataHandler.pending == Rearmed(old(mDataHandler.pending), SendPressureDataRunnable, 0)
      ensures thingId == TEMP_THING_ID ==>
        tempReadFreq == Coerce(freq) && pressureReadFreq == old(pressureReadFreq) &&
        mDataHandler.pending == Rearmed(old(mDataHandler.pending), SendTempDataRunnable, 0)
      ensures thingId != PRESSURE_THING_ID && thingId != TEMP_THING_ID ==>
        pressureReadFreq == old(pressureReadFreq) && tempReadFreq == old(tempReadFreq) &&
        mDataHandler.pending == old(mDataHandler.pending)
    {
      ghost var q := mDataHandler.pending;
      if thingId == PRESSURE_THING_ID {
        pressureReadFreq := freq;
        mDataHandler.RemoveCallbacks(SendPressureDataRunnable);
        pressureReadFreq := if pressureReadFreq == 0 then DEFAULT_READ_FREQ else pressureReadFreq;
        mDataHandler.Post(SendPressureDataRunnable);
        RearmedLeavesOne(q, SendPressureDataRunnable, 0);
      } else if thingId == TEMP_THING_ID {
        tempReadFreq := freq;
        mDataHandler.RemoveCallbacks(SendTempDataRunnable);
        tempReadFreq := if tempReadFreq == 0 then DEFAULT_READ_FREQ else tempReadFreq;
        mDataHandler.Post(SendTempDataRunnable);
        RearmedLeavesOne(q, SendTempDataRunnable, 0);
      }
    }

    /**
     * sendPressureDataRunnable.run(), once the looper has taken its entry:
     * read the pressure (result is the device's answer), send it as a
     * one-element list to the pressure thing, and repost after the period
     * when the period is above -1.
     */
    method RunSendPressureData(result: DeviceResult)
      requires Valid() && Count(mDataHandler.pending, SendPressureDataRunnable) == 0
      requires mPressureThing.Some? && mBMEHandler != null
      modifies this`trace, mDataHandler, mBMEHandler
      ensures Valid()
      ensures mBMEHandler.mPress == Sampled(old(mBMEHandler.mPress), mBMEHandler.mBmx280, result)
      ensures mBMEHandler.mTemp == old(mBMEHandler.mTemp) && mBMEHandler.mBmx280 == old(mBMEHandler.mBmx280)
      ensures trace == old(trace) + Publication(PRESSURE_THING_ID, mBMEHandler.mPress)
      ensures mDataHandler.pending == old(mDataHandler.pending) +
        (if pressureReadFreq > UNSET_READ_FREQ then [Entry(SendPressureDataRunnable, pressureReadFreq)] else [])
    {
      var reading := mBMEHandler.ReadPressure(result);
      trace := trace + Publication(mPressureThing.value.id, reading);
      if pressureReadFreq > UNSET_READ_FREQ {
        CountAppend(mDataHandler.pending, [Entry(SendPressureDataRunnable, pressureReadFreq)], SendPressureDataRunnable);
        CountAppend(mDataHandler.pending, [Entry(SendPressureDataRunnable, pressureReadFreq)], SendTempDataRunnable);
        mDataHandler.PostDelayed(SendPressureDataRunnable, pressureReadFreq);
      }
    }

    /** sendTempDataRunnable.run(): as RunSendPressureData, for temperature. */
    method RunSendTempData(result: DeviceResult)
      requires Valid() && Count(mDataHandler.pending, SendTempDataRunnable) == 0
      requires mTempThing.Some? && mBMEHandler != null
      modifies this`trace, mDataHandler, mBMEHandler
      ensures Valid()
      ensures mBMEHandler.mTemp == Sampled(old(mBMEHandler.mTemp), mBMEHandler.mBmx280, result)
      ensures mBMEHandler.mPress == old(mBMEHandler.mPress) && mBMEHandler.mBmx280 == old(mBMEHandler.mBmx280)
      ensures trace == old(trace) + Publication(TEMP_THING_ID, mBMEHandler.mTemp)
      ensures mDataHandler.pending == old(mDataHandler.pending) +
        (if tempReadFreq > UNSET_READ_FREQ then [Entry(SendTempDataRunnable, tempReadFreq)] else [])
    {
      var reading := mBMEHandler.ReadTemperature(result);
      trace := trace + Publication(mTempThing.value.id, reading);
      if tempReadFreq > UNSET_READ_FREQ {
        CountAppend(mDataHandler.pending, [Entry(SendTempDataRunnable, tempReadFreq)], SendPressureDataRunnable);
        CountAppend(mDataHandler.pending, [Entry(SendTempDataRunnable, tempReadFreq)], SendTempDataRunnable);
        mDataHandler.PostDelayed(SendTempDataRunnable, tempReadFreq);
      }
    }

    /**
     * The looper runs the data handler's entry at index i: one publish to
     * that entry's own thing, after which at most one entry per runnable is
     * still pending.
     */
    method RunDataHandler(i: nat, result: DeviceResult)
      requires Valid() && i < |mDataHandler.pending|
      modifies this`trace, mDataHandler, mBMEHandler
      ensures Valid()
      ensures mBMEHandler != null && mBMEHandler == old(mBMEHandler)
      ensures mBMEHandler.mBmx280 == old(mBMEHandler.mBmx280)
      ensures old(mDataHandler.pending)[i].task == SendPressureDataRunnable ==>
        mBMEHandler.mPress == Sampled(old(mBMEHandler.mPress), mBMEHandler.mBmx280, result) &&
        mBMEHandler.mTemp == old(mBMEHandler.mTemp)
      ensures old(mDataHandler.pending)[i].task != SendPressureDataRunnable ==>
        mBMEHandler.mTemp == Sampled(old(mBMEHandler.mTemp), mBMEHandler.mBmx280, result) &&
        mBMEHandler.mPress == old(mBMEHandler.mPress)
      ensures var t := old(mDataHandler.pending)[i].task;
        var period := if t == SendPressureDataRunnable then pressureReadFreq else tempReadFreq;
        var reading := if t == SendPressureDataRunnable then mBMEHandler.mPress else mBMEHandler.mTemp;
        trace == old(trace) + Publication(ThingIdOf(t), reading) &&
        mDataHandler.pending == old(mDataHandler.pending)[..i] + old(mDataHandler.pending)[i + 1..] +
          (if period > UNSET_READ_FREQ then [Entry(t, period)] else [])
    {
      ghost var q := mDataHandler.pending;
      var e := mDataHandler.Next(i);
      assert e in q;
      CountRemoveAt(q, i, SendPressureDataRunnable);
      CountRemoveAt(q, i, SendTempDataRunnable);
      if e.task == SendPressureDataRunnable {
        RunSendPressureData(result);
      } else {
        assert e.task == SendTempDataRunnable;
        RunSendTempData(result);
      }
    }

    /**
     * shutdown(): marks the node, the temperature thing and the pressure
     * thing offline, in that order, skipping null ones; then stops the sensor.
     */
    method Shutdown()
      requires Valid() && mBMEHandler != null
      modifies this`trace, mBMEHandler
      ensures Valid()
      ensures trace == old(trace) + OfflineEffects([androidThingsNode, mTempThing, mPressureThing])
      ensures mBMEHandler.mBmx280 == None
      ensures mBMEHandler.mTemp == old(mBMEHandler.mTemp) && mBMEHandler.mPress == old(mBMEHandler.mPress)
      // the publish runnables are not cancelled
      ensures mDataHandler.pending == old(mDataHandler.pending)
    {
      trace := trace + SetConnection(androidThingsNode, false, ON_DESTROY_MSG);
      trace := trace + SetConnection(mTempThing, false, ON_DESTROY_MSG);
      trace := trace + SetConnection(mPressureThing, false, ON_DESTROY_MSG);
      OfflineEffectsOfThree(androidThingsNode, mTempThing, mPressureThing);
      mBMEHandler.Stop();
    }
  }

  /** The static IotIgniteHandler.INSTANCE. */
  class IgniteSingleton {
    var instance: IotIgniteHandler?

    constructor ()
      ensures instance == null
    {
      instance := null;
    }

    /** getInstance(): creates the handler on the first call and returns that same one on every later call. */
    method GetInstance() returns (h: IotIgniteHandler)
      modifies this
      ensures instance == h
      ensures old(instance) != null ==> h == old(instance)
      ensures old(instance) == null ==>
        fresh(h) && fresh(h.igniteWatchdog) && fresh(h.mDataHandler) && h.Valid() &&
        !h.igniteConnected && h.igniteWatchdog.pending == [] && h.mDataHandler.pending == [] &&
        h.pressureReadFreq == UNSET_READ_FREQ && h.tempReadFreq == UNSET_READ_FREQ &&
        h.mBMEHandler == null && h.androidThingsNode == None && h.mTempThing == None && h.mPressureThing == None &&
        h.trace == []
    {
      if instance == null {
        instance := new IotIgniteHandler();
      }
      h := instance;
    }
  }

  /**
   * The first watchdog tick makes a connect attempt; the connection registers
   * the node and both things and starts both streams at the default period.
   */
  method FirstConnectionScenario()
  {
    var h := new IotIgniteHandler();
    h.Start();
    h.RunWatchdog(0);
    assert h.trace == [ConnectAttempt];

    var sensors := new SensorSingleton();
    var ok := Creation(true, false, true);
    ConnectRegistrationMarksOnline(ConnectAnswers(ok, ok, ok), None, None);
    h.OnConnected(sensors, ConnectAnswers(ok, ok, ok), true, 0, 0);
    assert h.igniteConnected && h.igniteWatchdog.pending == [];
    assert MarkedOnline(h.trace, ANDROID_THINGS_NODE_ID);
    assert MarkedOnline(h.trace, TEMP_THING_ID) && MarkedOnline(h.trace, PRESSURE_THING_ID);
    assert h.pressureReadFreq == DEFAULT_READ_FREQ && h.tempReadFreq == DEFAULT_READ_FREQ;

    assert h.mDataHandler.pending == [Entry(SendPressureDataRunnable, 0), Entry(SendTempDataRunnable, 0)];
  }

  /**
   * With both publish runnables pending at the default period, a configuration
   * for the pressure thing retunes only the pressure stream.
   */
  method RetunePressureScenario(h: IotIgniteHandler)
    requires h.Valid() && h.mBMEHandler != null && h.mPressureThing.Some? && h.mTempThing.Some?
    requires h.tempReadFreq == DEFAULT_READ_FREQ
    requires h.mDataHandler.pending == [Entry(SendPressureDataRunnable, 0), Entry(SendTempDataRunnable, 0)]
    modifies h, h.mDataHandler, h.mBMEHandler
  {
    var p0, t0 := Entry(SendPressureDataRunnable, 0), Entry(SendTempDataRunnable, 0);
    h.OnConfigurationReceived(PRESSURE_THING_ID, 2000);
    assert h.pressureReadFreq == 2000 && h.tempReadFreq == DEFAULT_READ_FREQ;
    assert h.mDataHandler.pending == [t0, p0] by {
      assert [p0, t0][1..] == [t0] && [t0][1..] == [];
      assert Without([t0], SendPressureDataRunnable) == [t0] + Without([], SendPressureDataRunnable);
      assert Without([p0, t0], SendPressureDataRunnable) == [t0];
    }

    h.RunDataHandler(1, Fault);
    assert h.mDataHandler.pending == [t0, Entry(SendPressureDataRunnable, 2000)];
    h.RunDataHandler(0, Fault);
    assert h.mDataHandler.pending == [Entry(SendPressureDataRunnable, 2000), Entry(SendTempDataRunnable, DEFAULT_READ_FREQ)];
  }
}
