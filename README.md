# IoT Ignite BME280 example: watchdog, publisher and cached sensor in Dafny

The Android Things example app reads a Bosch BME280 sensor over I2C and publishes
temperature and pressure to the IoT Ignite cloud platform. This project models its core:

- `IotIgniteHandler` is a connection watchdog and dual-rate publisher.
  - A watchdog callback retries the connection every 10 000 ms while the platform is not connected.
  - On connection, the app creates and registers a node and two things, and marks them online.
  - One publish runnable per thing sends the current reading. It then reposts itself after its stream's period.
  - The platform can change a period at run time. A period of 0 becomes 1000 ms. A negative period stops the reposting.
- `BME280Handler` caches the last temperature and pressure.
  - A read refreshes the cache only when a driver handle is open and the device answers.
  - Otherwise the read returns the cached value.

Files:

- `wrappers.dfy`: `Option`, which stands for Java's nullable references.
- `looper.dfy`: the part of `android.os.Handler` the app uses.
  - A `Handler` holds a queue of pending `(runnable, delay)` entries.
  - It has `post`, `postDelayed` and `removeCallbacks`, plus `Next`, by which the looper takes an entry out to run it.
  - The functions `Count`, `Without` and `Rearmed` describe the queue, and the lemmas prove the cancel-before-post discipline.
- `bme280_handler.dfy`: the cached sensor (`BME280Handler`) and its static instance (`SensorSingleton`).
  - `Sampled`, `SampleAll` and `LastSuccess` specify the cache.
- `ignite_sdk.dfy`: the IoT Ignite SDK as the app sees it.
  - An `Entity` is a node or a thing.
  - A `Creation` holds the SDK's answers: whether the object was created, whether it was already registered, and what `register()` returned.
  - An `Effect` is one call into the SDK.
- `iot_ignite_handler.dfy`: the class `IotIgniteHandler`, its static instance (`IgniteSingleton`), and the pure functions that specify its registration and shutdown steps.
  - A ghost `trace` field records every SDK call in order.
  - The class invariant `Valid` states these facts:
    - At most one watchdog callback is pending, and always with the 10 000 ms delay.
    - A stored period is never 0.
    - At most one entry per publish runnable is pending, each an immediate run or a repost after its stream's positive period.
    - A pending publish always has its thing and the sensor to work with.
  - Two scenario methods run the watchdog, the connection and a retune through the class: `FirstConnectionScenario` and `RetunePressureScenario`.

Inputs that the app gets from outside are parameters of the methods:

- What the SDK answers when creating and registering.
- The configured frequencies.
- Whether the I2C driver opens.
- What each device read returns.
- Which pending entry the looper runs next.

## Model

| member | source | states |
|---|---|---|
| Looper.WithoutMembers | I2CExample/app/src/main/java/com/ardic/android/iotignite/i2cexample/IotIgniteHandler.java:253 | after removeCallbacks(t) an entry is pending iff it was pending before and is not for t |
| Looper.CountWithout | I2CExample/app/src/main/java/com/ardic/android/iotignite/i2cexample/IotIgniteHandler.java:212 | removeCallbacks(t) leaves no entry for t and keeps the count of every other runnable |
| Looper.WithoutOnly | I2CExample/app/src/main/java/com/ardic/android/iotignite/i2cexample/IotIgniteHandler.java:137 | removeCallbacks(t) on a queue holding only entries for t empties it |
| Looper.RearmedLeavesOne | I2CExample/app/src/main/java/com/ardic/android/iotignite/i2cexample/IotIgniteHandler.java:253-258 | cancel-then-post leaves exactly one entry for t (the new one) and changes no other runnable's entries or counts |
| Looper.Handler.constructor | I2CExample/app/src/main/java/com/ardic/android/iotignite/i2cexample/IotIgniteHandler.java:42 | a new Handler has nothing pending |
| Looper.Handler.Post | I2CExample/app/src/main/java/com/ardic/android/iotignite/i2cexample/IotIgniteHandler.java:258 | post(r) appends an immediate entry for r |
| Looper.Handler.PostDelayed | I2CExample/app/src/main/java/com/ardic/android/iotignite/i2cexample/IotIgniteHandler.java:53 | postDelayed(r, d) appends an entry for r with delay d |
| Looper.Handler.RemoveCallbacks | I2CExample/app/src/main/java/com/ardic/android/iotignite/i2cexample/IotIgniteHandler.java:212 | the queue becomes Without(old queue, r), with no entry for r left and the others kept in order |
| Looper.Handler.Next | I2CExample/app/src/main/java/com/ardic/android/iotignite/i2cexample/IotIgniteHandler.java:47-49 | the looper takes the chosen entry out, and the rest of the queue stays in order |
| Bme280.Sampled | I2CExample/app/src/main/java/com/ardic/android/iotignite/i2cexample/BME280Handler.java:59-79 | a read returns the device's value when the handle is open and the read succeeds, else the previous cache |
| Bme280.CacheHoldsLastSuccess | I2CExample/app/src/main/java/com/ardic/android/iotignite/i2cexample/BME280Handler.java:59-79 | with an open handle the cache always holds the last successful read, or its initial value if none succeeded |
| Bme280.NoDeviceKeepsCache | I2CExample/app/src/main/java/com/ardic/android/iotignite/i2cexample/BME280Handler.java:59-68 | with a null handle any number of reads leaves the cache unchanged |
| Bme280.BME280Handler.constructor | I2CExample/app/src/main/java/com/ardic/android/iotignite/i2cexample/BME280Handler.java:30-35 | both caches start at 0 and there is no handle |
| Bme280.BME280Handler.Start | I2CExample/app/src/main/java/com/ardic/android/iotignite/i2cexample/BME280Handler.java:46-56 | a driver that opens becomes the handle on bus I2C1; a driver whose constructor throws leaves the old handle |
| Bme280.BME280Handler.ReadTemperature | I2CExample/app/src/main/java/com/ardic/android/iotignite/i2cexample/BME280Handler.java:59-68 | mTemp becomes Sampled(old mTemp, handle, result) and is returned; mPress and the handle are unchanged |
| Bme280.BME280Handler.ReadPressure | I2CExample/app/src/main/java/com/ardic/android/iotignite/i2cexample/BME280Handler.java:70-79 | mPress becomes Sampled(old mPress, handle, result) and is returned; mTemp and the handle are unchanged |
| Bme280.BME280Handler.Stop | I2CExample/app/src/main/java/com/ardic/android/iotignite/i2cexample/BME280Handler.java:82-94 | the handle is always null afterwards; with no handle nothing changes; the caches are kept |
| Bme280.SensorSingleton.GetInstance | I2CExample/app/src/main/java/com/ardic/android/iotignite/i2cexample/BME280Handler.java:37-43 | the first call creates a handler in its initial state; every later call returns that same handler |
| IotIgnite.Coerce | I2CExample/app/src/main/java/com/ardic/android/iotignite/i2cexample/IotIgniteHandler.java:337-338 | a stored period is never 0: 0 becomes 1000 and any other value is kept |
| IotIgnite.RegisterAndSetOnline | I2CExample/app/src/main/java/com/ardic/android/iotignite/i2cexample/IotIgniteHandler.java:295-302 | a non-null node is marked online iff it is registered already or register() succeeds; register() is asked iff it was not registered; null gives no calls |
| IotIgnite.RegisterThingAndSetOnline | I2CExample/app/src/main/java/com/ardic/android/iotignite/i2cexample/IotIgniteHandler.java:304-312 | a thing is marked online iff the node is non-null and registered, the thing is non-null, and the thing is or becomes registered; otherwise no call is made |
| IotIgnite.ConnectRegistration | I2CExample/app/src/main/java/com/ardic/android/iotignite/i2cexample/IotIgniteHandler.java:144-178 | the node exists iff it was created; only a registered node gets things, and they exist iff created, with their IDs; otherwise the earlier things are kept |
| IotIgnite.ConnectRegistrationMarksOnline | I2CExample/app/src/main/java/com/ardic/android/iotignite/i2cexample/IotIgniteHandler.java:144-178 | after onConnected's registration step the node, and each thing, is online exactly when it (and the node) exists and is registered |
| IotIgnite.OfflineEffects | I2CExample/app/src/main/java/com/ardic/android/iotignite/i2cexample/IotIgniteHandler.java:314-325 | the set-connection helpers applied in turn make one offline mark per non-null entity, in the order given, each with the destroy message |
| IotIgnite.OfflineEffectsOfThree | I2CExample/app/src/main/java/com/ardic/android/iotignite/i2cexample/IotIgniteHandler.java:228-232 | the three set-connection calls of shutdown together are exactly the offline marks of node, temperature thing and pressure thing |
| IotIgnite.StartLeavesOneRunEach | I2CExample/app/src/main/java/com/ardic/android/iotignite/i2cexample/IotIgniteHandler.java:344-347 | whatever was pending, re-arming pressure then temperature leaves exactly [pressure now, temperature now] |
| IotIgnite.IotIgniteHandler.constructor | I2CExample/app/src/main/java/com/ardic/android/iotignite/i2cexample/IotIgniteHandler.java:37-45 | disconnected; both periods -1; both queues empty; no sensor, node or things; the invariant holds |
| IotIgnite.IotIgniteHandler.Start | I2CExample/app/src/main/java/com/ardic/android/iotignite/i2cexample/IotIgniteHandler.java:129-131 | start() leaves exactly one watchdog entry, with delay 10 000 |
| IotIgnite.IotIgniteHandler.StartIgniteWatchdog | I2CExample/app/src/main/java/com/ardic/android/iotignite/i2cexample/IotIgniteHandler.java:211-215 | cancel-then-post leaves exactly one watchdog entry with the reconnect interval; the invariant is kept |
| IotIgnite.IotIgniteHandler.RebuildIgnite | I2CExample/app/src/main/java/com/ardic/android/iotignite/i2cexample/IotIgniteHandler.java:196-205 | exactly one connect attempt is recorded |
| IotIgnite.IotIgniteHandler.RunWatchdog | I2CExample/app/src/main/java/com/ardic/android/iotignite/i2cexample/IotIgniteHandler.java:47-59 | a tick while disconnected makes one connect attempt and reposts with 10 000 ms; while connected it does neither |
| IotIgnite.IotIgniteHandler.OnConnected | I2CExample/app/src/main/java/com/ardic/android/iotignite/i2cexample/IotIgniteHandler.java:133-182 | the watchdog is cancelled and connected is set; the shared sensor is taken (new, with both caches 0, on the first call; otherwise the same one with its caches kept) and started (handle on I2C1 if the driver opens, else the old handle); node and things are as ConnectRegistration says; periods are the coerced configs; both publishers are re-armed, leaving exactly one immediate run of pressure, then one of temperature |
| IotIgnite.IotIgniteHandler.AttachSensor | I2CExample/app/src/main/java/com/ardic/android/iotignite/i2cexample/IotIgniteHandler.java:140-141 | the handler takes the shared BME280Handler instance: a new one with both caches 0 on the first call, else the existing one with its caches kept; its handle is on I2C1 when the driver opens, and otherwise stays what it was (None for a new instance) |
| IotIgnite.IotIgniteHandler.RegisterNodeAndThings | I2CExample/app/src/main/java/com/ardic/android/iotignite/i2cexample/IotIgniteHandler.java:144-178 | node, things and SDK calls are exactly ConnectRegistration's, and both things then exist |
| IotIgnite.IotIgniteHandler.OnDisconnected | I2CExample/app/src/main/java/com/ardic/android/iotignite/i2cexample/IotIgniteHandler.java:184-190 | connected is cleared and exactly one watchdog entry is pending |
| IotIgnite.IotIgniteHandler.CheckConfigsAndStart | I2CExample/app/src/main/java/com/ardic/android/iotignite/i2cexample/IotIgniteHandler.java:332-349 | both periods are the coerced configs; the publish queue becomes exactly one immediate run of pressure, then one of temperature |
| IotIgnite.IotIgniteHandler.OnConfigurationReceived | I2CExample/app/src/main/java/com/ardic/android/iotignite/i2cexample/IotIgniteHandler.java:238-275 | for the pressure (temperature) thing: its period becomes the coerced value and its task is cancelled and re-posted now; the other stream is untouched; any other ID changes nothing |
| IotIgnite.IotIgniteHandler.RunSendPressureData | I2CExample/app/src/main/java/com/ardic/android/iotignite/i2cexample/IotIgniteHandler.java:64-79 | one one-element publish of the fresh pressure reading to the pressure thing; a repost after the period iff the period is > -1; the invariant is kept |
| IotIgnite.IotIgniteHandler.RunSendTempData | I2CExample/app/src/main/java/com/ardic/android/iotignite/i2cexample/IotIgniteHandler.java:82-97 | one one-element publish of the fresh temperature reading to the temperature thing; a repost after the period iff the period is > -1; the invariant is kept |
| IotIgnite.IotIgniteHandler.RunDataHandler | I2CExample/app/src/main/java/com/ardic/android/iotignite/i2cexample/IotIgniteHandler.java:61-97 | running any pending publish entry refreshes only that stream's cache as Sampled(old cache, handle, result), keeps the other cache and the handle, publishes that reading to the entry's own thing only and reposts it iff its period is > -1, keeping at most one entry per stream |
| IotIgnite.IotIgniteHandler.Shutdown | I2CExample/app/src/main/java/com/ardic/android/iotignite/i2cexample/IotIgniteHandler.java:228-236 | node, temperature thing and pressure thing are marked offline in that order, null ones skipped; then the sensor handle is cleared; the publish queue is untouched |
| IotIgnite.IgniteSingleton.GetInstance | I2CExample/app/src/main/java/com/ardic/android/iotignite/i2cexample/IotIgniteHandler.java:119-126 | the first call creates a handler in its initial state (disconnected, both periods -1, empty queues, no sensor, node or things, no SDK calls yet, invariant holding); every later call returns that same handler |

## Left out

- Real time and threads. Delays are recorded with each pending entry but never elapse, and which pending entry runs next is a parameter of `Handler.Next`. Events arrive as sequential method calls. The `synchronized` on `IotIgniteHandler.getInstance` and the SDK's callback threads are not modelled.
- IoT Ignite SDK internals are not modelled; the app's calls into the SDK are handled in two ways:
  - Recorded as an `Effect` in the trace: building an `IotIgniteManager` (`ConnectAttempt`), `register`, `setConnected`, `setThingData` and `sendData`.
  - Answered through inputs only, with no effect recorded: the node and thing factories and `isRegistered` (a `Creation` per entity), `register`'s result (`Creation.registerOk`), and `getThingConfiguration().getDataReadingFrequency()` (the configured-frequency parameters).
  - `UnsupportedVersionException` from the builder only gets logged, so it is not modelled.
  - A successful `register()` is taken to make `isRegistered()` true afterwards.
- The `mIotIgniteManager` field and `getIgniteManager` only hold and return the SDK object. The `Context` parameters, the `ThingType` constants and the `Bmx280SensorDriver` field are not used by the logic.
- The Bmx280 driver (chip ID, oversampling, mode registers, `close`): a read is reduced to `Ok(value)` or `Fault`, and `start` to whether the constructor succeeds.
- Float readings: `Reading` wraps an integer as a stand-in for the float. Readings are only stored and forwarded, never computed with, so nothing depends on the number format.
- Java `long` width: periods are unbounded integers. The code does no arithmetic on them, so no wrap-around can arise.
- Bme280.BME280Handler.Start: a second `start()` with an open driver replaces the `Bmx280` object without closing the old one. The Java code leaks that handle, and the model, which holds no driver objects, cannot show the leak.
- Logging, and the empty callbacks `onNodeUnregistered`, `onActionReceived` and `onThingUnregistered`.
- `MainActivity` and `BootReceiver` only call `getInstance`, `start` and `shutdown`, so they are not part of this model.
- Where a null dereference in the code would throw, the model states the condition as a precondition instead:
  - `checkConfigsAndStart` runs even when the node is not registered and the things are null.
  - The publish runnables use `mBMEHandler` and the thing.
  - `shutdown` calls `mBMEHandler.stop()`.
- IotIgnite.IotIgniteHandler.OnConfigurationReceived: requires the named thing to exist, because the platform only calls back for things that `onConnected` created.
- The model follows the code, which has these properties:
  - There is no separate CONNECTING state. A connect attempt only records an effect, and the flag changes only in `onConnected` and `onDisconnected`.
  - Publish tasks are not cancelled on disconnect or on shutdown. `Shutdown` states that the publish queue is unchanged.
  - Shutdown does not guarantee that the sensor is released if an offline-marking call throws. The SDK calls are modelled as not throwing.
