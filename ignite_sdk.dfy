/**
 * The IoT Ignite SDK as the application sees it: nodes and things it creates
 * and registers, the answers the SDK gives, and the calls the application
 * makes into it, recorded as effects.
 */
module IgniteSdk {
  import opened Wrappers
  import opened Bme280

  /** A Node or Thing object: its ID and whether isRegistered() holds. */
  datatype Entity = Entity(id: string, registered: bool)

  /**
   * The SDK's answers when the application creates and registers one node or
   * thing: whether the factory returned an object (not null), whether
   * isRegistered() already held for it, and what register() returns.
   */
  datatype Creation = Creation(created: bool, alreadyRegistered: bool, registerOk: bool)

  /** The SDK's answers during one onConnected: for the node and the two things. */
  datatype ConnectAnswers = ConnectAnswers(node: Creation, temp: Creation, pressure: Creation)

  /** A call the application makes into the SDK. */
  datatype Effect =
    | ConnectAttempt                                    // a new IotIgniteManager is built
    | Register(id: string)                              // register() on a node or thing
    | SetConnected(id: string, online: bool, reason: string)
    | SetThingData(id: string, values: seq<Reading>)
    | SendData(id: string, values: seq<Reading>)

  /** The entity the factory hands back for id, or None for null. */
  function Create(id: string, c: Creation): Option<Entity>
  {
    if c.created then Some(Entity(id, c.alreadyRegistered)) else None
  }

  /** The object exists and is registered once register() has been asked if needed. */
  predicate Registers(c: Creation)
  {
    c.created && (c.alreadyRegistered || c.registerOk)
  }

  /** fx marks the entity with this ID online. */
  predicate MarkedOnline(fx: seq<Effect>, id: string)
  {
    SetConnected(id, true, "") in fx
  }
}
