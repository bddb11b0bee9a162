/**
 * The manager (src/HeraldManager.php): the handler registry, connection
 * selection with its per-name cache, fake mode and the publish-log assertions.
 */
module Herald {
  import opened Wrappers
  import opened Messages
  import opened FakeConnections

  /**
   * A registered handler, as PHP tells it apart: a Closure, a class-name string,
   * an object instance (known by its class), or another callable (an array callable).
   */
  datatype Handler =
    | Closure(ident: nat)
    | ClassName(name: string)
    | Instance(className: string, ident: nat)
    | ArrayCallable(ident: nat)

  /**
   * The static `$handlers` array: event types in the order of their first
   * registration, each with its handlers in registration order.
   */
  datatype HandlerTable = HandlerTable(types: seq<string>, lists: map<string, seq<Handler>>) {

    /** Keys listed once each, exactly the map's keys, and no empty list. */
    ghost predicate Valid() {
      && (forall i, j :: 0 <= i < j < |types| ==> types[i] != types[j])
      && (forall t :: t in lists <==> t in types)
      && (forall t :: t in lists ==> lists[t] != [])
    }

    /** `getHandlers`: `$handlers[$t] ?? []`. */
    function Get(t: string): (hs: seq<Handler>)
      ensures Valid() ==> (hs == [] <==> t !in types)
    {
      if t in lists then lists[t] else []
    }

    /** `on`: create the list on first use, then push the handler at its end. */
    function Append(t: string, h: Handler): (r: HandlerTable)
      ensures r.Get(t) == Get(t) + [h]
      ensures forall u :: u != t ==> r.Get(u) == Get(u)
      ensures r.types == if t in lists then types else types + [t]
      ensures Valid() ==> r.Valid()
    {
      if t in lists then HandlerTable(types, lists[t := lists[t] + [h]])
      else HandlerTable(types + [t], lists[t := [h]])
    }
  }

  const EmptyTable: HandlerTable := HandlerTable([], map[])

  lemma EmptyTableIsEmpty(t: string)
    ensures EmptyTable.Valid() && EmptyTable.types == [] && EmptyTable.Get(t) == []
  {
  }

  /** The table after the calls `on(regs[0].0, regs[0].1)`, ..., in this order. */
  function RegisterAll(tab: HandlerTable, regs: seq<(string, Handler)>): HandlerTable
  {
    if regs == [] then tab
    else RegisterAll(tab, regs[..|regs| - 1]).Append(regs[|regs| - 1].0, regs[|regs| - 1].1)
  }

  /** The handlers among `regs` registered for `t`, in registration order. */
  function HandlersFor(regs: seq<(string, Handler)>, t: string): seq<Handler>
  {
    if regs == [] then []
    else HandlersFor(regs[..|regs| - 1], t) + (if regs[|regs| - 1].0 == t then [regs[|regs| - 1].1] else [])
  }

  /** Every handler registered for a type is kept, in registration order. */
  lemma {:induction false} RegisterAllKeepsOrder(regs: seq<(string, Handler)>, t: string)
    ensures RegisterAll(EmptyTable, regs).Get(t) == HandlersFor(regs, t)
  {
    if regs != [] {
      RegisterAllKeepsOrder(regs[..|regs| - 1], t);
    }
  }

  /** Some call among `regs` registers a handler for `t`. */
  predicate RegisteredIn(regs: seq<(string, Handler)>, t: string)
  {
    exists i :: 0 <= i < |regs| && regs[i].0 == t
  }

  /** A type is registered by some call iff by an earlier one or by the last. */
  lemma RegisteredInSnoc(regs: seq<(string, Handler)>, t: string)
    requires regs != []
    ensures RegisteredIn(regs, t) <==> RegisteredIn(regs[..|regs| - 1], t) || regs[|regs| - 1].0 == t
  {
    var init := regs[..|regs| - 1];
    if RegisteredIn(init, t) {
      var i :| 0 <= i < |init| && init[i].0 == t;
      assert regs[i].0 == t;
    }
    if RegisteredIn(regs, t) {
      var i :| 0 <= i < |regs| && regs[i].0 == t;
      if i < |init| {
        assert init[i].0 == t;
      }
    }
  }

  /**
   * The registered types are exactly the types passed to `on`, each listed
   * once, and the table stays well formed.
   */
  lemma {:induction false} RegisterAllTypes(regs: seq<(string, Handler)>)
    ensures RegisterAll(EmptyTable, regs).Valid()
    ensures forall t :: t in RegisterAll(EmptyTable, regs).types <==> RegisteredIn(regs, t)
  {
    if regs != [] {
      RegisterAllTypes(regs[..|regs| - 1]);
      forall t
        ensures t in RegisterAll(EmptyTable, regs).types <==> RegisteredIn(regs, t)
      {
        RegisteredInSnoc(regs, t);
      }
    }
  }

  /** A connection's settings array under `connections`. */
  type ConnectionSettings = map<string, Json>

  /** The `herald` configuration: the default connection name and each connection's settings. */
  datatype Config = Config(default: string, connections: map<string, ConnectionSettings>)

  /** `$config['driver'] ?? null`. */
  function DriverOf(settings: ConnectionSettings): (d: Option<Json>)
    ensures d == Lookup(JArray(settings), "driver")
  {
    if "driver" in settings && settings["driver"] != JNull then Some(settings["driver"]) else None
  }

  /** The InvalidArgumentExceptions of `connection`, and the call to a method the connection lacks. */
  datatype ConnectionError =
    | NotConfigured(name: string)
    | UnsupportedDriver(driver: Option<Json>)
    | UndefinedMethod(methodName: string)

  /**
   * A broker connection as the manager sees it: an object built from its
   * settings. What its constructor does on the network is not part of this model.
   */
  class RabbitMQConnection {
    const settings: ConnectionSettings

    constructor (settings: ConnectionSettings)
      ensures this.settings == settings
    {
      this.settings := settings;
    }
  }

  datatype Connection = InMemory(fake: FakeConnection) | Broker(broker: RabbitMQConnection)

  /** The number of logged messages of type `t`, counted by PHP's array_filter and count. */
  function CountOfType(log: seq<Message>, t: string): nat
  {
    if log == [] then 0 else (if log[0].eventType == t then 1 else 0) + CountOfType(log[1..], t)
  }

  /** The event types of a log, in order. */
  function EventTypes(log: seq<Message>): (ts: seq<string>)
    ensures |ts| == |log| && forall i :: 0 <= i < |log| ==> ts[i] == log[i].eventType
  {
    if log == [] then [] else [log[0].eventType] + EventTypes(log[1..])
  }

  /** The filtered count agrees with the number of occurrences of `t` among the logged types. */
  lemma {:induction false} CountOfTypeOccurrences(log: seq<Message>, t: string)
    ensures CountOfType(log, t) == multiset(EventTypes(log))[t]
  {
    if log != [] {
      CountOfTypeOccurrences(log[1..], t);
      assert EventTypes(log) == [log[0].eventType] + EventTypes(log[1..]);
    }
  }

  /** The filter of `assertPublished`: the type matches and so does the callback, when one is given. */
  predicate Matches(m: Message, t: string, callback: Option<Message -> bool>)
  {
    m.eventType == t && (callback.None? || callback.value(m))
  }

  function AnyMatch(log: seq<Message>, t: string, callback: Option<Message -> bool>): bool
  {
    if log == [] then false else Matches(log[0], t, callback) || AnyMatch(log[1..], t, callback)
  }

  lemma {:induction false} AnyMatchExists(log: seq<Message>, t: string, callback: Option<Message -> bool>)
    ensures AnyMatch(log, t, callback) <==> exists i :: 0 <= i < |log| && Matches(log[i], t, callback)
  {
    if log != [] {
      AnyMatchExists(log[1..], t, callback);
      if exists i :: 0 <= i < |log| && Matches(log[i], t, callback) {
        var i :| 0 <= i < |log| && Matches(log[i], t, callback);
        if i > 0 {
          assert Matches(log[1..][i - 1], t, callback);
        }
      }
      if exists i :: 0 <= i < |log[1..]| && Matches(log[1..][i], t, callback) {
        var i :| 0 <= i < |log[1..]| && Matches(log[1..][i], t, callback);
        assert Matches(log[i + 1], t, callback);
      }
    }
  }

  class HeraldManager {
    const config: Config
    /** The connection cache, by name. */
    var connections: map<string, Connection>
    /** The registry (a static property in the source, shared by every manager). */
    var handlers: HandlerTable
    var isFaking: bool
    var fakeConnection: FakeConnection?

    ghost predicate Valid()
      reads this
    {
      && handlers.Valid()
      && (isFaking ==> fakeConnection != null)
      && (forall n :: n in connections ==>
            n in config.connections && connections[n].Broker? && connections[n].broker.settings == config.connections[n])
    }

    /** A new manager sees whatever the static registry holds at that moment. */
    constructor (config: Config, registry: HandlerTable)
      requires registry.Valid()
      ensures Valid()
      ensures this.config == config && handlers == registry
      ensures connections == map[] && !isFaking && fakeConnection == null
    {
      this.config := config;
      handlers := registry;
      connections := map[];
      isFaking := false;
      fakeConnection := null;
    }

    method On(eventType: string, handler: Handler)
      requires Valid()
      modifies this
      ensures Valid()
      ensures handlers == old(handlers).Append(eventType, handler)
      ensures GetHandlers(eventType) == old(GetHandlers(eventType)) + [handler]
      ensures forall t :: t != eventType ==> GetHandlers(t) == old(GetHandlers(t))
      ensures connections == old(connections) && isFaking == old(isFaking) && fakeConnection == old(fakeConnection)
    {
      handlers := handlers.Append(eventType, handler);
    }

    /** `getHandlers`: empty exactly for a type that was never registered. */
    function GetHandlers(eventType: string): (hs: seq<Handler>)
      reads this
      ensures Valid() ==> (hs == [] <==> eventType !in GetRegisteredEventTypes())
    {
      handlers.Get(eventType)
    }

    /** `getRegisteredEventTypes`: the registered types, each once, in first-registration order. */
    function GetRegisteredEventTypes(): (ts: seq<string>)
      reads this
      ensures Valid() ==> forall i, j :: 0 <= i < j < |ts| ==> ts[i] != ts[j]
    {
      handlers.types
    }

    method ClearHandlers()
      requires Valid()
      modifies this
      ensures Valid()
      ensures GetRegisteredEventTypes() == [] && forall t :: GetHandlers(t) == []
      ensures connections == old(connections) && isFaking == old(isFaking) && fakeConnection == old(fakeConnection)
    {
      handlers := EmptyTable;
    }

    /**
     * The cache once selecting `name` has succeeded on a broker: that name's
     * connection is cached and every earlier entry is kept.
     */
    ghost predicate CachedAfter(before: map<string, Connection>, name: Option<string>)
      reads this
    {
      && connections.Keys == before.Keys + {name.GetOr(config.default)}
      && forall k :: k in before ==> connections[k] == before[k]
    }

    /** The exception `connection(name)` would raise in the current state, if any. */
    function SelectionError(name: Option<string>): (e: Option<ConnectionError>)
      reads this
      ensures isFaking ==> e == None
      ensures !isFaking && name.GetOr(config.default) in connections ==> e == None
    {
      var n := name.GetOr(config.default);
      if isFaking || n in connections then None
      else if n !in config.connections then Some(NotConfigured(n))
      else if DriverOf(config.connections[n]) != Some(JString("rabbitmq")) then Some(UnsupportedDriver(DriverOf(config.connections[n])))
      else None
    }

    /**
     * `connection`: the fake while faking; otherwise the named (or default)
     * connection, from the cache when it was built before, else built from its
     * settings and cached; an unconfigured name or a driver other than
     * 'rabbitmq' raises and leaves the cache alone.
     */
    method Connection(name: Option<string>) returns (r: Result<Connection, ConnectionError>)
      requires Valid()
      modifies this
      ensures Valid()
      ensures handlers == old(handlers) && isFaking == old(isFaking) && fakeConnection == old(fakeConnection)
      ensures r.Err? <==> old(SelectionError(name)).Some?
      ensures r.Err? ==> Some(r.error) == old(SelectionError(name))
      ensures isFaking ==> r == Ok(InMemory(fakeConnection)) && connections == old(connections)
      ensures !isFaking && r.Ok? ==> r.value.Broker?
      ensures !isFaking ==>
        var n := name.GetOr(config.default);
        && (n in old(connections) ==> r == Ok(old(connections)[n]) && connections == old(connections))
        && (n !in old(connections) && n !in config.connections ==>
              r == Err(NotConfigured(n)) && connections == old(connections))
        && (n !in old(connections) && n in config.connections
            && DriverOf(config.connections[n]) != Some(JString("rabbitmq")) ==>
              r == Err(UnsupportedDriver(DriverOf(config.connections[n]))) && connections == old(connections))
        && (n !in old(connections) && n in config.connections
            && DriverOf(config.connections[n]) == Some(JString("rabbitmq")) ==>
              && r.Ok? && r.value.Broker? && fresh(r.value.broker)
              && r.value.broker.settings == config.connections[n]
              && connections == old(connections)[n := r.value])
    {
      if isFaking {
        return Ok(InMemory(fakeConnection));
      }
      var n := name.GetOr(config.default);
      if n in connections {
        return Ok(connections[n]);
      }
      if n !in config.connections {
        return Err(NotConfigured(n));
      }
      var created := CreateConnection(config.connections[n]);
      if created.Err? {
        return Err(created.error);
      }
      connections := connections[n := created.value];
      r := Ok(created.value);
    }

    /** `createConnection`: only the 'rabbitmq' driver is supported (a `match` is a strict comparison). */
    method CreateConnection(settings: ConnectionSettings) returns (r: Result<Connection, ConnectionError>)
      ensures DriverOf(settings) == Some(JString("rabbitmq")) ==>
        r.Ok? && r.value.Broker? && fresh(r.value.broker) && r.value.broker.settings == settings
      ensures DriverOf(settings) != Some(JString("rabbitmq")) ==> r == Err(UnsupportedDriver(DriverOf(settings)))
    {
      if DriverOf(settings) == Some(JString("rabbitmq")) {
        var broker := new RabbitMQConnection(settings);
        r := Ok(Broker(broker));
      } else {
        r := Err(UnsupportedDriver(DriverOf(settings)));
      }
    }

    /**
     * `publish`: forwards to the selected connection. The fake logs the message;
     * the broker connection has no `publish` method, so the call fails there.
     */
    method Publish(eventType: string, payload: Payload, id: Option<string>, connection: Option<string>, uniq: string)
      returns (r: Result<(), ConnectionError>)
      requires Valid()
      modifies this, fakeConnection
      ensures Valid()
      ensures handlers == old(handlers) && isFaking == old(isFaking) && fakeConnection == old(fakeConnection)
      ensures isFaking ==>
        && r == Ok(()) && connections == old(connections)
        && fakeConnection.messages == old(fakeConnection.messages) + [LoggedMessage(eventType, payload, id, uniq)]
      ensures !isFaking ==> r.Err? && (fakeConnection != null ==> fakeConnection.messages == old(fakeConnection.messages))
      ensures !isFaking && old(SelectionError(connection)).Some? ==>
        r == Err(old(SelectionError(connection)).value) && connections == old(connections)
      ensures !isFaking && old(SelectionError(connection)).None? ==>
        r == Err(UndefinedMethod("publish")) && CachedAfter(old(connections), connection)
    {
      var c := Connection(connection);
      if c.Err? {
        return Err(c.error);
      }
      match c.value
      case InMemory(f) =>
        f.Publish(eventType, payload, id, uniq);
        r := Ok(());
      case Broker(_) =>
        r := Err(UndefinedMethod("publish"));
    }

    /** `fake`: switch to a fresh in-memory connection; the registry and the cache are kept. */
    method Fake()
      requires Valid()
      modifies this
      ensures Valid()
      ensures isFaking && fakeConnection != null && fresh(fakeConnection) && fakeConnection.messages == []
      ensures handlers == old(handlers) && connections == old(connections)
    {
      isFaking := true;
      fakeConnection := new FakeConnection();
    }

    /** `published`: the fake's log while faking, and nothing otherwise. */
    function Published(): (log: seq<Message>)
      reads this, fakeConnection
      ensures !isFaking ==> log == []
      ensures isFaking && fakeConnection != null ==> log == fakeConnection.messages
    {
      if !isFaking || fakeConnection == null then [] else fakeConnection.GetMessages()
    }

    /** `assertPublished`: some logged message has the type and satisfies the callback. */
    function AssertPublished(eventType: string, callback: Option<Message -> bool>): (ok: bool)
      reads this, fakeConnection
      ensures ok <==> exists i :: 0 <= i < |Published()| && Published()[i].eventType == eventType
                                   && (callback.None? || callback.value(Published()[i]))
    {
      AnyMatchExists(Published(), eventType, callback);
      AnyMatch(Published(), eventType, callback)
    }

    /** `assertPublishedTimes`: the type occurs exactly `count` times in the log. */
    function AssertPublishedTimes(eventType: string, count: int): (ok: bool)
      reads this, fakeConnection
      ensures ok <==> multiset(EventTypes(Published()))[eventType] == count
    {
      CountOfTypeOccurrences(Published(), eventType);
      CountOfType(Published(), eventType) == count
    }

    /** `assertNothingPublished`: the log is empty. */
    function AssertNothingPublished(): (ok: bool)
      reads this, fakeConnection
      ensures ok <==> Published() == []
      ensures ok ==> forall t :: !AssertPublished(t, None)
    {
      |Published()| == 0
    }
  }

  /** Calling `connection` twice with the same name returns the same connection. */
  method ConnectTwice(h: HeraldManager, name: Option<string>) returns (first: Result<Connection, ConnectionError>, second: Result<Connection, ConnectionError>)
    requires h.Valid()
    modifies h
    ensures h.Valid()
    ensures first.Ok? ==> second == first
    ensures first.Err? ==> second == first
  {
    first := h.Connection(name);
    second := h.Connection(name);
  }
}
