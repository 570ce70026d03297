/** The coordination-center cache and the service startup sequence. A
    ZooKeeper registry center is created at most once per digest of its
    address list and stored only after its initialisation succeeded;
    startup then obtains the service's distributed id, stores it, and
    registers the service's RocketMQ groups with the center. */
module RegistryCenters {
  import opened Properties
  import opened Traces

  /** A Guava `HashCode`: the bytes of a digest. */
  type HashCode = seq<bv8>

  /** A `ZookeeperRegistryCenter`: the properties it was built from and
      whether its `init()` has completed. */
  class ZookeeperRegistryCenter {
    const properties: ZookeeperProperties
    var initialized: bool

    constructor (properties: ZookeeperProperties)
      ensures this.properties == properties && !initialized
    {
      this.properties := properties;
      initialized := false;
    }
  }

  /** The arguments of `coordinatorRegistryCenter.registerMq(app, host,
      producerGroup, consumerGroup, namesrvAddr)`; `None` is a null. */
  datatype MqRegistration = MqRegistration(
    app: string,
    host: string,
    producerGroup: Option<string>,
    consumerGroup: Option<string>,
    namesrvAddr: string)

  /** The MQ groups a service registers: the consumer group only when it is
      a reliable-message consumer, the producer group only when it is a
      reliable-message producer, and the name server address always. */
  function MqRegistrationFor(app: string, host: string, rocketMq: RocketMqProperties): (reg: MqRegistration)
    ensures reg.app == app && reg.host == host && reg.namesrvAddr == rocketMq.namesrvAddr
    ensures reg.consumerGroup.Some? <==> rocketMq.reliableMessageConsumer
    ensures reg.producerGroup.Some? <==> rocketMq.reliableMessageProducer
    ensures reg.consumerGroup.Some? ==> reg.consumerGroup.value == rocketMq.consumerGroup
    ensures reg.producerGroup.Some? ==> reg.producerGroup.value == rocketMq.producerGroup
  {
    var consumerGroup := if rocketMq.reliableMessageConsumer then Some(rocketMq.consumerGroup) else None;
    var producerGroup := if rocketMq.reliableMessageProducer then Some(rocketMq.producerGroup) else None;
    MqRegistration(app, host, producerGroup, consumerGroup, rocketMq.namesrvAddr)
  }

  /** What the factory has asked of the outside world, in order. */
  datatype StartupEvent =
    | InitCenter(key: HashCode)
    | AllocateId(app: string, host: string)
    | StoreServiceId(id: int)
    | MqRegistered(key: HashCode, registration: MqRegistration)

  /** How creation of a center or startup fails. */
  datatype Failure = InitFailed | IdAllocationFailed

  /** The events of one `startup` run. `hit` says whether the center for
      `key` was already cached, `initOk` whether `init()` returns on a miss,
      and `nextId` the id the generator hands out (`None` if it throws). */
  function StartupTrace(hit: bool, key: HashCode, initOk: bool, app: string, host: string,
                        nextId: Option<int>, registration: MqRegistration): seq<StartupEvent>
  {
    var init := if hit then [] else [InitCenter(key)];
    if !hit && !initOk then init
    else if nextId.None? then init + [AllocateId(app, host)]
    else init + [AllocateId(app, host), StoreServiceId(nextId.value), MqRegistered(key, registration)]
  }

  predicate IsInitCenter(e: StartupEvent) { e.InitCenter? }

  /** One startup initialises the center at most once, and not at all on a
      cache hit, although the center is looked up twice. */
  lemma StartupInitialisesAtMostOnce(hit: bool, key: HashCode, initOk: bool, app: string, host: string,
                                     nextId: Option<int>, registration: MqRegistration)
    ensures Count(StartupTrace(hit, key, initOk, app, host, nextId, registration), IsInitCenter) ==
      if hit then 0 else 1
  {
    var init: seq<StartupEvent> := if hit then [] else [InitCenter(key)];
    var tail: seq<StartupEvent> :=
      if !hit && !initOk then []
      else if nextId.None? then [AllocateId(app, host)]
      else [AllocateId(app, host), StoreServiceId(nextId.value), MqRegistered(key, registration)];
    assert StartupTrace(hit, key, initOk, app, host, nextId, registration) == init + tail;
    CountConcat(init, tail, IsInitCenter);
    CountNone(tail, IsInitCenter);
    if !hit {
      CountOnce(init, IsInitCenter, 0);
    }
  }

  /** The MQ groups are registered only after the id was allocated and
      stored, and only when creating the center and allocating the id both
      succeeded. */
  lemma StartupRegistersLast(hit: bool, key: HashCode, initOk: bool, app: string, host: string,
                             nextId: Option<int>, registration: MqRegistration)
    ensures var t := StartupTrace(hit, key, initOk, app, host, nextId, registration);
      MqRegistered(key, registration) in t <==> (hit || initOk) && nextId.Some?
    ensures var t := StartupTrace(hit, key, initOk, app, host, nextId, registration);
      MqRegistered(key, registration) in t ==>
        Precedes(t, AllocateId(app, host), StoreServiceId(nextId.value)) &&
        Precedes(t, StoreServiceId(nextId.value), MqRegistered(key, registration)) &&
        t[|t| - 1] == MqRegistered(key, registration)
  {
    var t := StartupTrace(hit, key, initOk, app, host, nextId, registration);
    if (hit || initOk) && nextId.Some? {
      var n := if hit then 0 else 1;
      assert t[n] == AllocateId(app, host);
      assert t[n + 1] == StoreServiceId(nextId.value);
      assert t[n + 2] == MqRegistered(key, registration);
    }
  }

  /** `RegistryCenterFactory`: its static cache as the field `registry`,
      `IncrementIdGenerator`'s static service id as `serviceId`. `md5` is
      the digest of an address string, left uninterpreted. `initCount`
      counts calls of `init()`. */
  class RegistryCenterFactory {
    const md5: string -> HashCode
    var registry: map<HashCode, ZookeeperRegistryCenter>
    var initCount: nat
    var serviceId: Option<int>
    ghost var history: seq<StartupEvent>

    /** Every cached center has been initialised and is stored under the
        digest of its own address list. */
    ghost predicate Valid()
      reads this, registry.Values
    {
      forall k :: k in registry ==>
        registry[k].initialized && md5(registry[k].properties.zkAddressList) == k
    }

    constructor (md5: string -> HashCode)
      ensures Valid() && this.md5 == md5
      ensures registry == map[] && initCount == 0 && serviceId.None? && history == []
    {
      this.md5 := md5;
      registry, initCount, serviceId := map[], 0, None;
      history := [];
    }

    /** The cache key: the digest of the address list and nothing else. */
    function CacheKey(zk: ZookeeperProperties): HashCode
    {
      md5(zk.zkAddressList)
    }

    /** `createCoordinatorRegistryCenter`: a cached center is returned as is,
        without another `init()`. On a miss a new center is built and
        initialised (`initOk` says whether `init()` returns); only an
        initialised center is stored and returned, so a failed attempt
        leaves the cache as it was and a later call tries again. */
    method CreateCoordinatorRegistryCenter(zk: ZookeeperProperties, initOk: bool)
      returns (r: Result<ZookeeperRegistryCenter, Failure>)
      requires Valid()
      modifies this
      ensures Valid()
      ensures CacheKey(zk) in old(registry) ==>
        r == Ok(old(registry)[CacheKey(zk)]) && registry == old(registry) &&
        initCount == old(initCount) && history == old(history)
      ensures CacheKey(zk) !in old(registry) ==>
        initCount == old(initCount) + 1 && history == old(history) + [InitCenter(CacheKey(zk))]
      ensures CacheKey(zk) !in old(registry) && !initOk ==>
        r == Err(InitFailed) && registry == old(registry)
      ensures CacheKey(zk) !in old(registry) && initOk ==>
        r.Ok? && fresh(r.value) && r.value.properties == zk && r.value.initialized &&
        registry == old(registry)[CacheKey(zk) := r.value]
      ensures serviceId == old(serviceId)
    {
      var hashCode := CacheKey(zk);
      if hashCode in registry {
        return Ok(registry[hashCode]);
      }
      var center := new ZookeeperRegistryCenter(zk);
      initCount := initCount + 1;
      history := history + [InitCenter(hashCode)];
      if !initOk {
        return Err(InitFailed);
      }
      center.initialized := true;
      registry := registry[hashCode := center];
      r := Ok(center);
    }

    /** `startup(properties, host, app)`: create the center, obtain the
        service id from the generator (`nextId`, `None` if it throws), store
        it, then register the MQ groups with the center, which `registerMq`
        looks up again and finds cached. The events are those of
        `StartupTrace`; a failure in the first two steps stops the run. */
    method Startup(properties: PaascloudProperties, host: string, app: string,
                   initOk: bool, nextId: Option<int>)
      returns (r: Result<(), Failure>)
      requires Valid()
      modifies this
      ensures Valid()
      ensures history == old(history) +
        StartupTrace(CacheKey(properties.zk) in old(registry), CacheKey(properties.zk), initOk,
                     app, host, nextId, MqRegistrationFor(app, host, properties.rocketMq))
      ensures initCount == old(initCount) + (if CacheKey(properties.zk) in old(registry) then 0 else 1)
      ensures r.Ok? <==> (CacheKey(properties.zk) in old(registry) || initOk) && nextId.Some?
      ensures r.Ok? ==> serviceId == nextId
      ensures r.Err? ==> serviceId == old(serviceId)
      ensures CacheKey(properties.zk) in old(registry) || !initOk ==> registry == old(registry)
      ensures CacheKey(properties.zk) !in old(registry) && initOk ==>
        CacheKey(properties.zk) in registry && fresh(registry[CacheKey(properties.zk)]) &&
        registry[CacheKey(properties.zk)].properties == properties.zk &&
        registry == old(registry)[CacheKey(properties.zk) := registry[CacheKey(properties.zk)]]
    {
      var created := CreateCoordinatorRegistryCenter(properties.zk, initOk);
      if created.Err? {
        return Err(created.error);
      }
      history := history + [AllocateId(app, host)];
      if nextId.None? {
        return Err(IdAllocationFailed);
      }
      serviceId := nextId;
      history := history + [StoreServiceId(nextId.value)];
      RegisterMq(properties, host, app);
      r := Ok(());
    }

    /** `registerMq`: look the center up again (a cache hit here) and
        register the service's groups with it. */
    method RegisterMq(properties: PaascloudProperties, host: string, app: string)
      requires Valid() && CacheKey(properties.zk) in registry
      modifies this
      ensures Valid()
      ensures registry == old(registry) && initCount == old(initCount) && serviceId == old(serviceId)
      ensures history == old(history) +
        [MqRegistered(CacheKey(properties.zk), MqRegistrationFor(app, host, properties.rocketMq))]
    {
      var center := CreateCoordinatorRegistryCenter(properties.zk, false);
      var registration := MqRegistrationFor(app, host, properties.rocketMq);
      history := history + [MqRegistered(CacheKey(properties.zk), registration)];
    }
  }

  /** The cache key ignores every ZooKeeper setting but the address list:
      two property sets with equal address lists share one center. */
  lemma CacheKeyOnlyAddressList(factory: RegistryCenterFactory, a: ZookeeperProperties, b: ZookeeperProperties)
    requires a.zkAddressList == b.zkAddressList
    ensures factory.CacheKey(a) == factory.CacheKey(b)
  {
  }

  /** Two calls with equal address lists: once the first has returned a
      center, the second returns the same one and performs no `init()`, so
      the pair initialises only when the first call missed. A first call
      whose `init()` threw cached nothing, so the second tries again with
      an `init()` of its own. */
  method CreateTwice(factory: RegistryCenterFactory, a: ZookeeperProperties, b: ZookeeperProperties,
                     initOk1: bool, initOk2: bool)
    returns (first: Result<ZookeeperRegistryCenter, Failure>, second: Result<ZookeeperRegistryCenter, Failure>)
    requires factory.Valid() && a.zkAddressList == b.zkAddressList
    modifies factory
    ensures first.Ok? ==> second == first
    ensures first.Ok? ==>
      factory.initCount == old(factory.initCount) + (if factory.CacheKey(a) in old(factory.registry) then 0 else 1)
    ensures first.Err? ==>
      factory.CacheKey(a) !in old(factory.registry) && factory.initCount == old(factory.initCount) + 2 &&
      (second.Ok? <==> initOk2)
  {
    first := factory.CreateCoordinatorRegistryCenter(a, initOk1);
    second := factory.CreateCoordinatorRegistryCenter(b, initOk2);
  }
}
