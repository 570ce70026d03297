# Reliable messaging and coordination core of paascloud, in Dafny

This project models the part of paascloud that does two jobs. It coordinates
service startup against ZooKeeper. It also delivers business messages reliably
through RocketMQ. There are four pieces:

- **The reliable-delivery interceptor** (`MqProducerStoreAspect`, module
  `ProducerStore`). It wraps a business method annotated with
  `@MqProducerStore`. It picks the first `MqMessageData` argument and stamps it
  with the order type, the producer group and, in wait-confirm mode only, the
  delay level. It then calls the message service around the business call, in
  an order set by the send mode:
  - `WAIT_CONFIRM`: `saveWaitConfirmMessage`, then the business call, then a
    confirm task submitted to the executor.
  - `SAVE_AND_SEND`: the business call, then `saveAndSendMessage`.
  - `DIRECT_SEND`: the business call, then `directSendMessage`.

  The aspect is a class whose ghost `trace` records every outside call. The
  business call and each message-service call are inputs saying whether they
  return or throw. The business method receives the same message object
  the aspect stamped, so what it leaves in that object is an input too,
  and the calls after it see that. `ProtocolTrace` and `ProtocolResult` are the
  specification, and the lemmas beside them state the ordering and
  "never happens" properties.
- **The producer registry** (`MqProducerBeanFactory`, module
  `ProducerRegistry`). It is a map from producer group to started producer,
  with an idempotent build-if-absent and a lookup that fails on a missing
  key. It also keeps two bookkeeping sets of consumer ids and producer ids.
- **The registry-center cache and startup** (`RegistryCenterFactory`, module
  `RegistryCenters`). A ZooKeeper center is cached under the digest of its
  address list, initialised only on a miss, and stored only once `init()`
  has returned. `startup` creates the center, obtains and stores the service
  id, and then registers the service's MQ groups. Whether each group is
  passed depends on the reliable-message flags.
- **The consumer subscription setup** (`AliyunMqConfiguration`, module
  `ConsumerConfig`). A comma-separated list of `topic@tags` entries becomes
  one `subscribe` call per entry. Empty tags become `*`. Java's
  `String.split` semantics are modelled exactly in module `JavaStrings`: a
  string without the separator splits to itself, and trailing empty fields
  are dropped. So `topic@` has no second field and fails. The list-level
  parse takes the entry parser as a parameter, so its first-error facts are
  proved once for any entry parser; the topic list uses `ParseEntry`.

Some behaviours of the code that the model keeps as they are:
- The delay level is attached only in `WAIT_CONFIRM` mode.
- The first `MqMessageData` argument is used, even when there are several.
- A missing producer fails by a null dereference, not by a dedicated error.

The code also does not catch a `registerMq` failure in `startup`; the
model has no such failure (see "Left out").

## Model

| member | source | states |
|---|---|---|
| `ProducerStore.FirstMessage` | paascloud-provider-api/paascloud-provider-sdk-api/src/main/java/com/paascloud/provider/aspect/MqProducerStoreAspect.java:79-89 | the selected argument is an `MqMessageData` and every argument before it is not; there is none exactly when no argument is one |
| `ProducerStore.FindMessage` | paascloud-provider-api/paascloud-provider-sdk-api/src/main/java/com/paascloud/provider/aspect/MqProducerStoreAspect.java:79-85 | the scan with `break` returns the position of the first `MqMessageData` argument |
| `ProducerStore.Stamp` | paascloud-provider-api/paascloud-provider-sdk-api/src/main/java/com/paascloud/provider/aspect/MqProducerStoreAspect.java:91-97 | the message gets the annotation's order type and the configured group; its delay changes only in wait-confirm mode with a non-zero level, and then becomes that level; the key is kept |
| `ProducerStore.MqProducerStoreAspect.ProcessMqProducerStoreJoinPoint` | paascloud-provider-api/paascloud-provider-sdk-api/src/main/java/com/paascloud/provider/aspect/MqProducerStoreAspect.java:68-113 | with no message argument (including no arguments) it throws TPC10050005 and makes no call; otherwise it stamps only the first message argument, which is left stamped if the reservation throws and as the business method left it once that method ran; it makes exactly the calls of `ProtocolTrace` and ends as `ProtocolResult` says |
| `ProducerStore.CallsCarryCurrentMessage` | paascloud-provider-api/paascloud-provider-sdk-api/src/main/java/com/paascloud/provider/aspect/MqProducerStoreAspect.java:91-110 | the reservation receives the stamped message; the sends and the confirm task (by its key) receive the message as the business method left it; so when that method leaves it alone, every call carries the stamped message |
| `ProducerStore.WaitConfirmReservesFirst` | paascloud-provider-api/paascloud-provider-sdk-api/src/main/java/com/paascloud/provider/aspect/MqProducerStoreAspect.java:94-101 | in wait-confirm mode `saveWaitConfirmMessage` is the first call and precedes the business call; if it throws, the business call never runs and its exception is the result |
| `ProducerStore.ConfirmOnlyAfterSuccess` | paascloud-provider-api/paascloud-provider-sdk-api/src/main/java/com/paascloud/provider/aspect/MqProducerStoreAspect.java:99-111 | a confirm task is submitted once exactly when the mode is wait-confirm and both the reservation and the business call returned, never otherwise; it carries the key of the message as the business method left it and follows both calls |
| `ProducerStore.ProceedFailureSendsNothing` | paascloud-provider-api/paascloud-provider-sdk-api/src/main/java/com/paascloud/provider/aspect/MqProducerStoreAspect.java:101-111 | when the business call throws, there is no save-and-send, no direct send and no confirm submission in any mode, and the interception fails |
| `ProducerStore.SendModesSendOnce` | paascloud-provider-api/paascloud-provider-sdk-api/src/main/java/com/paascloud/provider/aspect/MqProducerStoreAspect.java:101-112 | after a business call that returned, save-and-send mode calls `saveAndSendMessage` exactly once and direct-send mode `directSendMessage` exactly once, each after the business call, with no other send or confirm; the business result is returned unless that send throws |
| `ProducerStore.ResultIsBusinessResult` | paascloud-provider-api/paascloud-provider-sdk-api/src/main/java/com/paascloud/provider/aspect/MqProducerStoreAspect.java:101-112 | whenever the interception returns a value, it is the business method's own result |
| `ProducerRegistry.MqProducerBeanFactory.GetBean` | paascloud-provider/paascloud-provider-tpc/src/main/java/com/paascloud/provider/service/MqProducerBeanFactory.java:45-50 | a null or empty pid is an illegal argument; an unknown pid fails by null dereference; otherwise the stored producer is returned with its VIP channel disabled; the maps are unchanged |
| `ProducerRegistry.MqProducerBeanFactory.BuildProducerBean` | paascloud-provider/paascloud-provider-tpc/src/main/java/com/paascloud/provider/service/MqProducerBeanFactory.java:57-76 | an existing group leaves the map as it was and creates or starts nothing; on a miss, a fresh producer with the dto's group and name-server address, `start` as init and `shutdown` as destroy, is started and stored under the group and no other key |
| `ProducerRegistry.MqProducerBeanFactory.PutCid` | paascloud-provider/paascloud-provider-tpc/src/main/java/com/paascloud/provider/service/MqProducerBeanFactory.java:78-80 | only the consumer set gains the id; adding a present id changes nothing |
| `ProducerRegistry.MqProducerBeanFactory.RmCid` | paascloud-provider/paascloud-provider-tpc/src/main/java/com/paascloud/provider/service/MqProducerBeanFactory.java:82-84 | only the consumer set loses the id; removing an absent id changes nothing |
| `ProducerRegistry.MqProducerBeanFactory.PutPid` | paascloud-provider/paascloud-provider-tpc/src/main/java/com/paascloud/provider/service/MqProducerBeanFactory.java:86-88 | only the producer set gains the id; adding a present id changes nothing |
| `ProducerRegistry.MqProducerBeanFactory.RmPid` | paascloud-provider/paascloud-provider-tpc/src/main/java/com/paascloud/provider/service/MqProducerBeanFactory.java:90-92 | only the producer set loses the id; removing an absent id changes nothing |
| `ProducerRegistry.BuildThenGet` | paascloud-provider/paascloud-provider-tpc/src/main/java/com/paascloud/provider/service/MqProducerBeanFactory.java:45-74 | for a non-empty group both of two builds succeed, the second without starting anything; the fetch then returns the one producer stored for that group (the old one if it existed, else a new one), started and with its VIP channel disabled, and no other entry changes |
| `RegistryCenters.MqRegistrationFor` | paascloud-common/paascloud-common-zk/src/main/java/com/paascloud/core/registry/RegistryCenterFactory.java:77-82 | the consumer group is passed exactly when the reliable-consumer flag is set and the producer group exactly when the reliable-producer flag is set, otherwise null; app, host and name-server address are always passed |
| `RegistryCenters.RegistryCenterFactory.CreateCoordinatorRegistryCenter` | paascloud-common/paascloud-common-zk/src/main/java/com/paascloud/core/registry/RegistryCenterFactory.java:40-52 | a hit returns the cached center with no `init()`; a miss runs `init()` once and stores and returns the new center only if it returned, under the address digest and no other key; a failed `init()` leaves the cache unchanged |
| `RegistryCenters.RegistryCenterFactory.Startup` | paascloud-common/paascloud-common-zk/src/main/java/com/paascloud/core/registry/RegistryCenterFactory.java:61-69 | the outside calls are those of `StartupTrace`; `init()` runs at most once; the stored service id is the allocated one; a failure to create the center or allocate the id leaves the id unstored; on a hit or a failed `init()` the cache is unchanged, and on a miss whose `init()` returned only the new center is added, and stays even if the id allocation then fails |
| `RegistryCenters.RegistryCenterFactory.RegisterMq` | paascloud-common/paascloud-common-zk/src/main/java/com/paascloud/core/registry/RegistryCenterFactory.java:75-83 | a second lookup of an already cached center finds it without `init()`, and one registration with the flag-selected groups is made |
| `RegistryCenters.StartupInitialisesAtMostOnce` | paascloud-common/paascloud-common-zk/src/main/java/com/paascloud/core/registry/RegistryCenterFactory.java:61-76 | one startup initialises the center once on a miss and never on a hit, although it looks the center up twice |
| `RegistryCenters.StartupRegistersLast` | paascloud-common/paascloud-common-zk/src/main/java/com/paascloud/core/registry/RegistryCenterFactory.java:63-68 | the groups are registered exactly when the center was obtained and the id allocated; the id is allocated, then stored, then the registration comes last |
| `RegistryCenters.CacheKeyOnlyAddressList` | paascloud-common/paascloud-common-zk/src/main/java/com/paascloud/core/registry/RegistryCenterFactory.java:41-42 | the cache key depends on the address list alone, not on any other ZooKeeper setting |
| `RegistryCenters.CreateTwice` | paascloud-common/paascloud-common-zk/src/main/java/com/paascloud/core/registry/RegistryCenterFactory.java:40-52 | once the first of two calls with equal address lists returned a center, the second returns the same one and performs no `init()`, so the pair initialised only when the first missed; after a first call whose `init()` threw, the second misses, initialises again, and succeeds exactly when its own `init()` returns |
| `JavaStrings.JavaSplit` | paascloud-provider/paascloud-provider-uac/src/main/java/com/paascloud/provider/config/AliyunMqConfiguration.java:68-70 | without the separator the result is the string itself; otherwise it is all the fields less exactly the trailing empty ones: a prefix of the fields whose dropped tail is all empty and whose last field is not empty; no part contains the separator |
| `JavaStrings.SplitAll` | paascloud-provider/paascloud-provider-uac/src/main/java/com/paascloud/provider/config/AliyunMqConfiguration.java:68-70 | there is at least one field and none contains the separator |
| `JavaStrings.DropTrailingEmpty` | paascloud-provider/paascloud-provider-uac/src/main/java/com/paascloud/provider/config/AliyunMqConfiguration.java:68-70 | the result is a prefix, everything dropped is empty, and its last field is not empty |
| `JavaStrings.IndexOf` | paascloud-provider/paascloud-provider-uac/src/main/java/com/paascloud/provider/config/AliyunMqConfiguration.java:68-70 | the position holds the character and no earlier position does |
| `JavaStrings.JoinSplitAll` | paascloud-provider/paascloud-provider-uac/src/main/java/com/paascloud/provider/config/AliyunMqConfiguration.java:68-70 | joining the fields with the separator gives the string back |
| `JavaStrings.SplitAllJoin` | paascloud-provider/paascloud-provider-uac/src/main/java/com/paascloud/provider/config/AliyunMqConfiguration.java:68-70 | splitting fields that were joined, none containing the separator, gives the fields back |
| `JavaStrings.CutAtFirst` | paascloud-provider/paascloud-provider-uac/src/main/java/com/paascloud/provider/config/AliyunMqConfiguration.java:68-70 | text before the first separator is the first field and the rest splits independently |
| `ConsumerConfig.ParseEntry` | paascloud-provider/paascloud-provider-uac/src/main/java/com/paascloud/provider/config/AliyunMqConfiguration.java:70-75 | a parsed entry's topic and tags never contain `@` and its tags are never empty; a failure indexes position 0 or 1 |
| `ConsumerConfig.ParseEntryFields` | paascloud-provider/paascloud-provider-uac/src/main/java/com/paascloud/provider/config/AliyunMqConfiguration.java:70-75 | an entry parses exactly when some `@` field after the first is non-empty; then the topic is the first field and the tags are the second field, or `*` when it is empty |
| `ConsumerConfig.FormatRoundTrip` | paascloud-provider/paascloud-provider-uac/src/main/java/com/paascloud/provider/config/AliyunMqConfiguration.java:70-77 | `topic@tags` with non-empty tags parses to exactly that topic and those tags, passed unchanged |
| `ConsumerConfig.EmptyTagsBecomeWildcard` | paascloud-provider/paascloud-provider-uac/src/main/java/com/paascloud/provider/config/AliyunMqConfiguration.java:72-75 | an empty second field followed by a non-empty third one gives the wildcard `*` |
| `ConsumerConfig.MissingTagsFail` | paascloud-provider/paascloud-provider-uac/src/main/java/com/paascloud/provider/config/AliyunMqConfiguration.java:70-72 | `topic` and `topic@` both fail with an index error, because Java's split drops the trailing empty field |
| `ConsumerConfig.ParseEntries` | paascloud-provider/paascloud-provider-uac/src/main/java/com/paascloud/provider/config/AliyunMqConfiguration.java:68-79 | on success there is one subscription per entry, in entry order, each the entry parser's result for its entry |
| `ConsumerConfig.ParseTopics` | paascloud-provider/paascloud-provider-uac/src/main/java/com/paascloud/provider/config/AliyunMqConfiguration.java:68-79 | the comma split of the list, each entry parsed by `ParseEntry`: a list that parses gives one subscription per entry; no topic or tags contain `@`, and no tags are empty |
| `ConsumerConfig.ParseEntriesFirstError` | paascloud-provider/paascloud-provider-uac/src/main/java/com/paascloud/provider/config/AliyunMqConfiguration.java:68-79 | a failing list fails with the error of an entry that fails while every earlier entry parses |
| `ConsumerConfig.FirstErrorDecides` | paascloud-provider/paascloud-provider-uac/src/main/java/com/paascloud/provider/config/AliyunMqConfiguration.java:69-72 | if the entries before one parse and that one fails, the whole list fails with its error |
| `ConsumerConfig.PushConsumer.Subscribe` | paascloud-provider/paascloud-provider-uac/src/main/java/com/paascloud/provider/config/AliyunMqConfiguration.java:77 | a subscribe call appends one subscription and changes no other setting |
| `ConsumerConfig.AliyunMqConfiguration.DefaultMqPushConsumer` | paascloud-provider/paascloud-provider-uac/src/main/java/com/paascloud/provider/config/AliyunMqConfiguration.java:59-96 | the new consumer has the configured group and name server, starts from the last offset, has one subscription per entry in list order, the listener, and minimum and maximum threads of 2; it is returned unstarted with its start only scheduled; an entry without tags aborts with the index error and schedules nothing |

## Left out

- Concurrency is left out. The model does not cover the non-atomic get-then-put in both `ConcurrentHashMap` caches, the task executor's threads, the asynchronous run of the confirm task, or the five-second sleep before the consumer starts. Submitting a task is an event or a recorded entry.
- The Spring bean machinery is left out. Registering the bean definition and fetching the bean become "build a producer with its recorded settings and run its init method". Whether `start` returns is an input. Spring's own checks are not modelled: a bean name must be non-empty, and a failed definition stays registered.
- The RocketMQ clients are objects with recorded settings. A consumer setting this code does not make is left unset, because the client's defaults are not part of this model.
- `ProducerRegistry.MqProducer.constructor`: the VIP channel is taken as enabled before `getBean` disables it. The client's real default is not part of this model.
- `ZookeeperRegistryCenter`, its `init()` and `registerMq`, and `IncrementIdGenerator` are not part of this model. Whether `init()` returns and which id `nextId()` gives are inputs. `registerMq` is an event that never fails. So the uniqueness of service ids across startups is not modelled.
- MD5 is not modelled. The digest is an arbitrary function of the address string, supplied when the factory is built. Two different address lists that collide share a center, as they would in the code.
- Reflection on the annotation is left out. The annotation's values are an input record, and the intercepted call's arguments are a sequence that is either an `MqMessageData` or anything else.
- `ProducerStore.MqProducerStoreAspect.ProcessMqProducerStoreJoinPoint`: the executor's refusal to accept the confirm task is not modelled. Submission always succeeds.
- `ProducerStore.MqProducerStoreAspect.ProcessMqProducerStoreJoinPoint`: the confirm task reads the message key when it is submitted. In the code it reads the key when the task runs, possibly after the interception has returned and the caller has changed the object.
- `ProducerStore.MqProducerStoreAspect.ProcessMqProducerStoreJoinPoint`: the business method's effect is modelled only on the message object (as `left`). Its effects on other arguments, and a reservation service that itself changes the message, are not modelled.
- Null strings are modelled only where the code tests for them: the pid of `getBean`. Configured groups, addresses, dto fields and message keys are non-null strings.
- `PublicUtil.isEmpty` is not part of this model. It is taken to be the length-zero test on a string.
- `GlobalConstant.Symbol.COMMA` and `AT` are taken to be `,` and `@`. The topic list `AliyunMqTopicConstants.ConsumerTopics.UAC` is a parameter of the configuration, because its value is not part of this model.
- The service id is an unbounded integer. The source's `Long` width is not modelled.
- Logging is left out.
