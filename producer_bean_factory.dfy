/** The process-wide registry of RocketMQ producers, one per producer group,
    and the two bookkeeping sets of active consumer and producer ids. */
module ProducerRegistry {
  import opened Properties

  /** `ReliableMessageRegisterDto`, the two fields a producer is built from. */
  datatype ReliableMessageRegisterDto = ReliableMessageRegisterDto(
    producerGroup: string,
    namesrvAddr: string)

  /** The recorded settings of a RocketMQ `DefaultMQProducer` bean: its two
      configured properties, the init and destroy methods the bean
      definition names, whether the VIP channel is enabled, and whether the
      init method has run. */
  class MqProducer {
    const producerGroup: string
    const namesrvAddr: string
    const initMethodName: string
    const destroyMethodName: string
    var vipChannelEnabled: bool
    var started: bool

    /** The bean as instantiated from its definition, before its init
        method runs; the VIP channel is on, as in the RocketMQ client. */
    constructor (dto: ReliableMessageRegisterDto)
      ensures producerGroup == dto.producerGroup && namesrvAddr == dto.namesrvAddr
      ensures initMethodName == "start" && destroyMethodName == "shutdown"
      ensures vipChannelEnabled && !started
    {
      producerGroup, namesrvAddr := dto.producerGroup, dto.namesrvAddr;
      initMethodName, destroyMethodName := "start", "shutdown";
      vipChannelEnabled, started := true, false;
    }
  }

  /** How a registry operation fails. */
  datatype Failure =
    | IllegalArgument(message: string)
    | NullPointer
    | BeanCreationFailed

  /** `MqProducerBeanFactory`: its three static maps as the fields of one
      registry object. The two status maps map each id to itself, so they
      are sets. */
  class MqProducerBeanFactory {
    var producers: map<string, MqProducer>
    var consumerIds: set<string>
    var producerIds: set<string>

    /** Every stored producer is configured for the group it is stored
        under and has been started. */
    ghost predicate Valid()
      reads this, producers.Values
    {
      forall g :: g in producers ==> producers[g].producerGroup == g && producers[g].started
    }

    constructor ()
      ensures Valid() && producers == map[] && consumerIds == {} && producerIds == {}
    {
      producers, consumerIds, producerIds := map[], {}, {};
    }

    /** `getBean(pid)`: a null or empty pid is an illegal argument; a pid
        never built fails by dereferencing null; otherwise the stored
        producer is returned with its VIP channel disabled. The registry
        itself does not change. */
    method GetBean(pid: Option<string>) returns (r: Result<MqProducer, Failure>)
      requires Valid()
      modifies if pid.Some? && pid.value in producers then {producers[pid.value]} else {}
      ensures Valid()
      ensures pid.None? || pid.value == "" ==> r == Err(IllegalArgument("getBean() pid is null"))
      ensures pid.Some? && pid.value != "" && pid.value !in producers ==> r == Err(NullPointer)
      ensures pid.Some? && pid.value != "" && pid.value in producers ==>
        r == Ok(producers[pid.value]) && !r.value.vipChannelEnabled && r.value.started
      ensures producers == old(producers) && consumerIds == old(consumerIds) && producerIds == old(producerIds)
    {
      if pid.None? || pid.value == "" {
        return Err(IllegalArgument("getBean() pid is null"));
      }
      if pid.value !in producers {
        return Err(NullPointer);
      }
      var producer := producers[pid.value];
      producer.vipChannelEnabled := false;
      r := Ok(producer);
    }

    /** `buildProducerBean(dto)`: if a producer exists for the group nothing
        happens. Otherwise a new producer is configured from the dto, its
        init method `start` runs (`startOk` says whether it returns), and
        only a started producer is stored, under the group name and no
        other key. */
    method BuildProducerBean(dto: ReliableMessageRegisterDto, startOk: bool) returns (r: Result<(), Failure>)
      requires Valid()
      modifies this
      ensures Valid()
      ensures dto.producerGroup in old(producers) ==> r.Ok? && producers == old(producers)
      ensures dto.producerGroup !in old(producers) && !startOk ==>
        r == Err(BeanCreationFailed) && producers == old(producers)
      ensures dto.producerGroup !in old(producers) && startOk ==>
        r.Ok? && dto.producerGroup in producers &&
        producers == old(producers)[dto.producerGroup := producers[dto.producerGroup]]
      ensures dto.producerGroup !in old(producers) && startOk ==>
        var p := producers[dto.producerGroup];
        fresh(p) && p.namesrvAddr == dto.namesrvAddr && p.initMethodName == "start" &&
        p.destroyMethodName == "shutdown" && p.vipChannelEnabled
      ensures consumerIds == old(consumerIds) && producerIds == old(producerIds)
    {
      var pid := dto.producerGroup;
      if pid in producers {
        return Ok(());
      }
      var producer := new MqProducer(dto);
      if !startOk {
        return Err(BeanCreationFailed);
      }
      producer.started := true;
      producers := producers[pid := producer];
      r := Ok(());
    }

    /** `putCid(cid)`: only the consumer set gains `cid`. */
    method PutCid(cid: string)
      modifies this
      ensures consumerIds == old(consumerIds) + {cid}
      ensures old(cid in consumerIds) ==> consumerIds == old(consumerIds)
      ensures producers == old(producers) && producerIds == old(producerIds)
    {
      consumerIds := consumerIds + {cid};
    }

    /** `rmCid(cid)`: only the consumer set loses `cid`. */
    method RmCid(cid: string)
      modifies this
      ensures consumerIds == old(consumerIds) - {cid}
      ensures old(cid !in consumerIds) ==> consumerIds == old(consumerIds)
      ensures producers == old(producers) && producerIds == old(producerIds)
    {
      consumerIds := consumerIds - {cid};
    }

    /** `putPid(pid)`: only the producer set gains `pid`. */
    method PutPid(pid: string)
      modifies this
      ensures producerIds == old(producerIds) + {pid}
      ensures old(pid in producerIds) ==> producerIds == old(producerIds)
      ensures producers == old(producers) && consumerIds == old(consumerIds)
    {
      producerIds := producerIds + {pid};
    }

    /** `rmPid(pid)`: only the producer set loses `pid`. */
    method RmPid(pid: string)
      modifies this
      ensures producerIds == old(producerIds) - {pid}
      ensures old(pid !in producerIds) ==> producerIds == old(producerIds)
      ensures producers == old(producers) && consumerIds == old(consumerIds)
    {
      producerIds := producerIds - {pid};
    }
  }

  /** Building a producer for a non-empty group, building it again, and
      then fetching it: both builds succeed, the second even when `start`
      would fail because it finds the group and does nothing, and the fetch
      yields the one stored producer for that group, started and with the
      VIP channel disabled. */
  method BuildThenGet(factory: MqProducerBeanFactory, dto: ReliableMessageRegisterDto)
    returns (built: Result<(), Failure>, again: Result<(), Failure>, r: Result<MqProducer, Failure>)
    requires factory.Valid() && dto.producerGroup != ""
    modifies factory, factory.producers.Values
    ensures built.Ok? && again.Ok?
    ensures r.Ok? && r.value.producerGroup == dto.producerGroup
    ensures r.value.started && !r.value.vipChannelEnabled
    ensures factory.producers == old(factory.producers)[dto.producerGroup := r.value]
    ensures dto.producerGroup in old(factory.producers) ==> r.value == old(factory.producers)[dto.producerGroup]
    ensures dto.producerGroup !in old(factory.producers) ==> fresh(r.value)
  {
    built := factory.BuildProducerBean(dto, true);
    again := factory.BuildProducerBean(dto, false);
    r := factory.GetBean(Some(dto.producerGroup));
  }
}
