/** Values shared by every part of the model: Java's nullable results and
    exceptions as datatypes, and the configuration records read from the
    application's properties. */
module Properties {

  /** A Java reference that may be null. */
  datatype Option<+T> = None | Some(value: T)

  /** A call that either returns a value or throws. */
  datatype Result<+T, +E> = Ok(value: T) | Err(error: E)

  /** `ZookeeperProperties`: the ZooKeeper address list plus every other
      ZooKeeper setting (session timeout, namespace, retry policy, ...),
      which the model keeps as an opaque name-to-value table. */
  datatype ZookeeperProperties = ZookeeperProperties(
    zkAddressList: string,
    otherSettings: map<string, string>)

  /** `AliyunProperties.RocketMqProperties`. */
  datatype RocketMqProperties = RocketMqProperties(
    consumerGroup: string,
    producerGroup: string,
    namesrvAddr: string,
    reliableMessageConsumer: bool,
    reliableMessageProducer: bool)

  /** `PaascloudProperties`, restricted to the two parts the core reads. */
  datatype PaascloudProperties = PaascloudProperties(
    zk: ZookeeperProperties,
    rocketMq: RocketMqProperties)
}
