/** The push consumer of the user-account service: its settings, and the
    subscriptions read from a comma-separated list of `topic@tags` entries. */
module ConsumerConfig {
  import opened Properties
  import opened JavaStrings

  /** `GlobalConstant.Symbol.COMMA`, between entries. */
  const COMMA: char := ','
  /** `GlobalConstant.Symbol.AT`, between a topic and its tags. */
  const AT: char := '@'
  /** The tag expression that matches every tag. */
  const WILDCARD: string := "*"

  /** One `consumer.subscribe(topic, tags)` call. */
  datatype Subscription = Subscription(topic: string, tags: string)

  /** Indexing `topicArray` past its end. */
  datatype ParseError = ArrayIndexOutOfBounds(index: nat)

  /** One entry of the topic list: the first `@` field is the topic, the
      second the tags, and empty tags become the wildcard. The topic and
      tags never contain `@`, and the tags are never empty. */
  function ParseEntry(entry: string): (r: Result<Subscription, ParseError>)
    ensures r.Ok? ==> AT !in r.value.topic && AT !in r.value.tags && r.value.tags != ""
    ensures r.Err? ==> r.error.index <= 1
  {
    var topicArray := JavaSplit(entry, AT);
    if |topicArray| == 0 then Err(ArrayIndexOutOfBounds(0))
    else if |topicArray| == 1 then Err(ArrayIndexOutOfBounds(1))
    else
      var tags := if |topicArray[1]| == 0 then WILDCARD else topicArray[1];
      Ok(Subscription(topicArray[0], tags))
  }

  /** The entries parsed in order by `parse`; the first entry that fails
      decides the error. The list-level facts below hold for any entry
      parser, so they are stated once for all of them. */
  function ParseEntries(entries: seq<string>, parse: string -> Result<Subscription, ParseError>)
    : (r: Result<seq<Subscription>, ParseError>)
    ensures r.Ok? ==> |r.value| == |entries|
    ensures r.Ok? ==> forall i :: 0 <= i < |entries| ==> parse(entries[i]) == Ok(r.value[i])
    decreases |entries|
  {
    if |entries| == 0 then Ok([])
    else
      var last := |entries| - 1;
      match ParseEntries(entries[..last], parse)
      case Err(e) => Err(e)
      case Ok(subs) =>
        match parse(entries[last])
        case Err(e) => Err(e)
        case Ok(s) =>
          assert forall k :: 0 <= k < last ==> (subs + [s])[k] == subs[k] && entries[..last][k] == entries[k];
          Ok(subs + [s])
  }

  /** Parsing one more entry: the list so far must parse and so must the
      new entry, whose subscription then comes last; otherwise the first
      error stands. */
  lemma ParseEntriesSnoc(entries: seq<string>, entry: string, parse: string -> Result<Subscription, ParseError>)
    ensures ParseEntries(entries + [entry], parse) ==
      match ParseEntries(entries, parse)
      case Err(e) => Err(e)
      case Ok(subs) =>
        match parse(entry)
        case Err(e) => Err(e)
        case Ok(sub) => Ok(subs + [sub])
  {
    assert (entries + [entry])[..|entries|] == entries;
  }

  /** A prefix one element longer is the prefix with that element added. */
  lemma TakeOneMore<T>(s: seq<T>, i: nat)
    requires i < |s|
    ensures s[..i + 1] == s[..i] + [s[i]]
  {
  }

  /** A failing list fails with the error of its first failing entry. */
  lemma {:induction false} ParseEntriesFirstError(entries: seq<string>, parse: string -> Result<Subscription, ParseError>)
    requires ParseEntries(entries, parse).Err?
    ensures exists i :: 0 <= i < |entries| && parse(entries[i]) == Err(ParseEntries(entries, parse).error) &&
                        forall j :: 0 <= j < i ==> parse(entries[j]).Ok?
    decreases |entries|
  {
    var last := |entries| - 1;
    var init := entries[..last];
    if ParseEntries(init, parse).Err? {
      ParseEntriesFirstError(init, parse);
      var i :| 0 <= i < |init| && parse(init[i]) == Err(ParseEntries(init, parse).error) &&
               forall j :: 0 <= j < i ==> parse(init[j]).Ok?;
      assert entries[i] == init[i];
      assert forall j :: 0 <= j < i ==> entries[j] == init[j];
    } else {
      assert forall j :: 0 <= j < last ==> entries[j] == init[j];
    }
  }

  /** The whole topic list: `topics.split(",")`, each entry parsed. A list
      that parses gives one subscription per entry, and no topic or tags
      contain an `@` or are empty tags. */
  function ParseTopics(topics: string): (r: Result<seq<Subscription>, ParseError>)
    ensures r.Ok? ==> |r.value| == |JavaSplit(topics, COMMA)|
    ensures r.Ok? ==> forall i :: 0 <= i < |r.value| ==>
      AT !in r.value[i].topic && AT !in r.value[i].tags && r.value[i].tags != ""
  {
    ParseEntries(JavaSplit(topics, COMMA), ParseEntry)
  }

  /** `topic@tags` with non-empty tags, neither containing `@`, gives back
      exactly that subscription. */
  lemma FormatRoundTrip(sub: Subscription)
    requires AT !in sub.topic && AT !in sub.tags && sub.tags != ""
    ensures ParseEntry(sub.topic + [AT] + sub.tags) == Ok(sub)
  {
    var e := sub.topic + [AT] + sub.tags;
    CutAtFirst(sub.topic, sub.tags, AT);
    assert SplitAll(e, AT) == [sub.topic, sub.tags];
    assert e[|sub.topic|] == AT;
  }

  /** An entry whose second field is empty but which has a third, non-empty
      field subscribes its topic with the wildcard. */
  lemma EmptyTagsBecomeWildcard(topic: string, rest: string)
    requires AT !in topic && AT !in rest && rest != ""
    ensures ParseEntry(topic + [AT, AT] + rest) == Ok(Subscription(topic, WILDCARD))
  {
    var e := topic + [AT, AT] + rest;
    assert e == topic + [AT] + ([AT] + rest);
    assert [AT] + rest == [] + [AT] + rest;
    CutAtFirst(topic, [AT] + rest, AT);
    CutAtFirst([], rest, AT);
    assert e[|topic|] == AT;
    var raw := SplitAll(e, AT);
    assert raw == [topic, "", rest];
    assert DropTrailingEmpty(raw) == raw;
    assert JavaSplit(e, AT) == [topic, "", rest];
  }

  /** An entry without `@`, or whose only `@` ends it, has no second field
      once Java drops the trailing empty field, so indexing it fails. */
  lemma MissingTagsFail(topic: string)
    requires AT !in topic
    ensures ParseEntry(topic).Err?
    ensures ParseEntry(topic + [AT]).Err?
  {
    var e := topic + [AT];
    assert e == topic + [AT] + "";
    CutAtFirst(topic, "", AT);
    assert SplitAll(e, AT) == [topic, ""];
    assert e[|topic|] == AT;
  }

  /** Whenever an entry parses, its topic is the first raw `@` field and its
      tags the second one, or the wildcard when that field is empty. The
      entry parses exactly when some field after the first is non-empty. */
  lemma ParseEntryFields(entry: string)
    ensures var raw := SplitAll(entry, AT);
      ParseEntry(entry).Ok? <==> exists i :: 1 <= i < |raw| && raw[i] != ""
    ensures var raw := SplitAll(entry, AT);
      ParseEntry(entry).Ok? ==>
        |raw| >= 2 && ParseEntry(entry).value.topic == raw[0] &&
        ParseEntry(entry).value.tags == (if raw[1] == "" then WILDCARD else raw[1])
  {
    var raw := SplitAll(entry, AT);
    var parts := JavaSplit(entry, AT);
    if AT in entry {
      if exists i :: 1 <= i < |raw| && raw[i] != "" {
        var i :| 1 <= i < |raw| && raw[i] != "";
        assert i < |parts|;
      }
      if |parts| >= 2 {
        assert raw[|parts| - 1] == parts[|parts| - 1] != "";
      }
    }
  }

  /** Where the consumer starts reading a queue it has not read before. */
  datatype ConsumeFromWhere = ConsumeFromLastOffset | ConsumeFromFirstOffset | ConsumeFromTimestamp

  /** The message listeners this service registers. */
  datatype MessageListener = UacPushMessageListener

  /** The recorded settings of a RocketMQ push consumer. A setting this
      code has not made yet is `None` (the client's own default applies). */
  class PushConsumer {
    const consumerGroup: string
    var namesrvAddr: Option<string>
    var consumeFromWhere: Option<ConsumeFromWhere>
    var subscriptions: seq<Subscription>
    var listener: Option<MessageListener>
    var consumeThreadMin: Option<int>
    var consumeThreadMax: Option<int>
    var started: bool

    constructor (group: string)
      ensures consumerGroup == group && namesrvAddr.None? && consumeFromWhere.None?
      ensures subscriptions == [] && listener.None?
      ensures consumeThreadMin.None? && consumeThreadMax.None? && !started
    {
      consumerGroup := group;
      namesrvAddr, consumeFromWhere := None, None;
      subscriptions, listener := [], None;
      consumeThreadMin, consumeThreadMax := None, None;
      started := false;
    }

    /** `subscribe(topic, tags)`: one more subscription, in call order. */
    method Subscribe(topic: string, tags: string)
      modifies this
      ensures subscriptions == old(subscriptions) + [Subscription(topic, tags)]
      ensures namesrvAddr == old(namesrvAddr) && consumeFromWhere == old(consumeFromWhere)
      ensures listener == old(listener) && started == old(started)
      ensures consumeThreadMin == old(consumeThreadMin) && consumeThreadMax == old(consumeThreadMax)
    {
      subscriptions := subscriptions + [Subscription(topic, tags)];
    }
  }

  /** The configuration class that builds the consumer bean. */
  class AliyunMqConfiguration {
    /** The RocketMQ part of the application's properties. */
    const rocketMq: RocketMqProperties
    /** `AliyunMqTopicConstants.ConsumerTopics.UAC`, the topic list. */
    const consumerTopics: string
    /** Consumers whose delayed `start` has been handed to the task
        executor, in submission order; the start itself runs later. */
    var scheduledStarts: seq<PushConsumer>

    constructor (rocketMq: RocketMqProperties, consumerTopics: string)
      ensures this.rocketMq == rocketMq && this.consumerTopics == consumerTopics
      ensures scheduledStarts == []
    {
      this.rocketMq := rocketMq;
      this.consumerTopics := consumerTopics;
      scheduledStarts := [];
    }

    /** `defaultMQPushConsumer()`: a new consumer for the configured group
        and name server, reading from the last offset, subscribed once per
        entry of the topic list in list order, with the listener and two
        consume threads; it is returned not yet started, its start only
        scheduled. An entry without tags aborts the bean with the index
        error and schedules nothing. */
    method DefaultMqPushConsumer() returns (r: Result<PushConsumer, ParseError>)
      modifies this
      ensures ParseTopics(consumerTopics).Err? ==>
        r == Err(ParseTopics(consumerTopics).error) && scheduledStarts == old(scheduledStarts)
      ensures ParseTopics(consumerTopics).Ok? ==> r.Ok? && fresh(r.value)
      ensures r.Ok? ==>
        var c := r.value;
        c.consumerGroup == rocketMq.consumerGroup && c.namesrvAddr == Some(rocketMq.namesrvAddr) &&
        c.consumeFromWhere == Some(ConsumeFromLastOffset) &&
        c.subscriptions == ParseTopics(consumerTopics).value &&
        c.listener == Some(UacPushMessageListener) &&
        c.consumeThreadMin == Some(2) && c.consumeThreadMax == Some(2) &&
        !c.started && scheduledStarts == old(scheduledStarts) + [c]
    {
      var consumer := new PushConsumer(rocketMq.consumerGroup);
      consumer.namesrvAddr := Some(rocketMq.namesrvAddr);
      consumer.consumeFromWhere := Some(ConsumeFromLastOffset);

      var strArray := JavaSplit(consumerTopics, COMMA);
      var i := 0;
      while i < |strArray|
        invariant 0 <= i <= |strArray|
        invariant ParseEntries(strArray[..i], ParseEntry).Ok?
        invariant consumer.subscriptions == ParseEntries(strArray[..i], ParseEntry).value
        invariant consumer.consumerGroup == rocketMq.consumerGroup
        invariant consumer.namesrvAddr == Some(rocketMq.namesrvAddr)
        invariant consumer.consumeFromWhere == Some(ConsumeFromLastOffset)
        invariant consumer.listener.None? && !consumer.started
        invariant consumer.consumeThreadMin.None? && consumer.consumeThreadMax.None?
        invariant scheduledStarts == old(scheduledStarts)
      {
        TakeOneMore(strArray, i);
        ParseEntriesSnoc(strArray[..i], strArray[i], ParseEntry);
        match ParseEntry(strArray[i])
        case Err(e) =>
          FirstErrorDecides(strArray, i, ParseEntry);
          return Err(e);
        case Ok(sub) =>
          consumer.Subscribe(sub.topic, sub.tags);
        i := i + 1;
      }
      assert strArray[..i] == strArray;

      consumer.listener := Some(UacPushMessageListener);
      consumer.consumeThreadMax := Some(2);
      consumer.consumeThreadMin := Some(2);
      scheduledStarts := scheduledStarts + [consumer];
      r := Ok(consumer);
    }
  }

  /** If the entries before `i` parse and entry `i` does not, the whole list
      fails with entry `i`'s error. */
  lemma FirstErrorDecides(entries: seq<string>, i: nat, parse: string -> Result<Subscription, ParseError>)
    requires i < |entries|
    requires ParseEntries(entries[..i], parse).Ok?
    requires parse(entries[i]).Err?
    ensures ParseEntries(entries, parse) == Err(parse(entries[i]).error)
  {
    forall j | 0 <= j < i
      ensures parse(entries[j]).Ok?
    {
      assert entries[..i][j] == entries[j];
    }
    var r := ParseEntries(entries, parse);
    if r.Err? {
      ParseEntriesFirstError(entries, parse);
      var k :| 0 <= k < |entries| && parse(entries[k]) == Err(r.error) &&
        forall j :: 0 <= j < k ==> parse(entries[j]).Ok?;
      assert k == i;
    }
  }
}
