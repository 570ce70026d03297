/** The reliable-delivery interceptor: around a business method annotated
    with `@MqProducerStore` it picks the message argument, stamps it, and
    calls the message service before and after the business call in an
    order fixed by the send mode. The message service and the business call
    are outside the model: each call to them is recorded as an event, and
    whether it returns or throws, and what the business method leaves in
    the message object it shares with the aspect, are inputs. */
module ProducerStore {
  import opened Properties
  import opened Traces

  /** `MqSendTypeEnum`. */
  datatype SendType = WaitConfirm | SaveAndSend | DirectSend

  /** `MqOrderTypeEnum`: ORDER is code 1, DIS_ORDER code 0. */
  datatype OrderType = Order | DisOrder {
    function Code(): int { if Order? then 1 else 0 }
  }

  /** `DelayLevelEnum`: RocketMQ's delay levels, from ZERO (no delay) up to
      EIGHTEEN (two hours); a level's number is its `delayLevel()`. */
  type DelayLevel = n: int | 0 <= n <= 18
  const ZERO: DelayLevel := 0

  /** The values of the `@MqProducerStore` annotation. */
  datatype MqProducerStore = MqProducerStore(
    sendType: SendType,
    orderType: OrderType,
    delayLevel: DelayLevel)

  /** `ErrorCodeEnum.TPC10050005`: no message argument. */
  datatype ErrorCode = TPC10050005

  /** How an interception can end other than with the business result. */
  datatype Failure =
    | TpcBizException(code: ErrorCode)
    | SaveWaitConfirmThrew
    | ProceedThrew
    | SendThrew

  /** Whether the business method returned a value or threw. */
  datatype Outcome<R> = Returns(value: R) | Throws

  /** The fields of an `MqMessageData` that the message service reads. */
  datatype Message = Message(
    messageKey: string,
    orderType: int,
    producerGroup: string,
    delayLevel: int)

  /** `MqMessageData`, the message argument that the aspect stamps. */
  class MqMessageData {
    var messageKey: string
    var orderType: int
    var producerGroup: string
    var delayLevel: int

    constructor (m: Message)
      ensures Snapshot() == m
    {
      messageKey, orderType := m.messageKey, m.orderType;
      producerGroup, delayLevel := m.producerGroup, m.delayLevel;
    }

    /** The message as the service sees it at the time of a call. */
    function Snapshot(): Message
      reads this
    {
      Message(messageKey, orderType, producerGroup, delayLevel)
    }
  }

  /** One argument of the intercepted call: an `MqMessageData`, or anything
      else (another type, or null). */
  datatype Arg = MessageArg(data: MqMessageData) | OtherArg

  /** A call made by the aspect, in the order made. */
  datatype Event =
    | SaveWaitConfirmMessage(m: Message)
    | Proceed
    | SaveAndSendMessage(m: Message)
    | DirectSendMessage(m: Message)
    | ConfirmAndSendSubmitted(messageKey: string)

  /** The position of the first `MqMessageData` among the arguments. */
  function FirstMessage(args: seq<Arg>): (r: Option<nat>)
    ensures r.Some? ==> r.value < |args| && args[r.value].MessageArg?
    ensures r.Some? ==> forall i :: 0 <= i < r.value ==> args[i].OtherArg?
    ensures r.None? ==> forall i :: 0 <= i < |args| ==> args[i].OtherArg?
  {
    if |args| == 0 then None
    else if args[0].MessageArg? then Some(0)
    else
      match FirstMessage(args[1..])
      case None => None
      case Some(k) => Some(k + 1)
  }

  /** The argument scan: the loop that stops at the first `MqMessageData`. */
  method FindMessage(args: seq<Arg>) returns (found: Option<nat>)
    ensures found == FirstMessage(args)
  {
    var i := 0;
    while i < |args|
      invariant 0 <= i <= |args|
      invariant forall j :: 0 <= j < i ==> args[j].OtherArg?
    {
      if args[i].MessageArg? {
        return Some(i);
      }
      i := i + 1;
    }
    return None;
  }

  /** The message after stamping: the annotation's order type and the
      configured producer group always, the delay level only in wait-confirm
      mode with a non-zero level. */
  function Stamp(m: Message, annotation: MqProducerStore, producerGroup: string): (s: Message)
    ensures s.messageKey == m.messageKey
    ensures s.orderType == annotation.orderType.Code() && s.producerGroup == producerGroup
    ensures s.delayLevel != m.delayLevel ==>
      annotation.sendType == WaitConfirm && annotation.delayLevel != ZERO
    ensures annotation.sendType == WaitConfirm && annotation.delayLevel != ZERO ==>
      s.delayLevel == annotation.delayLevel
  {
    var delay :=
      if annotation.sendType == WaitConfirm && annotation.delayLevel != ZERO
      then annotation.delayLevel as int
      else m.delayLevel;
    Message(m.messageKey, annotation.orderType.Code(), producerGroup, delay)
  }

  /** The call made after a business call that returned. */
  function AfterProceed(mode: SendType, m: Message): Event
  {
    match mode
    case SaveAndSend => SaveAndSendMessage(m)
    case DirectSend => DirectSendMessage(m)
    case WaitConfirm => ConfirmAndSendSubmitted(m.messageKey)
  }

  /** The calls one interception makes once the message is stamped, given
      whether `saveWaitConfirmMessage` returns and how the business call
      ends. The business method receives the very object the aspect
      stamped, so the reservation sees `stamped` and every later call sees
      `left`, the message as the business method leaves it. */
  function ProtocolTrace<R>(mode: SendType, stamped: Message, left: Message, saveOk: bool, business: Outcome<R>): seq<Event>
  {
    var reserve := if mode == WaitConfirm then [SaveWaitConfirmMessage(stamped)] else [];
    if mode == WaitConfirm && !saveOk then reserve
    else if business.Throws? then reserve + [Proceed]
    else reserve + [Proceed, AfterProceed(mode, left)]
  }

  /** What the interception returns or throws, given the same inputs and
      whether the after-call send returns. */
  function ProtocolResult<R>(mode: SendType, saveOk: bool, business: Outcome<R>, sendOk: bool): Result<R, Failure>
  {
    if mode == WaitConfirm && !saveOk then Err(SaveWaitConfirmThrew)
    else if business.Throws? then Err(ProceedThrew)
    else if mode != WaitConfirm && !sendOk then Err(SendThrew)
    else Ok(business.value)
  }

  predicate IsSaveAndSend(e: Event) { e.SaveAndSendMessage? }
  predicate IsDirectSend(e: Event) { e.DirectSendMessage? }
  predicate IsConfirm(e: Event) { e.ConfirmAndSendSubmitted? }
  predicate IsAfterProceed(e: Event) { IsSaveAndSend(e) || IsDirectSend(e) || IsConfirm(e) }

  /** Every message-service call receives the message as it stands at that
      moment: the reservation the stamped message, the sends and the
      confirm task the message the business method left behind. When the
      business method leaves the message alone, every call carries the
      stamped message. */
  lemma CallsCarryCurrentMessage<R>(mode: SendType, stamped: Message, left: Message, saveOk: bool, business: Outcome<R>)
    ensures var t := ProtocolTrace(mode, stamped, left, saveOk, business);
      forall e :: e in t && e.SaveWaitConfirmMessage? ==> e.m == stamped
    ensures var t := ProtocolTrace(mode, stamped, left, saveOk, business);
      forall e :: e in t && (e.SaveAndSendMessage? || e.DirectSendMessage?) ==> e.m == left
    ensures var t := ProtocolTrace(mode, stamped, left, saveOk, business);
      forall e :: e in t && e.ConfirmAndSendSubmitted? ==> e.messageKey == left.messageKey
    ensures var t := ProtocolTrace(mode, stamped, stamped, saveOk, business);
      forall e :: e in t && (e.SaveWaitConfirmMessage? || e.SaveAndSendMessage? || e.DirectSendMessage?) ==>
        e.m == stamped
  {
  }

  /** Wait-confirm mode reserves the message first; the business call runs
      only after the reservation and only if it returned. */
  lemma WaitConfirmReservesFirst<R>(stamped: Message, left: Message, saveOk: bool, business: Outcome<R>)
    ensures var t := ProtocolTrace(WaitConfirm, stamped, left, saveOk, business);
      |t| > 0 && t[0] == SaveWaitConfirmMessage(stamped) && Count(t, IsSaveAndSend) == 0
    ensures var t := ProtocolTrace(WaitConfirm, stamped, left, saveOk, business);
      saveOk ==> Precedes(t, SaveWaitConfirmMessage(stamped), Proceed)
    ensures var t := ProtocolTrace(WaitConfirm, stamped, left, saveOk, business);
      !saveOk ==> Proceed !in t && ProtocolResult(WaitConfirm, saveOk, business, true) == Err(SaveWaitConfirmThrew)
  {
    var t := ProtocolTrace(WaitConfirm, stamped, left, saveOk, business);
    CountNone(t, IsSaveAndSend);
    if saveOk {
      assert t[0] == SaveWaitConfirmMessage(stamped) && t[1] == Proceed;
    }
  }

  /** A confirm task is submitted exactly when the mode is wait-confirm, the
      reservation returned and the business call returned; it carries the
      message key and comes after both. */
  lemma ConfirmOnlyAfterSuccess<R>(mode: SendType, stamped: Message, left: Message, saveOk: bool, business: Outcome<R>)
    ensures var t := ProtocolTrace(mode, stamped, left, saveOk, business);
      Count(t, IsConfirm) == (if mode == WaitConfirm && saveOk && business.Returns? then 1 else 0)
    ensures var t := ProtocolTrace(mode, stamped, left, saveOk, business);
      mode == WaitConfirm && saveOk && business.Returns? ==>
        Precedes(t, SaveWaitConfirmMessage(stamped), ConfirmAndSendSubmitted(left.messageKey)) &&
        Precedes(t, Proceed, ConfirmAndSendSubmitted(left.messageKey))
  {
    var t := ProtocolTrace(mode, stamped, left, saveOk, business);
    if mode == WaitConfirm && saveOk && business.Returns? {
      assert t == [SaveWaitConfirmMessage(stamped), Proceed, ConfirmAndSendSubmitted(left.messageKey)];
      CountOnce(t, IsConfirm, 2);
      assert t[0] == SaveWaitConfirmMessage(stamped) && t[2] == ConfirmAndSendSubmitted(left.messageKey);
      assert t[1] == Proceed;
    } else {
      CountNone(t, IsConfirm);
    }
  }

  /** If the business call throws, nothing is sent and no confirm task is
      submitted, whatever the mode; the exception reaches the caller. */
  lemma ProceedFailureSendsNothing<R>(mode: SendType, stamped: Message, left: Message, saveOk: bool,
                                      business: Outcome<R>, sendOk: bool)
    requires business.Throws?
    ensures Count(ProtocolTrace(mode, stamped, left, saveOk, business), IsAfterProceed) == 0
    ensures ProtocolResult(mode, saveOk, business, sendOk).Err?
  {
    CountNone(ProtocolTrace(mode, stamped, left, saveOk, business), IsAfterProceed);
  }

  /** Save-and-send and direct-send modes make exactly one send call of
      their kind, none of the other kinds, and only after the business
      call returned; the business result is passed through unchanged. */
  lemma SendModesSendOnce<R>(mode: SendType, stamped: Message, left: Message, saveOk: bool,
                             business: Outcome<R>, sendOk: bool)
    requires mode != WaitConfirm && business.Returns?
    ensures var t := ProtocolTrace(mode, stamped, left, saveOk, business);
      Count(t, IsSaveAndSend) == (if mode == SaveAndSend then 1 else 0) &&
      Count(t, IsDirectSend) == (if mode == DirectSend then 1 else 0) &&
      Count(t, IsConfirm) == 0 &&
      Precedes(t, Proceed, AfterProceed(mode, left))
    ensures ProtocolResult(mode, saveOk, business, sendOk) ==
      if sendOk then Ok(business.value) else Err(SendThrew)
  {
    var t := ProtocolTrace(mode, stamped, left, saveOk, business);
    assert t == [Proceed, AfterProceed(mode, left)];
    assert t[0] == Proceed && t[1] == AfterProceed(mode, left);
    CountNone(t, IsConfirm);
    if mode == SaveAndSend {
      CountOnce(t, IsSaveAndSend, 1);
      CountNone(t, IsDirectSend);
    } else {
      CountOnce(t, IsDirectSend, 1);
      CountNone(t, IsSaveAndSend);
    }
  }

  /** The interceptor's result is the business result whenever it is a
      value at all. */
  lemma ResultIsBusinessResult<R>(mode: SendType, saveOk: bool, business: Outcome<R>, sendOk: bool)
    ensures ProtocolResult(mode, saveOk, business, sendOk).Ok? ==>
      business.Returns? && ProtocolResult(mode, saveOk, business, sendOk).value == business.value
  {
  }

  /** `MqProducerStoreAspect`. `trace` records every call the aspect has
      made to the message service, to the business method and to the task
      executor. */
  class MqProducerStoreAspect {
    /** The configured `paascloud.aliyun.rocketMq.producerGroup`. */
    const producerGroup: string
    ghost var trace: seq<Event>

    constructor (producerGroup: string)
      ensures this.producerGroup == producerGroup && trace == []
    {
      this.producerGroup := producerGroup;
      trace := [];
    }

    /** `processMqProducerStoreJoinPoint`. Without a message argument it
        throws TPC10050005 and calls nothing. Otherwise it stamps the first
        message argument, leaves every other argument alone, and makes the
        calls of `ProtocolTrace`. The business method shares the message
        object and leaves it as `left`, whether it returns or throws. */
    method ProcessMqProducerStoreJoinPoint<R>(
      annotation: MqProducerStore, args: seq<Arg>,
      saveOk: bool, business: Outcome<R>, left: Message, sendOk: bool)
      returns (r: Result<R, Failure>)
      modifies this
      modifies if FirstMessage(args).Some? then {args[FirstMessage(args).value].data} else {}
      ensures FirstMessage(args).None? ==>
        r == Err(TpcBizException(TPC10050005)) && trace == old(trace)
      ensures FirstMessage(args).Some? ==>
        var domain := args[FirstMessage(args).value].data;
        var stamped := Stamp(old(domain.Snapshot()), annotation, producerGroup);
        domain.Snapshot() == (if annotation.sendType == WaitConfirm && !saveOk then stamped else left) &&
        trace == old(trace) + ProtocolTrace(annotation.sendType, stamped, left, saveOk, business) &&
        r == ProtocolResult(annotation.sendType, saveOk, business, sendOk)
    {
      if |args| == 0 {
        return Err(TpcBizException(TPC10050005));
      }
      var found := FindMessage(args);
      if found.None? {
        return Err(TpcBizException(TPC10050005));
      }
      var domain := args[found.value].data;

      domain.orderType := annotation.orderType.Code();
      domain.producerGroup := producerGroup;
      if annotation.sendType == WaitConfirm {
        if annotation.delayLevel != ZERO {
          domain.delayLevel := annotation.delayLevel;
        }
        trace := trace + [SaveWaitConfirmMessage(domain.Snapshot())];
        if !saveOk {
          return Err(SaveWaitConfirmThrew);
        }
      }

      trace := trace + [Proceed];
      domain.messageKey, domain.orderType := left.messageKey, left.orderType;
      domain.producerGroup, domain.delayLevel := left.producerGroup, left.delayLevel;
      if business.Throws? {
        return Err(ProceedThrew);
      }

      if annotation.sendType == SaveAndSend {
        trace := trace + [SaveAndSendMessage(domain.Snapshot())];
        if !sendOk {
          return Err(SendThrew);
        }
      } else if annotation.sendType == DirectSend {
        trace := trace + [DirectSendMessage(domain.Snapshot())];
        if !sendOk {
          return Err(SendThrew);
        }
      } else {
        trace := trace + [ConfirmAndSendSubmitted(domain.messageKey)];
      }
      r := Ok(business.value);
    }
  }
}
