/** The listener on the main topic: process the order, and on failure hand the record to
    the next retry tier or to the dead-letter topic, acknowledging only once that publish
    has succeeded. Processing, the JSON read and the publish outcome are inputs: the model
    decides only what the listener does with them. */
module OrderConsumer {
  import opened Values
  import opened Decimal
  import opened Kafka
  import opened RetryHeaders
  import opened ErrorClassifier
  import opened RetryService

  /** What the try block of one delivery ran into: the JSON read of the value, then
      `processOrder`, which is reached only when the read succeeded. `None` means the step
      returned normally. */
  datatype Attempt = Attempt(parseError: Option<Failure>, processError: Option<Failure>)

  /** The exception the try block throws, if any: the read's, else the processing's. */
  function Thrown(a: Attempt): Option<Failure> {
    if a.parseError.Some? then a.parseError else a.processError
  }

  /** The observable effect of one delivery: the records handed to the producer, whether
      the delivery was acknowledged, and the exception that escaped the listener, if any. */
  datatype Handling = Handling(published: seq<ProducerRecord>, acked: bool, escaped: Option<ParseError>)

  /** The catch block the order and retry listeners share: read the count from the inbound
      headers, route with `shouldRetry`, and acknowledge in the publish callback only when
      the publish succeeded. A count header that does not parse throws out of the catch
      block before anything is published. */
  function FailureHandling(cfg: Config, maxAttempts: int32, record: ConsumerRecord, e: Failure,
                           publishOk: bool, now: int): (h: Handling)
    ensures h.escaped.Some? <==> GetRetryCount(Some(record.headers)).Err?
    ensures h.escaped.Some? ==> h.published == [] && !h.acked
    ensures h.escaped.None? ==> |h.published| == 1 && h.acked == publishOk
    ensures h.escaped.None? ==> h.published[0].key == record.key && h.published[0].value == record.value
  {
    match GetRetryCount(Some(record.headers))
    case Err(err) => Handling([], false, Some(err))
    case Ok(count) =>
      var r :=
        if ShouldRetry(Some(e), count, maxAttempts)
        then RetryRoute(cfg, record.key, record.value, count, record.topic, record.partition, record.offset, e, now)
        else DlqRoute(cfg, record.key, record.value, count, record.topic, record.partition, record.offset, e, now);
      Handling([r], publishOk, None)
  }

  /** `handleOrderEvent`: success acknowledges at once; any exception takes the failure path. */
  function OrderHandling(cfg: Config, maxAttempts: int32, record: ConsumerRecord, attempt: Attempt,
                         publishOk: bool, now: int): (h: Handling)
    ensures |h.published| <= 1
    ensures Thrown(attempt).None? ==> h == Handling([], true, None)
    ensures h.acked ==> h.escaped.None?
    ensures Thrown(attempt).Some? ==> !h.acked || (publishOk && |h.published| == 1)
  {
    match Thrown(attempt)
    case None => Handling([], true, None)
    case Some(e) => FailureHandling(cfg, maxAttempts, record, e, publishOk, now)
  }

  /** A processed order is acknowledged and nothing is published. */
  lemma SuccessAcknowledgesOnly(cfg: Config, maxAttempts: int32, record: ConsumerRecord, attempt: Attempt,
                                publishOk: bool, now: int)
    requires attempt.parseError.None? && attempt.processError.None?
    ensures OrderHandling(cfg, maxAttempts, record, attempt, publishOk, now) == Handling([], true, None)
  {
  }

  /** A failed JSON read and a failed `processOrder` throwing the same exception have the
      same effect. */
  lemma ParseAndProcessFailuresAlike(cfg: Config, maxAttempts: int32, record: ConsumerRecord, e: Failure,
                                     later: Option<Failure>, publishOk: bool, now: int)
    ensures OrderHandling(cfg, maxAttempts, record, Attempt(Some(e), later), publishOk, now) ==
            OrderHandling(cfg, maxAttempts, record, Attempt(None, Some(e)), publishOk, now)
  {
  }

  /** On failure exactly one record is published: the retry route when `shouldRetry` holds
      for the header count, the dead-letter route otherwise, both given the record's own
      key, value, topic, partition and offset. */
  lemma FailureRoutesExactlyOnce(cfg: Config, maxAttempts: int32, record: ConsumerRecord, e: Failure,
                                 publishOk: bool, now: int, count: int32)
    requires GetRetryCount(Some(record.headers)) == Ok(count)
    ensures var h := FailureHandling(cfg, maxAttempts, record, e, publishOk, now);
      && h.escaped == None
      && h.published == [
           if ShouldRetry(Some(e), count, maxAttempts)
           then RetryRoute(cfg, record.key, record.value, count, record.topic, record.partition, record.offset, e, now)
           else DlqRoute(cfg, record.key, record.value, count, record.topic, record.partition, record.offset, e, now)]
      && h.acked == publishOk
  {
  }

  /** A count header that does not parse escapes the listener: no publish, no ack. */
  lemma MalformedCountEscapes(cfg: Config, maxAttempts: int32, record: ConsumerRecord, e: Failure,
                              publishOk: bool, now: int, s: string)
    requires GetHeaderAsString(Some(record.headers), RETRY_COUNT) == Some(s) && ParseInt32(s).Err?
    ensures FailureHandling(cfg, maxAttempts, record, e, publishOk, now) ==
            Handling([], false, Some(NumberFormatException(s)))
  {
  }

  /** Acknowledgement on every path of `handleOrderEvent`: a delivery is acknowledged
      exactly when it was processed, or when its one failure record was published
      successfully; an escaped exception is never acknowledged. */
  lemma OrderAckDiscipline(cfg: Config, maxAttempts: int32, record: ConsumerRecord, attempt: Attempt,
                           publishOk: bool, now: int)
    ensures var h := OrderHandling(cfg, maxAttempts, record, attempt, publishOk, now);
      && |h.published| <= 1
      && (h.acked <==> Thrown(attempt).None? || (|h.published| == 1 && publishOk))
      && (h.escaped.Some? ==> !h.acked && h.published == [])
      && (Thrown(attempt).None? <==> h.published == [] && h.escaped.None?)
  {
  }

  /** With the router configured like the consumer, a transient failure of a message
      that has failed `count` times so far, with 0 <= `count` <= 2 and `count` below
      `maxAttempts`, climbs one rung of the ladder: it is published to the tier for
      `count` carrying count + 1. A permanent failure, or any other count (a negative
      one read from the header included, although `shouldRetry` accepts it), goes to
      the dead-letter topic. */
  lemma FailureClimbsLadder(cfg: Config, record: ConsumerRecord, e: Failure, publishOk: bool, now: int, count: int32)
    requires GetRetryCount(Some(record.headers)) == Ok(count)
    ensures var h := FailureHandling(cfg, cfg.maxAttempts, record, e, publishOk, now);
      && |h.published| == 1
      && (ClassifyError(Some(e)) == Transient && 0 <= count <= 2 && count < cfg.maxAttempts ==>
            h.published[0].topic == GetNextRetryTopic(cfg, count).value
            && GetRetryCount(Some(h.published[0].headers)) == Ok(count + 1))
      && (ClassifyError(Some(e)) == Permanent || count < 0 || count >= cfg.maxAttempts || count > 2 ==>
            h.published[0].topic == cfg.dlqTopic
            && GetRetryCount(Some(h.published[0].headers)) == Ok(WrapInc(count)))
  {
    var h := FailureHandling(cfg, cfg.maxAttempts, record, e, publishOk, now);
    var p := h.published[0];
    if ShouldRetry(Some(e), count, cfg.maxAttempts) && GetNextRetryTopic(cfg, count).Some? {
      assert p.headers == RetryHeaderList(cfg, count, record.topic, record.partition, record.offset, e, now);
      RetryHeadersRoundTrip(cfg, count, record.topic, record.partition, record.offset, e, now, now);
    } else {
      assert p == DlqRoute(cfg, record.key, record.value, count, record.topic, record.partition, record.offset, e, now);
      BaseHeadersRoundTrip(count, record.topic, record.partition, record.offset, e, now, now);
    }
  }

  /** The listener bean; `maxAttempts` is `retry.max-attempts`. */
  class OrderConsumer {
    const retryService: RetryService
    const maxAttempts: int32

    constructor (retryService: RetryService, maxAttempts: int32)
      ensures this.retryService == retryService && this.maxAttempts == maxAttempts
    {
      this.retryService := retryService;
      this.maxAttempts := maxAttempts;
    }

    /** `handleOrderEvent`. The listener's topic, partition and offset arguments are the
        record's own coordinates. `publishOk` is how the asynchronous send completes; the
        callback's acknowledgement is taken to have run before the handler returns. */
    method HandleOrderEvent(record: ConsumerRecord, acknowledgment: Acknowledgment, attempt: Attempt,
                            publishOk: bool, now: int) returns (escaped: Option<ParseError>)
      modifies acknowledgment, retryService.kafkaTemplate
      ensures var h := OrderHandling(retryService.config, maxAttempts, record, attempt, publishOk, now);
        && retryService.kafkaTemplate.sent == old(retryService.kafkaTemplate.sent) + h.published
        && acknowledgment.count == old(acknowledgment.count) + (if h.acked then 1 else 0)
        && escaped == h.escaped
    {
      var thrown := Thrown(attempt);
      if thrown.None? {
        acknowledgment.Acknowledge();
        return None;
      }
      var e := thrown.value;
      var currentRetryCount := GetRetryCount(Some(record.headers));
      if currentRetryCount.Err? {
        return Some(currentRetryCount.error);
      }
      if ShouldRetry(Some(e), currentRetryCount.value, maxAttempts) {
        retryService.SendToRetry(record.key, record.value, currentRetryCount.value,
                                 record.topic, record.partition, record.offset, e, now);
      } else {
        retryService.SendToDlq(record.key, record.value, currentRetryCount.value,
                               record.topic, record.partition, record.offset, e, now);
      }
      if publishOk {
        acknowledgment.Acknowledge();
      }
      escaped := None;
    }
  }
}
