/** The listeners on the three retry tiers: a record that is not yet due is left
    unacknowledged for redelivery; a due record is processed again and, on failure, takes
    the same catch block as the main listener, with this retry record's own coordinates. */
module RetryConsumer {
  import opened Values
  import opened Kafka
  import opened RetryHeaders
  import opened ErrorClassifier
  import opened RetryService
  import opened OrderConsumer

  /** The due-time gate: a `x-next-at` that does not parse throws out of the listener, a
      due time later than `now` skips the record, and anything else lets it through. */
  function DueGate(record: ConsumerRecord, now: int): (r: Result<bool>)
    ensures r.Err? <==> GetNextAt(Some(record.headers)).Err?
    ensures r == Ok(false) <==>
      GetNextAt(Some(record.headers)).Ok? && GetNextAt(Some(record.headers)).value.Some? &&
      now < GetNextAt(Some(record.headers)).value.value
  {
    match GetNextAt(Some(record.headers))
    case Err(err) => Err(err)
    case Ok(nextAt) => Ok(nextAt.None? || !(now < nextAt.value))
  }

  /** `handleRetryMessage`: the gate, then (the tier's sleep being a no-op here) the same
      handling as the main listener. */
  function RetryHandling(cfg: Config, maxAttempts: int32, record: ConsumerRecord, attempt: Attempt,
                         publishOk: bool, now: int): (h: Handling)
    ensures DueGate(record, now) == Ok(false) ==> h == Handling([], false, None)
    ensures DueGate(record, now).Err? ==> h.published == [] && !h.acked && h.escaped.Some?
    ensures |h.published| <= 1
    ensures h.acked ==> DueGate(record, now) == Ok(true) && h.escaped.None?
  {
    match DueGate(record, now)
    case Err(err) => Handling([], false, Some(err))
    case Ok(due) =>
      if !due then Handling([], false, None)
      else OrderHandling(cfg, maxAttempts, record, attempt, publishOk, now)
  }

  /** A record whose due time is still ahead is neither processed, published nor
      acknowledged: the effect is the same whatever processing would have done. */
  lemma NotYetDueIsSkipped(cfg: Config, maxAttempts: int32, record: ConsumerRecord, attempt: Attempt,
                           other: Attempt, publishOk: bool, now: int, nextAt: int)
    requires GetNextAt(Some(record.headers)) == Ok(Some(nextAt)) && now < nextAt
    ensures RetryHandling(cfg, maxAttempts, record, attempt, publishOk, now) == Handling([], false, None)
    ensures RetryHandling(cfg, maxAttempts, record, attempt, publishOk, now) ==
            RetryHandling(cfg, maxAttempts, record, other, true, now)
  {
  }

  /** With no due time, or one already reached, the record is handled exactly as the main
      listener would handle it: processing success acknowledges, failure is routed. */
  lemma DueIsHandledLikeMain(cfg: Config, maxAttempts: int32, record: ConsumerRecord, attempt: Attempt,
                             publishOk: bool, now: int)
    requires GetNextAt(Some(record.headers)).Ok?
    requires var n := GetNextAt(Some(record.headers)).value; n.None? || n.value <= now
    ensures RetryHandling(cfg, maxAttempts, record, attempt, publishOk, now) ==
            OrderHandling(cfg, maxAttempts, record, attempt, publishOk, now)
  {
  }

  /** A due time that does not parse escapes before processing: nothing is published or
      acknowledged. */
  lemma MalformedDueTimeEscapes(cfg: Config, maxAttempts: int32, record: ConsumerRecord, attempt: Attempt,
                                publishOk: bool, now: int, s: string)
    requires GetHeaderAsString(Some(record.headers), NEXT_AT) == Some(s) && ParseInstant(s).Err?
    ensures RetryHandling(cfg, maxAttempts, record, attempt, publishOk, now) ==
            Handling([], false, Some(DateTimeParseException(s)))
  {
  }

  /** Acknowledgement on every path of `handleRetryMessage`: acknowledged exactly when the
      record was due and either processed or its one failure record published
      successfully. */
  lemma RetryAckDiscipline(cfg: Config, maxAttempts: int32, record: ConsumerRecord, attempt: Attempt,
                           publishOk: bool, now: int)
    ensures var h := RetryHandling(cfg, maxAttempts, record, attempt, publishOk, now);
      && |h.published| <= 1
      && (h.acked <==> DueGate(record, now) == Ok(true) &&
                       (Thrown(attempt).None? || (|h.published| == 1 && publishOk)))
      && (h.escaped.Some? ==> !h.acked && h.published == [])
  {
    OrderAckDiscipline(cfg, maxAttempts, record, attempt, publishOk, now);
  }

  /** A record the router sent to a tier, delivered at `now`, passes the gate exactly
      when it carries no due time (no tier follows its count) or that due time, the send
      instant plus the tier's delay, has been reached. */
  lemma RoutedRetryDueGate(cfg: Config, key: string, value: string, n: int32, t: string, p: int32, o: int64,
                           error: Failure, sentAt: int, topic: string, partition: int32, offset: int64, now: int)
    requires GetNextRetryTopic(cfg, n).Some?
    ensures var sent := RetryRoute(cfg, key, value, n, t, p, o, error, sentAt);
      DueGate(ConsumerRecord(topic, partition, offset, sent.key, sent.value, sent.headers), now) ==
      Ok(GetNextRetryTopic(cfg, WrapInc(n)).None? || sentAt + TierDelay(WrapInc(n)) <= now)
  {
    RetryHeadersNextAt(cfg, n, t, p, o, error, sentAt);
  }

  /** A 5s-tier record (count 1) that is due and fails again transiently is published one
      rung further up, to the 30s tier, with its count raised to 2. The coordinates it
      carries are those of the retry record itself, not the first delivery's. */
  lemma RetryClimbsLadder(cfg: Config, retryRecord: ConsumerRecord, e: Failure, publishOk: bool, now: int)
    requires GetRetryCount(Some(retryRecord.headers)) == Ok(1)
    requires DueGate(retryRecord, now) == Ok(true)
    requires ClassifyError(Some(e)) == Transient && cfg.maxAttempts == 3
    ensures var h := RetryHandling(cfg, cfg.maxAttempts, retryRecord, Attempt(None, Some(e)), publishOk, now);
      && |h.published| == 1 && h.acked == publishOk
      && h.published[0].topic == cfg.retry30sTopic
      && GetRetryCount(Some(h.published[0].headers)) == Ok(2)
      && GetOriginalTopic(Some(h.published[0].headers)) == retryRecord.topic
      && GetOriginalPartition(Some(h.published[0].headers)) == Ok(retryRecord.partition)
      && GetOriginalOffset(Some(h.published[0].headers)) == Ok(retryRecord.offset)
  {
    FailureClimbsLadder(cfg, retryRecord, e, publishOk, now, 1);
    RetryHeadersRoundTrip(cfg, 1, retryRecord.topic, retryRecord.partition, retryRecord.offset, e, now, now);
  }

  /** End to end: a first failure routed to the 5s tier at `sentAt`, delivered there once
      its five seconds have passed and failing transiently again, is published to the 30s
      tier with count 2. */
  lemma FiveSecondRecordClimbsWhenDue(cfg: Config, key: string, value: string, t: string, p: int32, o: int64,
                                      first: Failure, sentAt: int, partition: int32, offset: int64,
                                      e: Failure, publishOk: bool, now: int)
    requires cfg.maxAttempts == 3 && ClassifyError(Some(e)) == Transient && sentAt + 5 <= now
    ensures var sent := RetryRoute(cfg, key, value, 0, t, p, o, first, sentAt);
      var delivered := ConsumerRecord(sent.topic, partition, offset, sent.key, sent.value, sent.headers);
      var h := RetryHandling(cfg, cfg.maxAttempts, delivered, Attempt(None, Some(e)), publishOk, now);
      && sent.topic == cfg.retry5sTopic
      && |h.published| == 1 && h.acked == publishOk
      && h.published[0].topic == cfg.retry30sTopic
      && GetRetryCount(Some(h.published[0].headers)) == Ok(2)
  {
    var sent := RetryRoute(cfg, key, value, 0, t, p, o, first, sentAt);
    var delivered := ConsumerRecord(sent.topic, partition, offset, sent.key, sent.value, sent.headers);
    RoutedRetryDueGate(cfg, key, value, 0, t, p, o, first, sentAt, sent.topic, partition, offset, now);
    RetryHeadersRoundTrip(cfg, 0, t, p, o, first, sentAt, now);
    RetryClimbsLadder(cfg, delivered, e, publishOk, now);
  }

  /** The retry listener bean; `maxAttempts` is `retry.max-attempts`. */
  class RetryConsumer {
    const retryService: RetryService
    const maxAttempts: int32

    constructor (retryService: RetryService, maxAttempts: int32)
      ensures this.retryService == retryService && this.maxAttempts == maxAttempts
    {
      this.retryService := retryService;
      this.maxAttempts := maxAttempts;
    }

    /** `handleRetry5s`. */
    method HandleRetry5s(record: ConsumerRecord, acknowledgment: Acknowledgment, attempt: Attempt,
                         publishOk: bool, now: int) returns (escaped: Option<ParseError>)
      modifies acknowledgment, retryService.kafkaTemplate
      ensures var h := RetryHandling(retryService.config, maxAttempts, record, attempt, publishOk, now);
        && retryService.kafkaTemplate.sent == old(retryService.kafkaTemplate.sent) + h.published
        && acknowledgment.count == old(acknowledgment.count) + (if h.acked then 1 else 0)
        && escaped == h.escaped
    {
      escaped := HandleRetryMessage(record, acknowledgment, attempt, publishOk, now, "5s");
    }

    /** `handleRetry30s`. */
    method HandleRetry30s(record: ConsumerRecord, acknowledgment: Acknowledgment, attempt: Attempt,
                          publishOk: bool, now: int) returns (escaped: Option<ParseError>)
      modifies acknowledgment, retryService.kafkaTemplate
      ensures var h := RetryHandling(retryService.config, maxAttempts, record, attempt, publishOk, now);
        && retryService.kafkaTemplate.sent == old(retryService.kafkaTemplate.sent) + h.published
        && acknowledgment.count == old(acknowledgment.count) + (if h.acked then 1 else 0)
        && escaped == h.escaped
    {
      escaped := HandleRetryMessage(record, acknowledgment, attempt, publishOk, now, "30s");
    }

    /** `handleRetry5m`. */
    method HandleRetry5m(record: ConsumerRecord, acknowledgment: Acknowledgment, attempt: Attempt,
                         publishOk: bool, now: int) returns (escaped: Option<ParseError>)
      modifies acknowledgment, retryService.kafkaTemplate
      ensures var h := RetryHandling(retryService.config, maxAttempts, record, attempt, publishOk, now);
        && retryService.kafkaTemplate.sent == old(retryService.kafkaTemplate.sent) + h.published
        && acknowledgment.count == old(acknowledgment.count) + (if h.acked then 1 else 0)
        && escaped == h.escaped
    {
      escaped := HandleRetryMessage(record, acknowledgment, attempt, publishOk, now, "5m");
    }

    /** `handleRetryMessage`. The delay label only selects the length of the sleep, which
        is not modelled, so the effect does not depend on it. */
    method HandleRetryMessage(record: ConsumerRecord, acknowledgment: Acknowledgment, attempt: Attempt,
                              publishOk: bool, now: int, delayType: string) returns (escaped: Option<ParseError>)
      modifies acknowledgment, retryService.kafkaTemplate
      ensures var h := RetryHandling(retryService.config, maxAttempts, record, attempt, publishOk, now);
        && retryService.kafkaTemplate.sent == old(retryService.kafkaTemplate.sent) + h.published
        && acknowledgment.count == old(acknowledgment.count) + (if h.acked then 1 else 0)
        && escaped == h.escaped
    {
      var nextAt := GetNextAt(Some(record.headers));
      if nextAt.Err? {
        return Some(nextAt.error);
      }
      if nextAt.value.Some? && now < nextAt.value.value {
        return None;
      }
      var thrown := Thrown(attempt);
      if thrown.None? {
        acknowledgment.Acknowledge();
        return None;
      }
      var e := thrown.value;
      var currentRetryCount := GetRetryCount(Some(record.headers));
      if currentRetryCount.Err? {
        return Some(currentRetryCount.error);
      }
      if ShouldRetry(Some(e), currentRetryCount.value, maxAttempts) {
        retryService.SendToRetry(record.key, record.value, currentRetryCount.value,
                                 record.topic, record.partition, record.offset, e, now);
      } else {
        retryService.SendToDlq(record.key, record.value, currentRetryCount.value,
                               record.topic, record.partition, record.offset, e, now);
      }
      if publishOk {
        acknowledgment.Acknowledge();
      }
      escaped := None;
    }
  }
}
