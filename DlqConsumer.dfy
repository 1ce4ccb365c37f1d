/** The listener on the dead-letter topic: it turns each delivery into a new stored row
    built from the record and its headers, and acknowledges only once the row is saved. */
module DlqConsumer {
  import opened Values
  import opened Decimal
  import opened Kafka
  import opened RetryHeaders
  import opened ErrorClassifier
  import opened RetryService
  import opened DlqMessage
  import opened DlqMessageRepository

  /** The stack-trace header's text, or empty text when it is missing or has no value. */
  function StacktraceOf(headers: seq<Header>): string {
    GetHeaderAsString(Some(headers), STACKTRACE).GetOr("")
  }

  /** The row `handleDlqMessage` builds, reading the headers in the listener's order;
      the first getter that throws ends the handling with its exception. */
  function DlqRecordFromHeaders(record: ConsumerRecord, now: int): (r: Result<DlqRecord>)
    ensures var hs := Some(record.headers);
      r.Err? <==> GetOriginalPartition(hs).Err? || GetOriginalOffset(hs).Err? ||
                  GetRetryCount(hs).Err? || GetFirstSeenTimestamp(hs, now).Err?
    ensures r.Ok? ==>
      && r.value.messageKey == record.key && r.value.messageValue == record.value
      && r.value.originalTopic == GetOriginalTopic(Some(record.headers))
      && r.value.lastError == GetLastError(Some(record.headers))
      && r.value.createdAt == now && r.value.requeuedCount == 0
      && r.value.requeuedBy.None? && r.value.requeuedAt.None?
  {
    var hs := Some(record.headers);
    var originalTopic := GetOriginalTopic(hs);
    match GetOriginalPartition(hs)
    case Err(e) => Err(e)
    case Ok(originalPartition) =>
      match GetOriginalOffset(hs)
      case Err(e) => Err(e)
      case Ok(originalOffset) =>
        match GetRetryCount(hs)
        case Err(e) => Err(e)
        case Ok(retryCount) =>
          match GetFirstSeenTimestamp(hs, now)
          case Err(e) => Err(e)
          case Ok(firstSeenTs) =>
            Ok(NewRecord(record.key, record.value, originalTopic, originalPartition, originalOffset,
                         retryCount, firstSeenTs, GetLastError(hs), StacktraceOf(record.headers), now))
  }

  /** A record without metadata headers is stored with every default: topic "unknown",
      partition and offset -1, count 0, first seen now, "Unknown error", empty trace. */
  lemma BareRecordGetsDefaults(record: ConsumerRecord, now: int)
    requires record.headers == []
    ensures DlqRecordFromHeaders(record, now) ==
      Ok(DlqRecord(record.key, record.value, "unknown", -1, -1, 0, now, "Unknown error", "", now, 0, None, None))
  {
  }

  /** The dead-letter record `sendToDlq` publishes is stored with its key and value, the
      count it carried (n + 1), the coordinates and first-seen time the router stamped,
      and the bounded error texts. */
  lemma DlqRouteIsStoredFaithfully(cfg: Config, key: string, value: string, n: int32, t: string, p: int32,
                                   o: int64, error: Failure, sentAt: int,
                                   topic: string, partition: int32, offset: int64, now: int)
    ensures var sent := DlqRoute(cfg, key, value, n, t, p, o, error, sentAt);
      DlqRecordFromHeaders(ConsumerRecord(topic, partition, offset, sent.key, sent.value, sent.headers), now) ==
      Ok(DlqRecord(key, value, t, p, o, WrapInc(n), sentAt,
                   TruncateString(error.message, LAST_ERROR_LIMIT),
                   TruncateString(Some(error.stackTrace), STACKTRACE_LIMIT), now, 0, None, None))
  {
    BaseHeadersRoundTrip(n, t, p, o, error, sentAt, now);
    BaseHeaderRead(FormatInt(WrapInc(n)), FormatInstant(sentAt), TruncateString(error.message, LAST_ERROR_LIMIT),
                   TruncateString(Some(error.stackTrace), STACKTRACE_LIMIT), t, FormatInt(p), FormatInt(o), STACKTRACE);
  }

  /** A present partition, offset or count header that does not parse, or a first-seen
      header that is not an instant, makes the handling fail. */
  lemma MalformedHeaderFails(record: ConsumerRecord, now: int, s: string)
    requires ParseInt32(s).Err? && ParseInt64(s).Err? && ParseInstant(s).Err?
    requires GetHeaderAsString(Some(record.headers), ORIGINAL_PARTITION) == Some(s) ||
             GetHeaderAsString(Some(record.headers), ORIGINAL_OFFSET) == Some(s) ||
             GetHeaderAsString(Some(record.headers), RETRY_COUNT) == Some(s) ||
             GetHeaderAsString(Some(record.headers), FIRST_SEEN_TS) == Some(s)
    ensures DlqRecordFromHeaders(record, now).Err?
  {
  }

  /** The listener bean and the store it saves into. */
  class DlqConsumer {
    const dlqMessageRepository: DlqMessageRepository

    constructor (dlqMessageRepository: DlqMessageRepository)
      ensures this.dlqMessageRepository == dlqMessageRepository
    {
      this.dlqMessageRepository := dlqMessageRepository;
    }

    /** `handleDlqMessage`. `saveOk` is whether `save` returns normally; a failed save
        changes nothing. Every successful delivery adds a new row under a new id, even
        for a key already stored. */
    method HandleDlqMessage(record: ConsumerRecord, acknowledgment: Acknowledgment, saveOk: bool, now: int)
      requires dlqMessageRepository.Valid()
      modifies dlqMessageRepository, acknowledgment
      ensures dlqMessageRepository.Valid()
      ensures var built := DlqRecordFromHeaders(record, now);
        if built.Ok? && saveOk then
          && old(dlqMessageRepository.nextId) !in old(dlqMessageRepository.rows)
          && dlqMessageRepository.rows == old(dlqMessageRepository.rows)[old(dlqMessageRepository.nextId) := built.value]
          && dlqMessageRepository.nextId == old(dlqMessageRepository.nextId) + 1
          && acknowledgment.count == old(acknowledgment.count) + 1
        else
          && dlqMessageRepository.rows == old(dlqMessageRepository.rows)
          && dlqMessageRepository.nextId == old(dlqMessageRepository.nextId)
          && acknowledgment.count == old(acknowledgment.count)
    {
      var hs := Some(record.headers);
      var originalTopic := GetOriginalTopic(hs);
      var originalPartition := GetOriginalPartition(hs);
      if originalPartition.Err? { return; }
      var originalOffset := GetOriginalOffset(hs);
      if originalOffset.Err? { return; }
      var retryCount := GetRetryCount(hs);
      if retryCount.Err? { return; }
      var firstSeenTs := GetFirstSeenTimestamp(hs, now);
      if firstSeenTs.Err? { return; }
      var lastError := GetLastError(hs);
      var stacktrace := StacktraceOf(record.headers);
      var dlqMessage := new DlqMessage(record.key, record.value, originalTopic, originalPartition.value,
                                       originalOffset.value, retryCount.value, firstSeenTs.value,
                                       lastError, stacktrace, now);
      if !saveOk { return; }
      dlqMessageRepository.Save(dlqMessage);
      acknowledgment.Acknowledge();
    }
  }
}
