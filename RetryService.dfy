/** The escalation ladder and the outgoing metadata: which tier a failed message goes to
    next, what headers it carries there, and the records published for retry, for the
    dead-letter topic and for an operator's requeue. */
module RetryService {
  import opened Values
  import opened Decimal
  import opened Kafka
  import opened RetryHeaders
  import opened ErrorClassifier

  /** Topic names and `retry.max-attempts`, all external configuration. */
  datatype Config = Config(
    mainTopic: string,
    retry5sTopic: string,
    retry30sTopic: string,
    retry5mTopic: string,
    dlqTopic: string,
    maxAttempts: int32)

  /** The keys of the headers every failed attempt carries, in the order they are added. */
  const BASE_KEYS: seq<string> :=
    [RETRY_COUNT, FIRST_SEEN_TS, LAST_ERROR, STACKTRACE, ORIGINAL_TOPIC, ORIGINAL_PARTITION, ORIGINAL_OFFSET]

  /** Bounds applied to the last error and to the stack trace. */
  const LAST_ERROR_LIMIT: nat := 500
  const STACKTRACE_LIMIT: nat := 1000

  /** `getNextRetryTopic`: the tier for a message that has failed `currentRetryCount`
      times, or `None` for the dead-letter topic. */
  function GetNextRetryTopic(cfg: Config, currentRetryCount: int32): (r: Option<string>)
    ensures r.Some? <==> 0 <= currentRetryCount <= 2 && currentRetryCount < cfg.maxAttempts
    ensures r.Some? ==> r.value == [cfg.retry5sTopic, cfg.retry30sTopic, cfg.retry5mTopic][currentRetryCount]
  {
    if currentRetryCount >= cfg.maxAttempts then None
    else if currentRetryCount == 0 then Some(cfg.retry5sTopic)
    else if currentRetryCount == 1 then Some(cfg.retry30sTopic)
    else if currentRetryCount == 2 then Some(cfg.retry5mTopic)
    else None
  }

  /** Nominal delay, in seconds, of the tier entered on the `retryCount`-th attempt. */
  function TierDelay(retryCount: int32): nat {
    if retryCount == 1 then 5
    else if retryCount == 2 then 30
    else if retryCount == 3 then 300
    else 0
  }

  /** `calculateNextRetryTime`: `now` plus the tier delay (seconds). */
  function CalculateNextRetryTime(now: int, retryCount: int32): (r: int)
    ensures now <= r <= now + 300
    ensures 1 <= retryCount <= 3 <==> now < r
  {
    now + TierDelay(retryCount)
  }

  /** `truncateString`: null becomes empty; longer text keeps its first `maxLength`
      characters followed by "...". */
  function TruncateString(str: Option<string>, maxLength: nat): (r: string)
    ensures str.None? ==> r == ""
    ensures str.Some? && |str.value| <= maxLength ==> r == str.value
    ensures str.Some? && |str.value| > maxLength ==>
              |r| == maxLength + 3 && r[..maxLength] == str.value[..maxLength] && r[maxLength..] == "..."
    ensures |r| <= maxLength + 3
  {
    match str
    case None => ""
    case Some(s) => if |s| > maxLength then s[..maxLength] + "..." else s
  }

  /** The seven headers `createRetryHeaders` and `createDlqHeaders` both add, in this
      order, given their texts. */
  function BaseHeaders(count: string, firstSeen: string, lastError: string, stackTrace: string,
                       topic: string, partition: string, offset: string): (r: seq<Header>)
    ensures Keys(r) == BASE_KEYS
  {
    var h1 := WithHeader([], RETRY_COUNT, count);
    var h2 := WithHeader(h1, FIRST_SEEN_TS, firstSeen);
    var h3 := WithHeader(h2, LAST_ERROR, lastError);
    var h4 := WithHeader(h3, STACKTRACE, stackTrace);
    var h5 := WithHeader(h4, ORIGINAL_TOPIC, topic);
    var h6 := WithHeader(h5, ORIGINAL_PARTITION, partition);
    WithHeader(h6, ORIGINAL_OFFSET, offset)
  }

  /** The base headers of one failed attempt: count + 1, first seen now, the bounded error
      texts and the given coordinates. */
  function BaseHeaderList(retryCount: int32, originalTopic: string, originalPartition: int32,
                          originalOffset: int64, error: Failure, now: int): seq<Header>
  {
    BaseHeaders(FormatInt(WrapInc(retryCount)), FormatInstant(now),
                TruncateString(error.message, LAST_ERROR_LIMIT),
                TruncateString(Some(error.stackTrace), STACKTRACE_LIMIT),
                originalTopic, FormatInt(originalPartition), FormatInt(originalOffset))
  }

  /** The headers of `createRetryHeaders`: the base headers, then `x-next-at` when
      `getNextRetryTopic(retryCount + 1)` names a tier. */
  function RetryHeaderList(cfg: Config, retryCount: int32, originalTopic: string, originalPartition: int32,
                           originalOffset: int64, error: Failure, now: int): (r: seq<Header>)
    ensures var dlq := DlqHeaderList(retryCount, originalTopic, originalPartition, originalOffset, error, now);
      |dlq| <= |r| && r[..|dlq|] == dlq
    ensures Keys(r) == if GetNextRetryTopic(cfg, WrapInc(retryCount)).Some? then BASE_KEYS + [NEXT_AT] else BASE_KEYS
  {
    var base := BaseHeaderList(retryCount, originalTopic, originalPartition, originalOffset, error, now);
    var next := WrapInc(retryCount);
    if GetNextRetryTopic(cfg, next).Some? then WithHeader(base, NEXT_AT, FormatInstant(CalculateNextRetryTime(now, next)))
    else base
  }

  /** The headers of `createDlqHeaders`. */
  function DlqHeaderList(retryCount: int32, originalTopic: string, originalPartition: int32,
                         originalOffset: int64, error: Failure, now: int): (r: seq<Header>)
    ensures Keys(r) == BASE_KEYS
  {
    BaseHeaderList(retryCount, originalTopic, originalPartition, originalOffset, error, now)
  }

  /** The four headers `requeueFromDlq` adds, in this order, given their texts. */
  function RequeueHeaders(count: string, firstSeen: string, requeuedBy: string, maxRequeues: string): seq<Header> {
    var h1 := WithHeader([], RETRY_COUNT, count);
    var h2 := WithHeader(h1, FIRST_SEEN_TS, firstSeen);
    var h3 := WithHeader(h2, REQUEUED_BY, requeuedBy);
    WithHeader(h3, MAX_REQUEUES, maxRequeues)
  }

  /** The headers of `requeueFromDlq`. */
  function RequeueHeaderList(requeuedBy: string, now: int): (r: seq<Header>)
    ensures Keys(r) == [RETRY_COUNT, FIRST_SEEN_TS, REQUEUED_BY, MAX_REQUEUES]
  {
    RequeueHeaders("0", FormatInstant(now), requeuedBy, "3")
  }

  /** The record `sendToDlq` publishes. */
  function DlqRoute(cfg: Config, key: string, value: string, currentRetryCount: int32, originalTopic: string,
                    originalPartition: int32, originalOffset: int64, error: Failure, now: int): (r: ProducerRecord)
    ensures r.topic == cfg.dlqTopic && r.key == key && r.value == value && Keys(r.headers) == BASE_KEYS
  {
    ProducerRecord(cfg.dlqTopic, key, value,
                   DlqHeaderList(currentRetryCount, originalTopic, originalPartition, originalOffset, error, now))
  }

  /** The record `sendToRetry` publishes: to the next tier, or the dead-letter record when
      there is none. */
  function RetryRoute(cfg: Config, key: string, value: string, currentRetryCount: int32, originalTopic: string,
                      originalPartition: int32, originalOffset: int64, error: Failure, now: int): (r: ProducerRecord)
    ensures r.key == key && r.value == value
    ensures r.topic == GetNextRetryTopic(cfg, currentRetryCount).GetOr(cfg.dlqTopic)
    ensures GetNextRetryTopic(cfg, currentRetryCount).None? ==>
      r == DlqRoute(cfg, key, value, currentRetryCount, originalTopic, originalPartition, originalOffset, error, now)
  {
    match GetNextRetryTopic(cfg, currentRetryCount)
    case None => DlqRoute(cfg, key, value, currentRetryCount, originalTopic, originalPartition, originalOffset, error, now)
    case Some(t) =>
      ProducerRecord(t, key, value,
                     RetryHeaderList(cfg, currentRetryCount, originalTopic, originalPartition, originalOffset, error, now))
  }

  /** The record `requeueFromDlq` publishes. */
  function RequeueRoute(cfg: Config, key: string, value: string, requeuedBy: string, now: int): (r: ProducerRecord)
    ensures r.topic == cfg.mainTopic && r.key == key && r.value == value
    ensures Keys(r.headers) == [RETRY_COUNT, FIRST_SEEN_TS, REQUEUED_BY, MAX_REQUEUES]
  {
    ProducerRecord(cfg.mainTopic, key, value, RequeueHeaderList(requeuedBy, now))
  }

  /** At or beyond `maxAttempts` there is no further tier. */
  lemma NoTierAtOrBeyondMax(cfg: Config, c: int32)
    requires c >= cfg.maxAttempts
    ensures GetNextRetryTopic(cfg, c) == None
  {
  }

  /** Below `maxAttempts` the ladder is 0 -> 5s, 1 -> 30s, 2 -> 5m, and nothing else. */
  lemma LadderBelowMax(cfg: Config, c: int32)
    requires c < cfg.maxAttempts
    ensures c == 0 ==> GetNextRetryTopic(cfg, c) == Some(cfg.retry5sTopic)
    ensures c == 1 ==> GetNextRetryTopic(cfg, c) == Some(cfg.retry30sTopic)
    ensures c == 2 ==> GetNextRetryTopic(cfg, c) == Some(cfg.retry5mTopic)
    ensures (c < 0 || c > 2) ==> GetNextRetryTopic(cfg, c) == None
  {
  }

  /** Tier delays never shrink along the ladder: 5s, 30s, 5m. */
  lemma TierDelaysNonDecreasing(a: int32, b: int32)
    requires 1 <= a <= b <= 3
    ensures TierDelay(a) <= TierDelay(b)
    ensures TierDelay(1) == 5 && TierDelay(2) == 30 && TierDelay(3) == 300
  {
  }

  /** `sendToRetry` publishes to the dead-letter topic exactly when no tier is left, and
      otherwise to the tier the ladder names. */
  lemma RetryRouteDestination(cfg: Config, key: string, value: string, n: int32, t: string, p: int32, o: int64,
                              error: Failure, now: int)
    ensures GetNextRetryTopic(cfg, n).None? ==>
      RetryRoute(cfg, key, value, n, t, p, o, error, now) == DlqRoute(cfg, key, value, n, t, p, o, error, now)
    ensures GetNextRetryTopic(cfg, n).Some? ==>
      RetryRoute(cfg, key, value, n, t, p, o, error, now).topic == GetNextRetryTopic(cfg, n).value
    ensures RetryRoute(cfg, key, value, n, t, p, o, error, now).key == key
    ensures RetryRoute(cfg, key, value, n, t, p, o, error, now).value == value
  {
  }

  /** A fact about the key literals, not about the router: the keys the header lemmas
      tell apart are distinct, which the round-trip lemmas `BaseHeadersRoundTrip`,
      `RetryHeadersRoundTrip` and `RequeueHeadersRoundTrip` rely on. */
  lemma HeaderKeysDistinct()
    ensures LAST_ERROR != STACKTRACE
    ensures RETRY_COUNT != REQUEUED_BY
    ensures |RETRY_COUNT| == 13 && |FIRST_SEEN_TS| == 15 && |LAST_ERROR| == 12 && |STACKTRACE| == 12
    ensures |ORIGINAL_TOPIC| == 16 && |ORIGINAL_PARTITION| == 20 && |ORIGINAL_OFFSET| == 17
    ensures |NEXT_AT| == 9 && |REQUEUED_BY| == 13 && |MAX_REQUEUES| == 14
  {
    assert LAST_ERROR[2] != STACKTRACE[2];
    assert RETRY_COUNT[2] != REQUEUED_BY[3];
  }

  /** What any key of the base headers reads as: the text added last under that key. */
  lemma BaseHeaderRead(count: string, firstSeen: string, lastError: string, stackTrace: string,
                       topic: string, partition: string, offset: string, key: string)
    ensures GetHeaderAsString(Some(BaseHeaders(count, firstSeen, lastError, stackTrace, topic, partition, offset)), key) ==
      if key == ORIGINAL_OFFSET then Some(offset)
      else if key == ORIGINAL_PARTITION then Some(partition)
      else if key == ORIGINAL_TOPIC then Some(topic)
      else if key == STACKTRACE then Some(stackTrace)
      else if key == LAST_ERROR then Some(lastError)
      else if key == FIRST_SEEN_TS then Some(firstSeen)
      else if key == RETRY_COUNT then Some(count)
      else None
  {
  }

  /** Reading the base headers back gives the incremented count, the stamped first-seen
      time, the bounded error text and the coordinates exactly as given. */
  lemma BaseHeadersRoundTrip(n: int32, t: string, p: int32, o: int64, error: Failure, now: int, later: int)
    ensures var h := Some(BaseHeaderList(n, t, p, o, error, now));
      && GetRetryCount(h) == Ok(WrapInc(n))
      && GetFirstSeenTimestamp(h, later) == Ok(now)
      && GetLastError(h) == TruncateString(error.message, LAST_ERROR_LIMIT)
      && GetOriginalTopic(h) == t
      && GetOriginalPartition(h) == Ok(p)
      && GetOriginalOffset(h) == Ok(o)
      && GetNextAt(h) == Ok(None)
      && GetRequeuedBy(h) == None
      && GetMaxRequeues(h) == Ok(3)
  {
    HeaderKeysDistinct();
    var c, f, e, st := FormatInt(WrapInc(n)), FormatInstant(now), TruncateString(error.message, LAST_ERROR_LIMIT),
                       TruncateString(Some(error.stackTrace), STACKTRACE_LIMIT);
    BaseHeaderRead(c, f, e, st, t, FormatInt(p), FormatInt(o), RETRY_COUNT);
    BaseHeaderRead(c, f, e, st, t, FormatInt(p), FormatInt(o), FIRST_SEEN_TS);
    BaseHeaderRead(c, f, e, st, t, FormatInt(p), FormatInt(o), LAST_ERROR);
    BaseHeaderRead(c, f, e, st, t, FormatInt(p), FormatInt(o), ORIGINAL_TOPIC);
    BaseHeaderRead(c, f, e, st, t, FormatInt(p), FormatInt(o), ORIGINAL_PARTITION);
    BaseHeaderRead(c, f, e, st, t, FormatInt(p), FormatInt(o), ORIGINAL_OFFSET);
    BaseHeaderRead(c, f, e, st, t, FormatInt(p), FormatInt(o), NEXT_AT);
    BaseHeaderRead(c, f, e, st, t, FormatInt(p), FormatInt(o), REQUEUED_BY);
    BaseHeaderRead(c, f, e, st, t, FormatInt(p), FormatInt(o), MAX_REQUEUES);
    ParseFormatInt32(WrapInc(n));
    ParseFormatInt32(p);
    ParseFormatInt64(o);
    ParseFormatInstant(now);
  }

  /** The retry headers read like the base headers, except `x-next-at` when it is added. */
  lemma RetryHeaderRead(cfg: Config, n: int32, t: string, p: int32, o: int64, error: Failure, now: int, key: string)
    ensures GetHeaderAsString(Some(RetryHeaderList(cfg, n, t, p, o, error, now)), key) ==
      if key == NEXT_AT && GetNextRetryTopic(cfg, WrapInc(n)).Some?
      then Some(FormatInstant(CalculateNextRetryTime(now, WrapInc(n))))
      else GetHeaderAsString(Some(BaseHeaderList(n, t, p, o, error, now)), key)
  {
  }

  /** Adding a header leaves every other key reading as before. */
  lemma OtherKeyUnaffected(hs: seq<Header>, key: string, v: string, k: string)
    requires k != key
    ensures GetHeaderAsString(Some(WithHeader(hs, key, v)), k) == GetHeaderAsString(Some(hs), k)
  {
  }

  /** Adding `x-next-at` changes no other getter. */
  lemma NextAtHidesNothingElse(hs: seq<Header>, v: string, later: int)
    ensures var h, g := Some(WithHeader(hs, NEXT_AT, v)), Some(hs);
      && GetRetryCount(h) == GetRetryCount(g)
      && GetFirstSeenTimestamp(h, later) == GetFirstSeenTimestamp(g, later)
      && GetLastError(h) == GetLastError(g)
      && GetOriginalTopic(h) == GetOriginalTopic(g)
      && GetOriginalPartition(h) == GetOriginalPartition(g)
      && GetOriginalOffset(h) == GetOriginalOffset(g)
  {
    HeaderKeysDistinct();
    OtherKeyUnaffected(hs, NEXT_AT, v, RETRY_COUNT);
    OtherKeyUnaffected(hs, NEXT_AT, v, FIRST_SEEN_TS);
    OtherKeyUnaffected(hs, NEXT_AT, v, LAST_ERROR);
    OtherKeyUnaffected(hs, NEXT_AT, v, ORIGINAL_TOPIC);
    OtherKeyUnaffected(hs, NEXT_AT, v, ORIGINAL_PARTITION);
    OtherKeyUnaffected(hs, NEXT_AT, v, ORIGINAL_OFFSET);
  }

  /** Round trip through `createRetryHeaders`: the getters return n + 1 (wrapping as Java
      does) and the coordinates unchanged. */
  lemma RetryHeadersRoundTrip(cfg: Config, n: int32, t: string, p: int32, o: int64, error: Failure, now: int, later: int)
    ensures var h := Some(RetryHeaderList(cfg, n, t, p, o, error, now));
      && GetRetryCount(h) == Ok(WrapInc(n))
      && (n < INT32_MAX ==> GetRetryCount(h) == Ok(n + 1))
      && GetFirstSeenTimestamp(h, later) == Ok(now)
      && GetLastError(h) == TruncateString(error.message, LAST_ERROR_LIMIT)
      && GetOriginalTopic(h) == t
      && GetOriginalPartition(h) == Ok(p)
      && GetOriginalOffset(h) == Ok(o)
  {
    var base := BaseHeaderList(n, t, p, o, error, now);
    BaseHeadersRoundTrip(n, t, p, o, error, now, later);
    var next := WrapInc(n);
    if GetNextRetryTopic(cfg, next).Some? {
      NextAtHidesNothingElse(base, FormatInstant(CalculateNextRetryTime(now, next)), later);
    }
  }

  /** `x-next-at` is present exactly when the ladder has a tier for n + 1, and then holds
      now plus the delay `calculateNextRetryTime` gives for n + 1. */
  lemma RetryHeadersNextAt(cfg: Config, n: int32, t: string, p: int32, o: int64, error: Failure, now: int)
    ensures GetNextAt(Some(RetryHeaderList(cfg, n, t, p, o, error, now))) ==
      if GetNextRetryTopic(cfg, WrapInc(n)).Some? then Ok(Some(now + TierDelay(WrapInc(n)))) else Ok(None)
  {
    var h := Some(RetryHeaderList(cfg, n, t, p, o, error, now));
    RetryHeaderRead(cfg, n, t, p, o, error, now, NEXT_AT);
    HeaderKeysDistinct();
    BaseHeaderRead(FormatInt(WrapInc(n)), FormatInstant(now), TruncateString(error.message, LAST_ERROR_LIMIT),
                   TruncateString(Some(error.stackTrace), STACKTRACE_LIMIT), t, FormatInt(p), FormatInt(o), NEXT_AT);
    if GetNextRetryTopic(cfg, WrapInc(n)).Some? {
      var v := now + TierDelay(WrapInc(n));
      ParseFormatInstant(v);
      assert GetHeaderAsString(h, NEXT_AT) == Some(FormatInstant(v));
    } else {
      assert GetHeaderAsString(h, NEXT_AT) == None;
    }
  }

  /** Dead-letter headers never carry `x-next-at`. */
  lemma DlqHeadersHaveNoNextAt(n: int32, t: string, p: int32, o: int64, error: Failure, now: int)
    ensures var hs := DlqHeaderList(n, t, p, o, error, now);
      forall i :: 0 <= i < |hs| ==> hs[i].key != NEXT_AT
  {
    HeaderKeysDistinct();
    var hs := DlqHeaderList(n, t, p, o, error, now);
    assert |hs| == 7;
    assert hs[6].key == ORIGINAL_OFFSET;
    assert hs[..6][5].key == ORIGINAL_PARTITION;
    assert hs[..5][4].key == ORIGINAL_TOPIC;
    assert hs[..4][3].key == STACKTRACE;
    assert hs[..3][2].key == LAST_ERROR;
    assert hs[..2][1].key == FIRST_SEEN_TS;
    assert hs[..1][0].key == RETRY_COUNT;
  }

  /** As written, the hop into the last tier (retry count 2 becoming 3) never carries
      `x-next-at`: `getNextRetryTopic(3)` is always null, so the five-minute delay of
      `calculateNextRetryTime(3)` is never stamped on any retry record. */
  lemma LastTierHasNoDueTime(cfg: Config, n: int32, t: string, p: int32, o: int64, error: Failure, now: int)
    ensures GetNextAt(Some(RetryHeaderList(cfg, 2, t, p, o, error, now))) == Ok(None)
    ensures GetNextAt(Some(RetryHeaderList(cfg, n, t, p, o, error, now))) != Ok(Some(now + TierDelay(3)))
  {
    RetryHeadersNextAt(cfg, 2, t, p, o, error, now);
    RetryHeadersNextAt(cfg, n, t, p, o, error, now);
  }

  /** What any key of the requeue headers reads as. */
  lemma RequeueHeaderRead(count: string, firstSeen: string, requeuedBy: string, maxRequeues: string, key: string)
    ensures GetHeaderAsString(Some(RequeueHeaders(count, firstSeen, requeuedBy, maxRequeues)), key) ==
      if key == MAX_REQUEUES then Some(maxRequeues)
      else if key == REQUEUED_BY then Some(requeuedBy)
      else if key == FIRST_SEEN_TS then Some(firstSeen)
      else if key == RETRY_COUNT then Some(count)
      else None
  {
  }

  /** A fact about two literals, not about the router: the numerals "0" and "3" the
      requeue headers carry parse as 0 and 3, which `RequeueHeadersRoundTrip` needs. */
  lemma RequeueNumerals()
    ensures ParseInt32("0") == Ok(0) && ParseInt32("3") == Ok(3)
  {
    ParseFormatInt32(0);
    ParseFormatInt32(3);
    assert FormatInt(0) == "0" && FormatInt(3) == "3";
  }

  /** A requeued message starts over: count 0, first seen now, the operator as requeuer,
      three requeues allowed, and no original coordinates or due time inherited. */
  lemma RequeueHeadersRoundTrip(cfg: Config, key: string, value: string, requeuer: string, now: int, later: int)
    ensures var r := RequeueRoute(cfg, key, value, requeuer, now);
      && r.topic == cfg.mainTopic && r.key == key && r.value == value
      && GetRetryCount(Some(r.headers)) == Ok(0)
      && GetFirstSeenTimestamp(Some(r.headers), later) == Ok(now)
      && GetRequeuedBy(Some(r.headers)) == Some(requeuer)
      && GetMaxRequeues(Some(r.headers)) == Ok(3)
      && GetOriginalTopic(Some(r.headers)) == "unknown"
      && GetOriginalPartition(Some(r.headers)) == Ok(-1)
      && GetOriginalOffset(Some(r.headers)) == Ok(-1)
      && GetNextAt(Some(r.headers)) == Ok(None)
  {
    HeaderKeysDistinct();
    RequeueHeaderRead("0", FormatInstant(now), requeuer, "3", RETRY_COUNT);
    RequeueHeaderRead("0", FormatInstant(now), requeuer, "3", FIRST_SEEN_TS);
    RequeueHeaderRead("0", FormatInstant(now), requeuer, "3", REQUEUED_BY);
    RequeueHeaderRead("0", FormatInstant(now), requeuer, "3", MAX_REQUEUES);
    RequeueHeaderRead("0", FormatInstant(now), requeuer, "3", ORIGINAL_TOPIC);
    RequeueHeaderRead("0", FormatInstant(now), requeuer, "3", ORIGINAL_PARTITION);
    RequeueHeaderRead("0", FormatInstant(now), requeuer, "3", ORIGINAL_OFFSET);
    RequeueHeaderRead("0", FormatInstant(now), requeuer, "3", NEXT_AT);
    RequeueNumerals();
    ParseFormatInstant(now);
  }

  /** The service bean: its configuration and the producer it publishes through. */
  class RetryService {
    const config: Config
    const kafkaTemplate: KafkaTemplate

    constructor (config: Config, kafkaTemplate: KafkaTemplate)
      ensures this.config == config && this.kafkaTemplate == kafkaTemplate
    {
      this.config := config;
      this.kafkaTemplate := kafkaTemplate;
    }

    /** `createRetryHeaders`, one `add` at a time. */
    method CreateRetryHeaders(retryCount: int32, originalTopic: string, originalPartition: int32,
                              originalOffset: int64, error: Failure, now: int) returns (headers: RecordHeaders)
      ensures fresh(headers)
      ensures headers.list == RetryHeaderList(config, retryCount, originalTopic, originalPartition, originalOffset, error, now)
    {
      headers := new RecordHeaders();
      headers.Add(RETRY_COUNT, FormatInt(WrapInc(retryCount)));
      headers.Add(FIRST_SEEN_TS, FormatInstant(now));
      headers.Add(LAST_ERROR, TruncateString(error.message, LAST_ERROR_LIMIT));
      headers.Add(STACKTRACE, TruncateString(Some(error.stackTrace), STACKTRACE_LIMIT));
      headers.Add(ORIGINAL_TOPIC, originalTopic);
      headers.Add(ORIGINAL_PARTITION, FormatInt(originalPartition));
      headers.Add(ORIGINAL_OFFSET, FormatInt(originalOffset));
      var nextTopic := GetNextRetryTopic(config, WrapInc(retryCount));
      if nextTopic.Some? {
        var nextAt := CalculateNextRetryTime(now, WrapInc(retryCount));
        headers.Add(NEXT_AT, FormatInstant(nextAt));
      }
    }

    /** `createDlqHeaders`, one `add` at a time. */
    method CreateDlqHeaders(retryCount: int32, originalTopic: string, originalPartition: int32,
                            originalOffset: int64, error: Failure, now: int) returns (headers: RecordHeaders)
      ensures fresh(headers)
      ensures headers.list == DlqHeaderList(retryCount, originalTopic, originalPartition, originalOffset, error, now)
    {
      headers := new RecordHeaders();
      headers.Add(RETRY_COUNT, FormatInt(WrapInc(retryCount)));
      headers.Add(FIRST_SEEN_TS, FormatInstant(now));
      headers.Add(LAST_ERROR, TruncateString(error.message, LAST_ERROR_LIMIT));
      headers.Add(STACKTRACE, TruncateString(Some(error.stackTrace), STACKTRACE_LIMIT));
      headers.Add(ORIGINAL_TOPIC, originalTopic);
      headers.Add(ORIGINAL_PARTITION, FormatInt(originalPartition));
      headers.Add(ORIGINAL_OFFSET, FormatInt(originalOffset));
    }

    /** `sendToDlq`: publishes the dead-letter record. */
    method SendToDlq(key: string, value: string, currentRetryCount: int32, originalTopic: string,
                     originalPartition: int32, originalOffset: int64, error: Failure, now: int)
      modifies kafkaTemplate
      ensures kafkaTemplate.sent == old(kafkaTemplate.sent) +
        [DlqRoute(config, key, value, currentRetryCount, originalTopic, originalPartition, originalOffset, error, now)]
    {
      var headers := CreateDlqHeaders(currentRetryCount, originalTopic, originalPartition, originalOffset, error, now);
      kafkaTemplate.Send(ProducerRecord(config.dlqTopic, key, value, headers.list));
    }

    /** `sendToRetry`: publishes to the next tier, or hands over to `sendToDlq`. */
    method SendToRetry(key: string, value: string, currentRetryCount: int32, originalTopic: string,
                       originalPartition: int32, originalOffset: int64, error: Failure, now: int)
      modifies kafkaTemplate
      ensures kafkaTemplate.sent == old(kafkaTemplate.sent) +
        [RetryRoute(config, key, value, currentRetryCount, originalTopic, originalPartition, originalOffset, error, now)]
    {
      var nextTopic := GetNextRetryTopic(config, currentRetryCount);
      if nextTopic.None? {
        SendToDlq(key, value, currentRetryCount, originalTopic, originalPartition, originalOffset, error, now);
        return;
      }
      var headers := CreateRetryHeaders(currentRetryCount, originalTopic, originalPartition, originalOffset, error, now);
      kafkaTemplate.Send(ProducerRecord(nextTopic.value, key, value, headers.list));
    }

    /** `requeueFromDlq`: publishes to the main topic with fresh metadata. */
    method RequeueFromDlq(key: string, value: string, requeuedBy: string, now: int)
      modifies kafkaTemplate
      ensures kafkaTemplate.sent == old(kafkaTemplate.sent) + [RequeueRoute(config, key, value, requeuedBy, now)]
    {
      var headers := new RecordHeaders();
      headers.Add(RETRY_COUNT, "0");
      headers.Add(FIRST_SEEN_TS, FormatInstant(now));
      headers.Add(REQUEUED_BY, requeuedBy);
      headers.Add(MAX_REQUEUES, "3");
      kafkaTemplate.Send(ProducerRecord(config.mainTopic, key, value, headers.list));
    }
  }
}
