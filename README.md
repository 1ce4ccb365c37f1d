# Retry and dead-letter handling for Kafka order events, in Dafny

This project models the decision logic of a Spring/Kafka order pipeline with tiered
retries and a dead-letter queue (DLQ).

- A listener on the main topic processes each order event.
- On failure it classifies the error as transient or permanent.
- A transient failure is republished to the next retry tier (5 seconds, 30 seconds,
  5 minutes). Every hop carries metadata headers: the retry count, the first-seen time,
  the last error, the stack trace, the original coordinates and a due time.
- A permanent failure, or one with no tier left, is published to the dead-letter topic.
- A DLQ listener stores each dead letter as a database row.
- An operator can requeue a stored row to the main topic at most three times, delete
  it, or list rows through a handful of queries.

Modules, one per source file plus three helpers:

- `Values`: Option, Result, and Java `int`/`long` ranges, with `retryCount + 1` wrapping
  as Java does.
- `Decimal`: `String.valueOf`, `Integer.parseInt` and `Long.parseLong` on ASCII decimal
  text.
- `Kafka`: the parts of the Kafka client the core touches.
  - Record headers, where `lastHeader` returns the last occurrence of a key.
  - Consumer and producer records.
  - The acknowledgment, as a counter the handler increments.
  - The producer, as the list of records handed to `send`.
- `ErrorClassifier`: `classifyError` and `shouldRetry`. The two case-insensitive regular
  expressions become an ASCII keyword search on single-line messages.
- `RetryHeaders`: the header keys and the typed, defaulted getters.
- `RetryService`: the ladder, `truncateString`, the three header builders, and the three
  publishing operations. Each builder is a pure header list plus a method that builds it
  with in-place `add` calls.
- `OrderConsumer` and `RetryConsumer`: the listeners as classes. Each handler method is
  proved against a pure effect function: what is published, whether the delivery is
  acknowledged, and which exception escapes. Lemmas state the acknowledgement and routing
  rules.
- `DlqMessage`: the row value and the mutable entity with its setters.
- `DlqMessageRepository`: the store as a class holding `map<nat, DlqRecord>` and an id
  counter. It has `save`, `findById` and `deleteById`. The declared queries are pure
  functions: filter, then a stable insertion sort on `createdAt`.
- `DlqConsumer` and `DlqService`: the DLQ listener and the operator service.

Outcomes the code receives from elsewhere are parameters:

- whether the JSON read or `processOrder` throws, and with what;
- whether an asynchronous publish succeeds;
- whether `save` succeeds;
- the current instant.

Timestamps are integers. An instant's text is its decimal numeral, standing in for
ISO-8601.

The model follows the code where it departs from the system's stated design:

- First-seen is re-stamped on every hop.
- The retry listener passes its own topic, partition and offset as the "original" ones.
- A message entering the last tier (count 3) gets no `x-next-at`.
  `getNextRetryTopic(3)` is always null, so the five-minute case of
  `calculateNextRetryTime` is never used. `RetryService.LastTierHasNoDueTime` states this.
- `requeueMessage` returns true before the publish completes. It returns the same false
  for an unknown id and for a message at the limit.
- Two lines use `?.`/`??`, which Java does not have. They are modelled by their evident
  intent: a missing header reads as absent, or as empty text.

## Model

| member | source | states |
|---|---|---|
| `Values.WrapInc` | src/main/java/com/example/dlq/service/RetryService.java:132 | Java's `retryCount + 1` on `int`: the successor below `Integer.MAX_VALUE`, `Integer.MIN_VALUE` after it |
| `Decimal.FormatInt` | src/main/java/com/example/dlq/service/RetryService.java:137-138 | `String.valueOf` yields a non-empty numeral: digits, with a leading minus exactly for negatives |
| `Decimal.ParseDecimal` | src/main/java/com/example/dlq/model/RetryHeaders.java:68-78 | text has a value exactly when it is an optionally signed non-empty run of ASCII digits |
| `Decimal.ParseInt32` | src/main/java/com/example/dlq/model/RetryHeaders.java:68-72 | `Integer.parseInt` succeeds iff the numeral is in `int` range, gives its value, and otherwise fails with `NumberFormatException` on that text |
| `Decimal.ParseInt64` | src/main/java/com/example/dlq/model/RetryHeaders.java:74-78 | as `ParseInt32` for `Long.parseLong` and the `long` range |
| `Decimal.ParseFormat` | src/main/java/com/example/dlq/service/RetryService.java:132 | reading back a written integer gives the same integer, for every integer |
| `Decimal.ParseFormatInt32` | src/main/java/com/example/dlq/model/RetryHeaders.java:40-42 | `Integer.parseInt(String.valueOf(n)) == n` for every `int` |
| `Decimal.ParseFormatInt64` | src/main/java/com/example/dlq/model/RetryHeaders.java:44-46 | `Long.parseLong(String.valueOf(n)) == n` for every `long` |
| `Decimal.NonNumericFails` | src/main/java/com/example/dlq/model/RetryHeaders.java:68-78 | text with a non-digit anywhere (other than a leading sign) fails both parses |
| `ErrorClassifier.LowerAscii` | src/main/java/com/example/dlq/service/ErrorClassifier.java:18 | `(?i)` folds each character independently, ASCII letters only, keeping length |
| `ErrorClassifier.Contains` | src/main/java/com/example/dlq/service/ErrorClassifier.java:17-23 | `.*(k).*` finds `k` iff it occurs at some position of the message |
| `ErrorClassifier.ClassifyError` | src/main/java/com/example/dlq/service/ErrorClassifier.java:25-61 | an `OrderProcessingException` gets its declared type; a permanent verdict needs a non-null error, and network errors are never permanent unless declared so; `PermanentCharacterisation` gives the full rule |
| `ErrorClassifier.ShouldRetry` | src/main/java/com/example/dlq/service/ErrorClassifier.java:63-71 | retry exactly when the error is transient and the count is below the maximum |
| `ErrorClassifier.NullIsTransient` | src/main/java/com/example/dlq/service/ErrorClassifier.java:26-28 | a null error is transient |
| `ErrorClassifier.DeclaredTypeWins` | src/main/java/com/example/dlq/service/ErrorClassifier.java:31-33 | an `OrderProcessingException` is classified by its declared type whatever its message |
| `ErrorClassifier.NetworkErrorsAreTransient` | src/main/java/com/example/dlq/service/ErrorClassifier.java:36-41 | IO, socket-timeout, timeout and unknown-host errors are transient, whatever their message |
| `ErrorClassifier.KeywordMakesPermanent` | src/main/java/com/example/dlq/service/ErrorClassifier.java:43-50 | a single-line message containing any of the ten keywords in any ASCII case makes a non-explicit, non-network error permanent |
| `ErrorClassifier.LineTerminatorDefeatsKeywords` | src/main/java/com/example/dlq/service/ErrorClassifier.java:46-47 | a message containing a line terminator never matches either pattern |
| `ErrorClassifier.KindDecidesWithoutKeyword` | src/main/java/com/example/dlq/service/ErrorClassifier.java:52-60 | without a keyword match, argument/state/unsupported-operation errors are permanent and all other non-explicit errors transient |
| `ErrorClassifier.PermanentCharacterisation` | src/main/java/com/example/dlq/service/ErrorClassifier.java:25-61 | permanent iff declared permanent, or non-explicit, non-network and either keyword-matching or an argument/state kind |
| `ErrorClassifier.PermanentNeverRetried` | src/main/java/com/example/dlq/service/ErrorClassifier.java:66-68 | `shouldRetry` is false for a permanent error at every count |
| `ErrorClassifier.TransientRetriedBelowMax` | src/main/java/com/example/dlq/service/ErrorClassifier.java:70 | for a transient error `shouldRetry` holds iff count < max |
| `ErrorClassifier.RefusalIsMonotone` | src/main/java/com/example/dlq/service/ErrorClassifier.java:63-71 | once refused at a count, retrying stays refused at every larger count |
| `Kafka.LastHeader` | src/main/java/com/example/dlq/model/RetryHeaders.java:64 | `lastHeader` finds a header iff one has the key, and returns the last one with it |
| `Kafka.LastHeaderAfterAdd` | src/main/java/com/example/dlq/service/RetryService.java:130-138 | after an add, the new header is the one read for its key; other keys read as before |
| `Kafka.WithHeader` | src/main/java/com/example/dlq/service/RetryService.java:132 | `add` appends one header, shadowing the key's earlier value and leaving other keys' reads alone |
| `Kafka.RecordHeaders.Add` | src/main/java/com/example/dlq/service/RetryService.java:132 | `headers.add` extends the header list in place |
| `Kafka.Acknowledgment.Acknowledge` | src/main/java/com/example/dlq/consumer/OrderConsumer.java:65 | each acknowledgement increments the delivery's count by one |
| `Kafka.KafkaTemplate.Send` | src/main/java/com/example/dlq/service/RetryService.java:76 | `send` appends the record to those published |
| `RetryHeaders.ParseInstant` | src/main/java/com/example/dlq/model/RetryHeaders.java:26-30 | an unreadable instant fails with `DateTimeParseException` on that text |
| `RetryHeaders.ParseFormatInstant` | src/main/java/com/example/dlq/model/RetryHeaders.java:48-52 | an instant written into a header reads back unchanged |
| `RetryHeaders.GetHeaderAsString` | src/main/java/com/example/dlq/model/RetryHeaders.java:62-66 | absent for a null collection; a present text is the value of the last header with the key |
| `RetryHeaders.GetHeaderAsInt` | src/main/java/com/example/dlq/model/RetryHeaders.java:68-72 | absent exactly when the text is absent; a present text gives its `Integer.parseInt` value or that call's `NumberFormatException` |
| `RetryHeaders.GetHeaderAsLong` | src/main/java/com/example/dlq/model/RetryHeaders.java:74-78 | as `GetHeaderAsInt` with `Long.parseLong` |
| `RetryHeaders.GetHeaderAsInstant` | src/main/java/com/example/dlq/model/RetryHeaders.java:26-30 | absent exactly when the text is absent; a present text gives its instant or `DateTimeParseException` |
| `RetryHeaders.GetRetryCount` | src/main/java/com/example/dlq/model/RetryHeaders.java:22-24 | 0 when the header is absent, otherwise `Integer.parseInt` of its text, failure included |
| `RetryHeaders.GetFirstSeenTimestamp` | src/main/java/com/example/dlq/model/RetryHeaders.java:26-30 | the current instant when absent, otherwise the parsed instant, failure included |
| `RetryHeaders.GetLastError` | src/main/java/com/example/dlq/model/RetryHeaders.java:32-34 | "Unknown error" when absent, otherwise the header's text |
| `RetryHeaders.GetOriginalTopic` | src/main/java/com/example/dlq/model/RetryHeaders.java:36-38 | "unknown" when absent, otherwise the header's text |
| `RetryHeaders.GetOriginalPartition` | src/main/java/com/example/dlq/model/RetryHeaders.java:40-42 | -1 when absent, otherwise `Integer.parseInt` of its text, failure included |
| `RetryHeaders.GetOriginalOffset` | src/main/java/com/example/dlq/model/RetryHeaders.java:44-46 | -1 when absent, otherwise `Long.parseLong` of its text, failure included |
| `RetryHeaders.GetNextAt` | src/main/java/com/example/dlq/model/RetryHeaders.java:48-52 | null when absent, otherwise the parsed instant, failure included |
| `RetryHeaders.GetRequeuedBy` | src/main/java/com/example/dlq/model/RetryHeaders.java:54-56 | null for a null collection or a missing key; a present value is the last such header's |
| `RetryHeaders.GetMaxRequeues` | src/main/java/com/example/dlq/model/RetryHeaders.java:58-60 | 3 when absent, otherwise `Integer.parseInt` of its text, failure included |
| `RetryHeaders.MissingKeyReadsAbsent` | src/main/java/com/example/dlq/model/RetryHeaders.java:62-66 | a key that no header carries, or a null collection, reads as absent |
| `RetryHeaders.DefaultsWhenAbsent` | src/main/java/com/example/dlq/model/RetryHeaders.java:22-60 | absent headers read as 0, now, "Unknown error", "unknown", -1, -1, null, null and 3 |
| `RetryHeaders.NullHeadersGiveDefaults` | src/main/java/com/example/dlq/model/RetryHeaders.java:63 | with a null collection every getter gives its default |
| `RetryHeaders.LastOccurrenceWins` | src/main/java/com/example/dlq/model/RetryHeaders.java:64 | a key occurring several times reads as its last occurrence |
| `RetryHeaders.MalformedNumberThrows` | src/main/java/com/example/dlq/model/RetryHeaders.java:68-78 | a present but unparsable count, partition, offset or max-requeues throws `NumberFormatException`; the default covers absence only |
| `RetryService.TruncateString` | src/main/java/com/example/dlq/service/RetryService.java:183-186 | null gives ""; text of at most `max` characters is unchanged; longer text keeps its first `max` characters followed by "...", so never more than max + 3 |
| `RetryService.GetNextRetryTopic` | src/main/java/com/example/dlq/service/RetryService.java:115-126 | a tier exactly for counts 0 to 2 below `maxAttempts`: 5s, 30s and 5m in that order |
| `RetryService.CalculateNextRetryTime` | src/main/java/com/example/dlq/service/RetryService.java:165-172 | never before now and at most five minutes later; strictly later exactly for counts 1 to 3 |
| `RetryService.DlqHeaderList` | src/main/java/com/example/dlq/service/RetryService.java:150-163 | the seven metadata headers, count first and offset last, each key once |
| `RetryService.RetryHeaderList` | src/main/java/com/example/dlq/service/RetryService.java:128-148 | the dead-letter headers followed by `x-next-at` exactly when a tier exists for n + 1 |
| `RetryService.RequeueHeaderList` | src/main/java/com/example/dlq/service/RetryService.java:101-107 | count, first-seen, requeuer and max-requeues, in that order |
| `RetryService.DlqRoute` | src/main/java/com/example/dlq/service/RetryService.java:80-95 | to the dead-letter topic, key and value unchanged, with the seven metadata headers |
| `RetryService.RetryRoute` | src/main/java/com/example/dlq/service/RetryService.java:57-77 | key and value unchanged, to the next tier, or when none is left exactly the dead-letter record |
| `RetryService.RequeueRoute` | src/main/java/com/example/dlq/service/RetryService.java:98-113 | to the main topic, key and value unchanged, with the four requeue headers |
| `RetryService.NoTierAtOrBeyondMax` | src/main/java/com/example/dlq/service/RetryService.java:115-118 | at or beyond `maxAttempts` there is no next tier |
| `RetryService.LadderBelowMax` | src/main/java/com/example/dlq/service/RetryService.java:120-125 | below `maxAttempts` the ladder is 0 to 5s, 1 to 30s, 2 to 5m, and nothing for any other count |
| `RetryService.TierDelaysNonDecreasing` | src/main/java/com/example/dlq/service/RetryService.java:165-172 | the delays for counts 1, 2, 3 are 5, 30 and 300 seconds and never decrease |
| `RetryService.RetryRouteDestination` | src/main/java/com/example/dlq/service/RetryService.java:57-77 | `sendToRetry` publishes the dead-letter record exactly when no tier is left, else to the named tier, with the key and value unchanged |
| `RetryService.BaseHeaderRead` | src/main/java/com/example/dlq/service/RetryService.java:150-163 | each of the seven keys reads the text added for it; every other key reads as absent |
| `RetryService.BaseHeadersRoundTrip` | src/main/java/com/example/dlq/service/RetryService.java:154-160 | dead-letter headers read back count n + 1, first-seen now, the bounded last error and the coordinates unchanged; no due time, requeuer or max-requeues |
| `RetryService.RetryHeaderRead` | src/main/java/com/example/dlq/service/RetryService.java:128-148 | retry headers read like the dead-letter ones except `x-next-at`, present only when a tier exists for n + 1 |
| `RetryService.OtherKeyUnaffected` | src/main/java/com/example/dlq/service/RetryService.java:144 | adding one header leaves every other key's read unchanged |
| `RetryService.NextAtHidesNothingElse` | src/main/java/com/example/dlq/service/RetryService.java:140-145 | adding `x-next-at` changes none of the count, first-seen, error or coordinate getters |
| `RetryService.RetryHeadersRoundTrip` | src/main/java/com/example/dlq/service/RetryService.java:132-138 | retry headers read back count n + 1 (wrapping), first-seen now, the bounded last error and topic, partition and offset unchanged |
| `RetryService.RetryHeadersNextAt` | src/main/java/com/example/dlq/service/RetryService.java:140-145 | `x-next-at` is present iff `getNextRetryTopic(n + 1)` names a tier, and then holds now plus the delay for n + 1 |
| `RetryService.DlqHeadersHaveNoNextAt` | src/main/java/com/example/dlq/service/RetryService.java:150-163 | no dead-letter header has the key `x-next-at` |
| `RetryService.LastTierHasNoDueTime` | src/main/java/com/example/dlq/service/RetryService.java:141-143 | the hop into the last tier carries no due time, and no retry record ever carries now + 5 minutes |
| `RetryService.RequeueHeaderRead` | src/main/java/com/example/dlq/service/RetryService.java:101-105 | the four requeue keys read their texts; every other key reads as absent |
| `RetryService.RequeueHeadersRoundTrip` | src/main/java/com/example/dlq/service/RetryService.java:98-113 | requeue publishes key and value to the main topic with count 0, first-seen now, the operator, max-requeues 3, and default coordinates and no due time |
| `RetryService.RetryService.CreateRetryHeaders` | src/main/java/com/example/dlq/service/RetryService.java:128-148 | the successive adds build exactly the retry header list |
| `RetryService.RetryService.CreateDlqHeaders` | src/main/java/com/example/dlq/service/RetryService.java:150-163 | the successive adds build exactly the dead-letter header list |
| `RetryService.RetryService.SendToDlq` | src/main/java/com/example/dlq/service/RetryService.java:79-95 | publishes exactly one record, the dead-letter route |
| `RetryService.RetryService.SendToRetry` | src/main/java/com/example/dlq/service/RetryService.java:56-77 | publishes exactly one record, to the next tier or, with none left, to the dead-letter topic |
| `RetryService.RetryService.RequeueFromDlq` | src/main/java/com/example/dlq/service/RetryService.java:97-113 | publishes exactly one record, the requeue route |
| `OrderConsumer.SuccessAcknowledgesOnly` | src/main/java/com/example/dlq/consumer/OrderConsumer.java:59-66 | successful processing is acknowledged and publishes nothing |
| `OrderConsumer.FailureHandling` | src/main/java/com/example/dlq/consumer/OrderConsumer.java:68-104 | throws exactly when the count header does not parse, then publishing and acknowledging nothing; otherwise publishes one record with the key and value, acknowledged iff the publish succeeds |
| `OrderConsumer.OrderHandling` | src/main/java/com/example/dlq/consumer/OrderConsumer.java:57-104 | at most one publish; success is acknowledged with nothing published; a failure is acknowledged only after a successful publish; an acknowledged delivery never throws |
| `OrderConsumer.ParseAndProcessFailuresAlike` | src/main/java/com/example/dlq/consumer/OrderConsumer.java:57-68 | a JSON read failure and a processing failure with the same exception have the same effect |
| `OrderConsumer.FailureRoutesExactlyOnce` | src/main/java/com/example/dlq/consumer/OrderConsumer.java:72-103 | on failure exactly one record is published, the retry route iff `shouldRetry`, else the DLQ route, with the record's own key, value, topic, partition and offset; acked iff the publish succeeds |
| `OrderConsumer.MalformedCountEscapes` | src/main/java/com/example/dlq/consumer/OrderConsumer.java:72 | an unparsable count header throws out of the catch block: nothing published, nothing acknowledged |
| `OrderConsumer.OrderAckDiscipline` | src/main/java/com/example/dlq/consumer/OrderConsumer.java:65-102 | at most one publish; acknowledged iff processed, or its failure record was published successfully; an escaping exception is never acknowledged |
| `OrderConsumer.FailureClimbsLadder` | src/main/java/com/example/dlq/consumer/OrderConsumer.java:72-103 | for any count read from the header: a transient failure at count 0, 1 or 2 below the limit goes to that count's tier carrying count + 1; a permanent one, a negative count or any count from 3 or the limit up goes to the DLQ topic carrying count + 1 (wrapping) |
| `OrderConsumer.OrderConsumer.HandleOrderEvent` | src/main/java/com/example/dlq/consumer/OrderConsumer.java:43-105 | the handler publishes, acknowledges and throws exactly as the effect function says |
| `RetryConsumer.NotYetDueIsSkipped` | src/main/java/com/example/dlq/consumer/RetryConsumer.java:88-93 | a record whose due time is ahead is not processed, published or acknowledged, whatever processing would do |
| `RetryConsumer.DueGate` | src/main/java/com/example/dlq/consumer/RetryConsumer.java:88-93 | throws exactly when `x-next-at` does not parse; refuses exactly when a due time is present and still ahead |
| `RetryConsumer.RetryHandling` | src/main/java/com/example/dlq/consumer/RetryConsumer.java:77-145 | a record not yet due is left alone; a malformed due time throws with nothing published; at most one publish; acknowledged only when due and nothing escapes |
| `RetryConsumer.RoutedRetryDueGate` | src/main/java/com/example/dlq/consumer/RetryConsumer.java:88-93 | a record the router sent to a tier passes the gate exactly when it carries no due time or the send instant plus the tier delay has been reached |
| `RetryConsumer.DueIsHandledLikeMain` | src/main/java/com/example/dlq/consumer/RetryConsumer.java:89-143 | with no due time or one reached, the record is handled exactly like on the main topic |
| `RetryConsumer.MalformedDueTimeEscapes` | src/main/java/com/example/dlq/consumer/RetryConsumer.java:88 | an unparsable `x-next-at` throws before processing: nothing published or acknowledged |
| `RetryConsumer.RetryAckDiscipline` | src/main/java/com/example/dlq/consumer/RetryConsumer.java:88-143 | acknowledged iff due and either processed or its one failure record published successfully |
| `RetryConsumer.RetryClimbsLadder` | src/main/java/com/example/dlq/consumer/RetryConsumer.java:112-128 | a due record at count 1 failing transiently goes to the 30s tier with count 2, carrying the retry record's own coordinates as the original ones |
| `RetryConsumer.FiveSecondRecordClimbsWhenDue` | src/main/java/com/example/dlq/consumer/RetryConsumer.java:77-145 | a first failure routed to the 5s tier, delivered once its five seconds have passed and failing transiently again, is published to the 30s tier with count 2 |
| `RetryConsumer.RetryConsumer.HandleRetry5s` | src/main/java/com/example/dlq/consumer/RetryConsumer.java:44-53 | behaves as `handleRetryMessage` |
| `RetryConsumer.RetryConsumer.HandleRetry30s` | src/main/java/com/example/dlq/consumer/RetryConsumer.java:55-64 | behaves as `handleRetryMessage` |
| `RetryConsumer.RetryConsumer.HandleRetry5m` | src/main/java/com/example/dlq/consumer/RetryConsumer.java:66-75 | behaves as `handleRetryMessage` |
| `RetryConsumer.RetryConsumer.HandleRetryMessage` | src/main/java/com/example/dlq/consumer/RetryConsumer.java:77-145 | the handler publishes, acknowledges and throws exactly as the gated effect function says, whatever the delay label |
| `DlqMessage.NewRecord` | src/main/java/com/example/dlq/entity/DlqMessage.java:57-71 | a new row is created now, never requeued, with no requeuer and no requeue instant |
| `DlqMessage.DlqMessage.constructor` | src/main/java/com/example/dlq/entity/DlqMessage.java:57-71 | copies the nine arguments unchanged, stamps `createdAt`, zero requeues, id unset |
| `DlqMessage.DlqMessage.SetId` | src/main/java/com/example/dlq/entity/DlqMessage.java:75 | sets the id, no persistent field changes |
| `DlqMessage.DlqMessage.SetMessageKey` | src/main/java/com/example/dlq/entity/DlqMessage.java:78 | changes only `messageKey` |
| `DlqMessage.DlqMessage.SetMessageValue` | src/main/java/com/example/dlq/entity/DlqMessage.java:81 | changes only `messageValue` |
| `DlqMessage.DlqMessage.SetOriginalTopic` | src/main/java/com/example/dlq/entity/DlqMessage.java:84 | changes only `originalTopic` |
| `DlqMessage.DlqMessage.SetOriginalPartition` | src/main/java/com/example/dlq/entity/DlqMessage.java:87 | changes only `originalPartition` |
| `DlqMessage.DlqMessage.SetOriginalOffset` | src/main/java/com/example/dlq/entity/DlqMessage.java:90 | changes only `originalOffset` |
| `DlqMessage.DlqMessage.SetRetryCount` | src/main/java/com/example/dlq/entity/DlqMessage.java:93 | changes only `retryCount` |
| `DlqMessage.DlqMessage.SetFirstSeenTs` | src/main/java/com/example/dlq/entity/DlqMessage.java:96 | changes only `firstSeenTs` |
| `DlqMessage.DlqMessage.SetLastError` | src/main/java/com/example/dlq/entity/DlqMessage.java:99 | changes only `lastError` |
| `DlqMessage.DlqMessage.SetStacktrace` | src/main/java/com/example/dlq/entity/DlqMessage.java:102 | changes only `stacktrace` |
| `DlqMessage.DlqMessage.SetCreatedAt` | src/main/java/com/example/dlq/entity/DlqMessage.java:105 | changes only `createdAt` |
| `DlqMessage.DlqMessage.SetRequeuedCount` | src/main/java/com/example/dlq/entity/DlqMessage.java:108 | changes only `requeuedCount` |
| `DlqMessage.DlqMessage.SetRequeuedBy` | src/main/java/com/example/dlq/entity/DlqMessage.java:111 | changes only `requeuedBy` |
| `DlqMessage.DlqMessage.SetRequeuedAt` | src/main/java/com/example/dlq/entity/DlqMessage.java:114 | changes only `requeuedAt` |
| `DlqMessageRepository.Select` | src/main/java/com/example/dlq/repository/DlqMessageRepository.java:17-28 | a WHERE clause yields exactly the stored rows that match, each once, in id order |
| `DlqMessageRepository.Insert` | src/main/java/com/example/dlq/repository/DlqMessageRepository.java:17 | inserting into a sorted result keeps it sorted and adds exactly that row |
| `DlqMessageRepository.SortByCreatedAt` | src/main/java/com/example/dlq/repository/DlqMessageRepository.java:21-22 | ORDER BY createdAt returns a sorted permutation of its input |
| `DlqMessageRepository.FindAllByOrderByCreatedAtDesc` | src/main/java/com/example/dlq/repository/DlqMessageRepository.java:17 | newest first, a permutation of all stored rows |
| `DlqMessageRepository.FindByMessageKey` | src/main/java/com/example/dlq/repository/DlqMessageRepository.java:19 | a row is listed iff it is stored with that key |
| `DlqMessageRepository.FindOldestMessages` | src/main/java/com/example/dlq/repository/DlqMessageRepository.java:21-22 | oldest first, a permutation of the rows created before the cutoff |
| `DlqMessageRepository.CountMessagesSince` | src/main/java/com/example/dlq/repository/DlqMessageRepository.java:24-25 | zero exactly when every stored row was created before `since` |
| `DlqMessageRepository.FindRequeueableMessages` | src/main/java/com/example/dlq/repository/DlqMessageRepository.java:27-28 | newest first, a permutation of the rows requeued fewer than `maxRequeues` times |
| `DlqMessageRepository.SortedQueryContents` | src/main/java/com/example/dlq/repository/DlqMessageRepository.java:21-28 | a sorted query holds each matching row exactly once and nothing else |
| `DlqMessageRepository.FindAllReturnsEveryRow` | src/main/java/com/example/dlq/repository/DlqMessageRepository.java:17 | every stored row exactly once, newest first |
| `DlqMessageRepository.FindByMessageKeyContents` | src/main/java/com/example/dlq/repository/DlqMessageRepository.java:19 | exactly the rows with that key, each once |
| `DlqMessageRepository.FindOldestContents` | src/main/java/com/example/dlq/repository/DlqMessageRepository.java:21-22 | exactly the rows created before the cutoff, each once, oldest first |
| `DlqMessageRepository.FindRequeueableContents` | src/main/java/com/example/dlq/repository/DlqMessageRepository.java:27-28 | exactly the rows requeued fewer than `maxRequeues` times, each once, newest first |
| `DlqMessageRepository.SinceAndOlderSplit` | src/main/java/com/example/dlq/repository/DlqMessageRepository.java:21-25 | rows since t and rows before t together number the stored ids |
| `DlqMessageRepository.CountPlusOldestIsTotal` | src/main/java/com/example/dlq/repository/DlqMessageRepository.java:21-25 | `countMessagesSince(t)` plus the size of `findOldestMessages(t)` is the number of stored rows |
| `DlqMessageRepository.DlqMessageRepository.Save` | src/main/java/com/example/dlq/consumer/DlqConsumer.java:57 | a new entity is inserted under a fresh id written back to it; a stored one overwrites its row |
| `DlqMessageRepository.DlqMessageRepository.FindById` | src/main/java/com/example/dlq/service/DlqService.java:43 | a fresh entity holding the stored row and its id, or null exactly when the id is unknown |
| `DlqMessageRepository.DlqMessageRepository.DeleteById` | src/main/java/com/example/dlq/service/DlqService.java:87 | removes the id and changes nothing else |
| `DlqConsumer.BareRecordGetsDefaults` | src/main/java/com/example/dlq/consumer/DlqConsumer.java:43-53 | a record without metadata is stored with the record's key and value and every getter default, and an empty stack trace |
| `DlqConsumer.DlqRecordFromHeaders` | src/main/java/com/example/dlq/consumer/DlqConsumer.java:43-55 | fails exactly when the partition, offset, count or first-seen getter throws; otherwise the record's key and value, topic and error from the headers, created now and never requeued |
| `DlqConsumer.DlqRouteIsStoredFaithfully` | src/main/java/com/example/dlq/consumer/DlqConsumer.java:43-55 | a record published by `sendToDlq` is stored with its key, value, count n + 1, coordinates, first-seen time and bounded error texts |
| `DlqConsumer.MalformedHeaderFails` | src/main/java/com/example/dlq/consumer/DlqConsumer.java:43-47 | an unparsable partition, offset, count or first-seen header makes the handling fail |
| `DlqConsumer.DlqConsumer.HandleDlqMessage` | src/main/java/com/example/dlq/consumer/DlqConsumer.java:27-68 | a readable record saved successfully is inserted as a new row under a new id and acknowledged; otherwise the store and the acknowledgement are unchanged |
| `DlqService.RejectedRequeueChangesNothing` | src/main/java/com/example/dlq/service/DlqService.java:43-57 | an unknown id or one at the limit changes no row and publishes nothing |
| `DlqService.RequeueRows` | src/main/java/com/example/dlq/service/DlqService.java:43-74 | the same ids; every other row unchanged; a rejected id leaves the store as it was; an accepted one gets one more requeue, the operator and the instant |
| `DlqService.AcceptedRequeueChangesThreeFields` | src/main/java/com/example/dlq/service/DlqService.java:71-74 | an accepted requeue raises the count by one, sets requeuer and instant, and changes nothing else in any row |
| `DlqService.RequeueCountStopsAtLimit` | src/main/java/com/example/dlq/service/DlqService.java:53-74 | repeated requeues raise the count one at a time up to 3 and never beyond |
| `DlqService.NewRowRequeuedOnce` | src/test/java/com/example/dlq/integration/OrderProcessingIntegrationTest.java:84-110 | a newly stored row requeued once by an operator is accepted with count 1, that operator and a requeue instant |
| `DlqService.RequeueKeepsCountsBounded` | src/main/java/com/example/dlq/service/DlqService.java:53-71 | if no count exceeds 3, none does after a requeue |
| `DlqService.RequeueableMeansAccepted` | src/main/java/com/example/dlq/service/DlqService.java:99-101 | the requeueable listing holds exactly the rows `requeueMessage` would accept |
| `DlqService.DlqService.GetDlqMessages` | src/main/java/com/example/dlq/service/DlqService.java:29-31 | every stored row, newest first |
| `DlqService.DlqService.GetDlqMessage` | src/main/java/com/example/dlq/service/DlqService.java:33-35 | the stored row by id, or null |
| `DlqService.DlqService.GetDlqMessagesByKey` | src/main/java/com/example/dlq/service/DlqService.java:37-39 | exactly the rows with that key |
| `DlqService.DlqService.GetOldestMessages` | src/main/java/com/example/dlq/service/DlqService.java:91-93 | rows before the cutoff, oldest first |
| `DlqService.DlqService.GetMessageCountSince` | src/main/java/com/example/dlq/service/DlqService.java:95-97 | the count since `t`, which with the rows before `t` makes up the whole store |
| `DlqService.DlqService.GetRequeueableMessages` | src/main/java/com/example/dlq/service/DlqService.java:99-101 | newest first, exactly the rows `requeueMessage` would accept |
| `DlqService.DlqService.RequeueMessage` | src/main/java/com/example/dlq/service/DlqService.java:41-83 | true iff the id is stored and below 3 requeues. Then it publishes the requeue record and updates exactly that row's three requeue fields. Otherwise nothing changes and nothing is published |
| `DlqService.DlqService.DeleteDlqMessage` | src/main/java/com/example/dlq/service/DlqService.java:85-89 | removes the id, whether stored or not, and leaves every other row as it was |

## Left out

- Kafka I/O. The broker, `@KafkaListener` dispatch, consumer groups and rebalancing are
  not modelled. A send is recorded in the producer's list. Its asynchronous outcome is a
  boolean input, and the acknowledgement in its callback is taken to run before the
  handler returns.
- `OrderConsumer.FailureHandling`: a `send` that throws synchronously inside `sendToRetry` or
  `sendToDlq` escapes the listener, with nothing published or acknowledged. The model has
  only the asynchronous outcome. A failed publish here is recorded as published and
  unacknowledged, and no exception escapes.
- `RetryConsumer.RetryHandling`: the same synchronous `send` failure is not modelled for the
  retry listener.
- Timing. `Thread.sleep` in `applyDelay` is a no-op, so the delay label has no effect.
  Each call uses one `now` for every `Instant.now()` it makes.
- `OrderProcessingService`. Its random failures and sleeps are replaced by an arbitrary
  outcome: returns normally, or throws a given error.
- Jackson JSON (de)serialisation of `OrderEvent`. A failed read is an input exception,
  classified like any other. Jackson's exceptions are `IOException`s and so transient.
- ISO-8601. `Instant.toString` and `Instant.parse` are replaced by integer seconds
  written as decimal text. A parse failure is still a `DateTimeParseException`.
- `getStackTrace`. The printed stack trace is an opaque string carried by the error.
- Text encoding. `getBytes` and `new String(bytes)` are taken as the identity on text.
  `truncateString` counts characters, not UTF-16 code units.
- `Decimal.ParseInt32`: `Integer.parseInt` also accepts non-ASCII Unicode digits. Here
  only ASCII digits parse.
- `Decimal.ParseInt64`: the same restriction, for `Long.parseLong`.
- `DlqService.DlqService.RequeueMessage`: a `save` that fails, or an exception thrown
  synchronously by the producer, is not modelled. The catch-all that turns either into
  false is therefore unused.
- `DlqService.DlqService.RequeueMessage`: ids are natural numbers. A negative `Long` id
  simply finds nothing.
- Persistence. JPA identity generation becomes an id counter, and `save` of an entity
  whose id is not stored inserts under a new id. `@Transactional` rollback becomes "a
  failed save changes nothing". The JPA default constructor and the getters are not
  modelled (the getters read the fields).
- Paging. `Pageable` is dropped, and the paged queries return the whole sorted sequence.
  Rows that tie on `createdAt` come in id order, where SQL leaves the order open.
  `findByMessageKey` returns rows in id order.
- The HTTP and dashboard controllers, the metrics counters, the logging and the
  application bootstrap are not part of this model.
- `RetryHeaders.RETRY_UNTIL` is declared in the source but never read or written.
