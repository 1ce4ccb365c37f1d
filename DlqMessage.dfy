/** The persisted dead-letter record: a row of `dlq_messages` as a value, and the mutable
    entity object the consumer and the service create, change through setters and save. */
module DlqMessage {
  import opened Values

  /** One row: the dead-lettered message, its metadata, and its requeue history. */
  datatype DlqRecord = DlqRecord(
    messageKey: string,
    messageValue: string,
    originalTopic: string,
    originalPartition: int32,
    originalOffset: int64,
    retryCount: int32,
    firstSeenTs: int,
    lastError: string,
    stacktrace: string,
    createdAt: int,
    requeuedCount: int32,
    requeuedBy: Option<string>,
    requeuedAt: Option<int>)

  /** The row a freshly created entity holds: the nine given fields, created `now`, never
      requeued. */
  function NewRecord(messageKey: string, messageValue: string, originalTopic: string,
                     originalPartition: int32, originalOffset: int64, retryCount: int32,
                     firstSeenTs: int, lastError: string, stacktrace: string, now: int): (r: DlqRecord)
    ensures r.requeuedCount == 0 && r.requeuedBy.None? && r.requeuedAt.None? && r.createdAt == now
  {
    DlqRecord(messageKey, messageValue, originalTopic, originalPartition, originalOffset, retryCount,
              firstSeenTs, lastError, stacktrace, now, 0, None, None)
  }

  /** The JPA entity. `id` is unset until the store assigns one. */
  class DlqMessage {
    var id: Option<nat>
    var messageKey: string
    var messageValue: string
    var originalTopic: string
    var originalPartition: int32
    var originalOffset: int64
    var retryCount: int32
    var firstSeenTs: int
    var lastError: string
    var stacktrace: string
    var createdAt: int
    var requeuedCount: int32
    var requeuedBy: Option<string>
    var requeuedAt: Option<int>

    /** Every persistent field but the id. */
    function Row(): DlqRecord
      reads this
    {
      DlqRecord(messageKey, messageValue, originalTopic, originalPartition, originalOffset, retryCount,
                firstSeenTs, lastError, stacktrace, createdAt, requeuedCount, requeuedBy, requeuedAt)
    }

    /** The creating constructor; `now` is the construction instant. */
    constructor (messageKey: string, messageValue: string, originalTopic: string,
                 originalPartition: int32, originalOffset: int64, retryCount: int32,
                 firstSeenTs: int, lastError: string, stacktrace: string, now: int)
      ensures id.None?
      ensures Row() == NewRecord(messageKey, messageValue, originalTopic, originalPartition, originalOffset,
                                 retryCount, firstSeenTs, lastError, stacktrace, now)
    {
      id := None;
      this.messageKey := messageKey;
      this.messageValue := messageValue;
      this.originalTopic := originalTopic;
      this.originalPartition := originalPartition;
      this.originalOffset := originalOffset;
      this.retryCount := retryCount;
      this.firstSeenTs := firstSeenTs;
      this.lastError := lastError;
      this.stacktrace := stacktrace;
      createdAt := now;
      requeuedCount := 0;
      requeuedBy := None;
      requeuedAt := None;
    }

    method SetId(id: Option<nat>)
      modifies this
      ensures this.id == id && Row() == old(Row())
    {
      this.id := id;
    }

    method SetMessageKey(messageKey: string)
      modifies this
      ensures id == old(id) && Row() == old(Row()).(messageKey := messageKey)
    {
      this.messageKey := messageKey;
    }

    method SetMessageValue(messageValue: string)
      modifies this
      ensures id == old(id) && Row() == old(Row()).(messageValue := messageValue)
    {
      this.messageValue := messageValue;
    }

    method SetOriginalTopic(originalTopic: string)
      modifies this
      ensures id == old(id) && Row() == old(Row()).(originalTopic := originalTopic)
    {
      this.originalTopic := originalTopic;
    }

    method SetOriginalPartition(originalPartition: int32)
      modifies this
      ensures id == old(id) && Row() == old(Row()).(originalPartition := originalPartition)
    {
      this.originalPartition := originalPartition;
    }

    method SetOriginalOffset(originalOffset: int64)
      modifies this
      ensures id == old(id) && Row() == old(Row()).(originalOffset := originalOffset)
    {
      this.originalOffset := originalOffset;
    }

    method SetRetryCount(retryCount: int32)
      modifies this
      ensures id == old(id) && Row() == old(Row()).(retryCount := retryCount)
    {
      this.retryCount := retryCount;
    }

    method SetFirstSeenTs(firstSeenTs: int)
      modifies this
      ensures id == old(id) && Row() == old(Row()).(firstSeenTs := firstSeenTs)
    {
      this.firstSeenTs := firstSeenTs;
    }

    method SetLastError(lastError: string)
      modifies this
      ensures id == old(id) && Row() == old(Row()).(lastError := lastError)
    {
      this.lastError := lastError;
    }

    method SetStacktrace(stacktrace: string)
      modifies this
      ensures id == old(id) && Row() == old(Row()).(stacktrace := stacktrace)
    {
      this.stacktrace := stacktrace;
    }

    method SetCreatedAt(createdAt: int)
      modifies this
      ensures id == old(id) && Row() == old(Row()).(createdAt := createdAt)
    {
      this.createdAt := createdAt;
    }

    method SetRequeuedCount(requeuedCount: int32)
      modifies this
      ensures id == old(id) && Row() == old(Row()).(requeuedCount := requeuedCount)
    {
      this.requeuedCount := requeuedCount;
    }

    method SetRequeuedBy(requeuedBy: Option<string>)
      modifies this
      ensures id == old(id) && Row() == old(Row()).(requeuedBy := requeuedBy)
    {
      this.requeuedBy := requeuedBy;
    }

    method SetRequeuedAt(requeuedAt: Option<int>)
      modifies this
      ensures id == old(id) && Row() == old(Row()).(requeuedAt := requeuedAt)
    {
      this.requeuedAt := requeuedAt;
    }
  }
}
