/** The operator-facing service over the dead-letter store: bounded requeue to the main
    topic, deletion, and the read-only queries it passes through to the store. */
module DlqService {
  import opened Values
  import opened Kafka
  import opened RetryService
  import opened DlqMessage
  import opened DlqMessageRepository

  /** How many times one stored message may be requeued. */
  const MAX_REQUEUES: int32 := 3

  /** `requeueMessage` accepts the id: it is stored and below the requeue limit. */
  predicate RequeueAccepted(rows: map<nat, DlqRecord>, id: nat) {
    id in rows && rows[id].requeuedCount < MAX_REQUEUES
  }

  /** The row after an accepted requeue: one more requeue, by `requeuedBy`, at `now`. */
  function Requeued(r: DlqRecord, requeuedBy: string, now: int): DlqRecord
    requires r.requeuedCount < MAX_REQUEUES
  {
    r.(requeuedCount := r.requeuedCount + 1, requeuedBy := Some(requeuedBy), requeuedAt := Some(now))
  }

  /** The store after `requeueMessage(id, requeuedBy)` at `now`. */
  function RequeueRows(rows: map<nat, DlqRecord>, id: nat, requeuedBy: string, now: int): (r: map<nat, DlqRecord>)
    ensures r.Keys == rows.Keys
    ensures forall k :: k in rows && k != id ==> r[k] == rows[k]
    ensures !RequeueAccepted(rows, id) ==> r == rows
    ensures RequeueAccepted(rows, id) ==>
      r[id].requeuedCount == rows[id].requeuedCount + 1 && r[id].requeuedBy == Some(requeuedBy) &&
      r[id].requeuedAt == Some(now)
  {
    if RequeueAccepted(rows, id) then rows[id := Requeued(rows[id], requeuedBy, now)] else rows
  }

  /** What `requeueMessage` publishes: the stored key and value with fresh metadata when
      accepted, nothing otherwise. */
  function RequeuePublished(cfg: Config, rows: map<nat, DlqRecord>, id: nat, requeuedBy: string, now: int): seq<ProducerRecord> {
    if RequeueAccepted(rows, id) then [RequeueRoute(cfg, rows[id].messageKey, rows[id].messageValue, requeuedBy, now)]
    else []
  }

  /** A rejected requeue, whether the id is unknown or the limit reached, changes no row
      and publishes nothing. */
  lemma RejectedRequeueChangesNothing(cfg: Config, rows: map<nat, DlqRecord>, id: nat, requeuedBy: string, now: int)
    requires id !in rows || rows[id].requeuedCount >= MAX_REQUEUES
    ensures RequeueRows(rows, id, requeuedBy, now) == rows
    ensures RequeuePublished(cfg, rows, id, requeuedBy, now) == []
  {
  }

  /** An accepted requeue raises the count by exactly one, records the operator and the
      instant, and changes no other field of that row and no other row. */
  lemma AcceptedRequeueChangesThreeFields(rows: map<nat, DlqRecord>, id: nat, requeuedBy: string, now: int)
    requires RequeueAccepted(rows, id)
    ensures var after := RequeueRows(rows, id, requeuedBy, now);
      && after.Keys == rows.Keys
      && after[id].requeuedCount == rows[id].requeuedCount + 1
      && after[id].requeuedBy == Some(requeuedBy) && after[id].requeuedAt == Some(now)
      && after[id].(requeuedCount := rows[id].requeuedCount, requeuedBy := rows[id].requeuedBy,
                    requeuedAt := rows[id].requeuedAt) == rows[id]
      && forall k :: k in rows && k != id ==> after[k] == rows[k]
  {
  }

  /** `requeueMessage` called `k` times in a row on the same id. */
  function RequeueTimes(rows: map<nat, DlqRecord>, id: nat, requeuedBy: string, now: int, k: nat): map<nat, DlqRecord>
    decreases k
  {
    if k == 0 then rows else RequeueRows(RequeueTimes(rows, id, requeuedBy, now, k - 1), id, requeuedBy, now)
  }

  /** However often a stored message is requeued, its count stops at the limit: starting
      from `c` it is `c + k` until it reaches 3, and then stays (a count already above 3
      is never changed). */
  lemma {:induction false} RequeueCountStopsAtLimit(rows: map<nat, DlqRecord>, id: nat, requeuedBy: string, now: int, k: nat)
    requires id in rows
    ensures var c := rows[id].requeuedCount;
      && id in RequeueTimes(rows, id, requeuedBy, now, k)
      && RequeueTimes(rows, id, requeuedBy, now, k)[id].requeuedCount ==
           if c >= MAX_REQUEUES then c else if c + k <= MAX_REQUEUES as int then c + k else MAX_REQUEUES
    decreases k
  {
    if k > 0 {
      RequeueCountStopsAtLimit(rows, id, requeuedBy, now, k - 1);
    }
  }

  /** A row stored through the creating constructor is requeued once by an operator:
      accepted, count 1, that operator, a requeue instant. */
  lemma NewRowRequeuedOnce(rows: map<nat, DlqRecord>, id: nat, r: DlqRecord, operator: string, now: int)
    requires id in rows && rows[id] == r && r.requeuedCount == 0 && r.requeuedBy.None?
    ensures RequeueAccepted(rows, id)
    ensures var after := RequeueRows(rows, id, operator, now);
      && after[id].requeuedCount == 1 && after[id].requeuedBy == Some(operator) && after[id].requeuedAt.Some?
  {
  }

  /** Requeuing never takes a count from at most 3 to above 3, for any row. */
  lemma RequeueKeepsCountsBounded(rows: map<nat, DlqRecord>, id: nat, requeuedBy: string, now: int)
    requires forall k :: k in rows ==> rows[k].requeuedCount <= MAX_REQUEUES
    ensures var after := RequeueRows(rows, id, requeuedBy, now);
      forall k :: k in after ==> after[k].requeuedCount <= MAX_REQUEUES
  {
  }

  /** The requeueable listing holds exactly the stored rows `requeueMessage` would accept. */
  lemma RequeueableMeansAccepted(rows: map<nat, DlqRecord>, bound: nat, x: Stored)
    requires Bounded(rows, bound)
    ensures multiset(FindRequeueableMessages(rows, bound, MAX_REQUEUES))[x] ==
            if x.id in rows && rows[x.id] == x.row && RequeueAccepted(rows, x.id) then 1 else 0
  {
    FindRequeueableContents(rows, bound, MAX_REQUEUES, x);
  }

  /** The service bean. */
  class DlqService {
    const dlqMessageRepository: DlqMessageRepository
    const retryService: RetryService

    constructor (dlqMessageRepository: DlqMessageRepository, retryService: RetryService)
      ensures this.dlqMessageRepository == dlqMessageRepository && this.retryService == retryService
    {
      this.dlqMessageRepository := dlqMessageRepository;
      this.retryService := retryService;
    }

    /** `getDlqMessages`, without paging. */
    method GetDlqMessages() returns (r: seq<Stored>)
      requires dlqMessageRepository.Valid()
      ensures r == FindAllByOrderByCreatedAtDesc(dlqMessageRepository.rows, dlqMessageRepository.nextId)
      ensures SortedBy(r, true)
      ensures forall x :: x in r <==> x.id in dlqMessageRepository.rows && dlqMessageRepository.rows[x.id] == x.row
    {
      r := FindAllByOrderByCreatedAtDesc(dlqMessageRepository.rows, dlqMessageRepository.nextId);
      forall x ensures x in r <==> x.id in dlqMessageRepository.rows && dlqMessageRepository.rows[x.id] == x.row {
        FindAllReturnsEveryRow(dlqMessageRepository.rows, dlqMessageRepository.nextId, x);
      }
    }

    /** `getDlqMessage`. */
    method GetDlqMessage(id: nat) returns (m: DlqMessage?)
      ensures id in dlqMessageRepository.rows <==> m != null
      ensures m != null ==> fresh(m) && m.id == Some(id) && m.Row() == dlqMessageRepository.rows[id]
    {
      m := dlqMessageRepository.FindById(id);
    }

    /** `getDlqMessagesByKey`. */
    method GetDlqMessagesByKey(messageKey: string) returns (r: seq<Stored>)
      requires dlqMessageRepository.Valid()
      ensures r == FindByMessageKey(dlqMessageRepository.rows, dlqMessageRepository.nextId, messageKey)
      ensures forall x :: x in r <==>
        x.id in dlqMessageRepository.rows && dlqMessageRepository.rows[x.id] == x.row && x.row.messageKey == messageKey
    {
      r := FindByMessageKey(dlqMessageRepository.rows, dlqMessageRepository.nextId, messageKey);
    }

    /** `getOldestMessages`. */
    method GetOldestMessages(cutoffTime: int) returns (r: seq<Stored>)
      requires dlqMessageRepository.Valid()
      ensures r == FindOldestMessages(dlqMessageRepository.rows, dlqMessageRepository.nextId, cutoffTime)
      ensures SortedBy(r, false)
    {
      r := FindOldestMessages(dlqMessageRepository.rows, dlqMessageRepository.nextId, cutoffTime);
    }

    /** `getMessageCountSince`. */
    method GetMessageCountSince(since: int) returns (n: nat)
      requires dlqMessageRepository.Valid()
      ensures n == CountMessagesSince(dlqMessageRepository.rows, dlqMessageRepository.nextId, since)
      ensures n + |FindOldestMessages(dlqMessageRepository.rows, dlqMessageRepository.nextId, since)| ==
              |dlqMessageRepository.rows|
    {
      n := CountMessagesSince(dlqMessageRepository.rows, dlqMessageRepository.nextId, since);
      CountPlusOldestIsTotal(dlqMessageRepository.rows, dlqMessageRepository.nextId, since);
    }

    /** `getRequeueableMessages`, without paging: newest first, exactly the rows that
        `requeueMessage` would accept. */
    method GetRequeueableMessages() returns (r: seq<Stored>)
      requires dlqMessageRepository.Valid()
      ensures r == FindRequeueableMessages(dlqMessageRepository.rows, dlqMessageRepository.nextId, MAX_REQUEUES)
      ensures SortedBy(r, true)
      ensures forall x :: x in r <==>
        x.id in dlqMessageRepository.rows && dlqMessageRepository.rows[x.id] == x.row &&
        RequeueAccepted(dlqMessageRepository.rows, x.id)
    {
      r := FindRequeueableMessages(dlqMessageRepository.rows, dlqMessageRepository.nextId, MAX_REQUEUES);
      forall x ensures x in r <==> x.id in dlqMessageRepository.rows && dlqMessageRepository.rows[x.id] == x.row &&
                                   RequeueAccepted(dlqMessageRepository.rows, x.id) {
        RequeueableMeansAccepted(dlqMessageRepository.rows, dlqMessageRepository.nextId, x);
      }
    }

    /** `requeueMessage`. It returns true once the publish is handed to the producer,
        without waiting for its outcome, and the same false for an unknown id and for a
        message at the limit. */
    method RequeueMessage(id: nat, requeuedBy: string, now: int) returns (ok: bool)
      requires dlqMessageRepository.Valid()
      modifies dlqMessageRepository, retryService.kafkaTemplate
      ensures dlqMessageRepository.Valid()
      ensures ok == RequeueAccepted(old(dlqMessageRepository.rows), id)
      ensures dlqMessageRepository.rows == RequeueRows(old(dlqMessageRepository.rows), id, requeuedBy, now)
      ensures dlqMessageRepository.nextId == old(dlqMessageRepository.nextId)
      ensures retryService.kafkaTemplate.sent == old(retryService.kafkaTemplate.sent) +
        RequeuePublished(retryService.config, old(dlqMessageRepository.rows), id, requeuedBy, now)
    {
      var dlqMessage := dlqMessageRepository.FindById(id);
      if dlqMessage == null {
        return false;
      }
      if dlqMessage.requeuedCount >= MAX_REQUEUES {
        return false;
      }
      retryService.RequeueFromDlq(dlqMessage.messageKey, dlqMessage.messageValue, requeuedBy, now);
      dlqMessage.SetRequeuedCount(dlqMessage.requeuedCount + 1);
      dlqMessage.SetRequeuedBy(Some(requeuedBy));
      dlqMessage.SetRequeuedAt(Some(now));
      dlqMessageRepository.Save(dlqMessage);
      return true;
    }

    /** `deleteDlqMessage`: removes the id, whether or not it is stored. */
    method DeleteDlqMessage(id: nat)
      requires dlqMessageRepository.Valid()
      modifies dlqMessageRepository
      ensures dlqMessageRepository.Valid()
      ensures dlqMessageRepository.rows == old(dlqMessageRepository.rows) - {id}
      ensures forall k :: k in old(dlqMessageRepository.rows) && k != id ==>
                k in dlqMessageRepository.rows && dlqMessageRepository.rows[k] == old(dlqMessageRepository.rows)[k]
    {
      dlqMessageRepository.DeleteById(id);
    }
  }
}
