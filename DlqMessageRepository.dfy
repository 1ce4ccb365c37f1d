/** The dead-letter store: rows keyed by generated ids, the inherited `save`, `findById`
    and `deleteById`, and the declared read-only queries. A query result is a whole
    sequence (no paging); rows that tie on `createdAt` come in id order. */
module DlqMessageRepository {
  import opened Values
  import opened DlqMessage

  /** A row together with its id, as a query returns it. */
  datatype Stored = Stored(id: nat, row: DlqRecord)

  /** The selection of a query's WHERE clause (`All` for none). */
  datatype Criterion =
    | All
    | ByKey(messageKey: string)              // messageKey = :messageKey
    | OlderThan(cutoffTime: int)             // createdAt < :cutoffTime
    | Since(since: int)                      // createdAt >= :since
    | RequeueableBelow(maxRequeues: int32)   // requeuedCount < :maxRequeues

  predicate Matches(c: Criterion, r: DlqRecord) {
    match c
    case All => true
    case ByKey(k) => r.messageKey == k
    case OlderThan(t) => r.createdAt < t
    case Since(t) => r.createdAt >= t
    case RequeueableBelow(m) => r.requeuedCount < m
  }

  /** Every id of `rows` is below `bound`. */
  predicate Bounded(rows: map<nat, DlqRecord>, bound: nat) {
    forall id :: id in rows ==> id < bound
  }

  /** The rows with an id below `n` that match `c`, in increasing id order. */
  function Select(rows: map<nat, DlqRecord>, c: Criterion, n: nat): (r: seq<Stored>)
    ensures forall x :: x in r <==> x.id < n && x.id in rows && rows[x.id] == x.row && Matches(c, x.row)
    ensures forall i, j :: 0 <= i < j < |r| ==> r[i].id < r[j].id
    decreases n
  {
    if n == 0 then []
    else
      var s := Select(rows, c, n - 1);
      var k := n - 1;
      if k in rows && Matches(c, rows[k]) then s + [Stored(k, rows[k])] else s
  }

  /** `a` may come before `b` in the requested `createdAt` order. */
  predicate InOrder(a: Stored, b: Stored, descending: bool) {
    if descending then a.row.createdAt >= b.row.createdAt else a.row.createdAt <= b.row.createdAt
  }

  predicate SortedBy(s: seq<Stored>, descending: bool) {
    forall i, j :: 0 <= i < j < |s| ==> InOrder(s[i], s[j], descending)
  }

  /** Puts `x` into a sorted sequence behind every element it does not strictly precede. */
  function Insert(x: Stored, s: seq<Stored>, descending: bool): (r: seq<Stored>)
    requires SortedBy(s, descending)
    ensures SortedBy(r, descending)
    ensures multiset(r) == multiset(s) + multiset{x}
    decreases |s|
  {
    if s == [] then [x]
    else if InOrder(x, s[0], descending) && !InOrder(s[0], x, descending) then [x] + s
    else
      var t := Insert(x, s[1..], descending);
      assert s == [s[0]] + s[1..];
      assert forall i :: 0 <= i < |s[1..]| ==> InOrder(s[0], s[1..][i], descending) by {
        forall i | 0 <= i < |s[1..]| ensures InOrder(s[0], s[1..][i], descending) { assert s[1..][i] == s[i + 1]; }
      }
      PrecedesAll(s[0], t, s[1..], x, descending);
      [s[0]] + t
  }

  /** What may precede every element of `s` and `x` may precede every element of a
      rearrangement of `s` plus `x`. */
  lemma PrecedesAll(a: Stored, t: seq<Stored>, s: seq<Stored>, x: Stored, descending: bool)
    requires multiset(t) == multiset(s) + multiset{x}
    requires InOrder(a, x, descending) && forall i :: 0 <= i < |s| ==> InOrder(a, s[i], descending)
    ensures forall i :: 0 <= i < |t| ==> InOrder(a, t[i], descending)
  {
    forall i | 0 <= i < |t| ensures InOrder(a, t[i], descending) {
      assert t[i] in multiset(t);
      if t[i] != x {
        assert t[i] in multiset(s);
      }
    }
  }

  /** A stable insertion sort by `createdAt`. */
  function SortByCreatedAt(s: seq<Stored>, descending: bool): (r: seq<Stored>)
    ensures SortedBy(r, descending)
    ensures multiset(r) == multiset(s)
    decreases |s|
  {
    if s == [] then []
    else
      assert s == s[..|s| - 1] + [s[|s| - 1]];
      Insert(s[|s| - 1], SortByCreatedAt(s[..|s| - 1], descending), descending)
  }

  /** `findAllByOrderByCreatedAtDesc`. */
  function FindAllByOrderByCreatedAtDesc(rows: map<nat, DlqRecord>, bound: nat): (r: seq<Stored>)
    ensures SortedBy(r, true) && multiset(r) == multiset(Select(rows, All, bound))
  {
    SortByCreatedAt(Select(rows, All, bound), true)
  }

  /** `findByMessageKey`. */
  function FindByMessageKey(rows: map<nat, DlqRecord>, bound: nat, messageKey: string): (r: seq<Stored>)
    ensures forall x :: x in r <==> x.id < bound && x.id in rows && rows[x.id] == x.row && x.row.messageKey == messageKey
  {
    Select(rows, ByKey(messageKey), bound)
  }

  /** `findOldestMessages`. */
  function FindOldestMessages(rows: map<nat, DlqRecord>, bound: nat, cutoffTime: int): (r: seq<Stored>)
    ensures SortedBy(r, false) && multiset(r) == multiset(Select(rows, OlderThan(cutoffTime), bound))
  {
    SortByCreatedAt(Select(rows, OlderThan(cutoffTime), bound), false)
  }

  /** `countMessagesSince`. */
  function CountMessagesSince(rows: map<nat, DlqRecord>, bound: nat, since: int): (n: nat)
    ensures n == 0 <==> forall id :: id in rows && id < bound ==> rows[id].createdAt < since
  {
    var s := Select(rows, Since(since), bound);
    assert s != [] ==> s[0] in s;
    assert forall id :: id in rows && id < bound && rows[id].createdAt >= since ==> Stored(id, rows[id]) in s;
    |s|
  }

  /** `findRequeueableMessages`. */
  function FindRequeueableMessages(rows: map<nat, DlqRecord>, bound: nat, maxRequeues: int32): (r: seq<Stored>)
    ensures SortedBy(r, true) && multiset(r) == multiset(Select(rows, RequeueableBelow(maxRequeues), bound))
  {
    SortByCreatedAt(Select(rows, RequeueableBelow(maxRequeues), bound), true)
  }

  /** A sorted query returns each matching row exactly once, and nothing else. */
  lemma SortedQueryContents(rows: map<nat, DlqRecord>, bound: nat, c: Criterion, descending: bool, x: Stored)
    requires Bounded(rows, bound)
    ensures var r := SortByCreatedAt(Select(rows, c, bound), descending);
      && SortedBy(r, descending)
      && multiset(r)[x] == if x.id in rows && rows[x.id] == x.row && Matches(c, x.row) then 1 else 0
  {
    var s := Select(rows, c, bound);
    SelectOnce(s, x);
  }

  /** A sequence with strictly increasing ids holds any element at most once. */
  lemma {:induction false} SelectOnce(s: seq<Stored>, x: Stored)
    requires forall i, j :: 0 <= i < j < |s| ==> s[i].id < s[j].id
    ensures multiset(s)[x] == if x in s then 1 else 0
    decreases |s|
  {
    if s != [] {
      var t := s[..|s| - 1];
      assert s == t + [s[|s| - 1]];
      SelectOnce(t, x);
      if x == s[|s| - 1] {
        assert x !in t by {
          forall i | 0 <= i < |t| ensures t[i] != x { assert s[i].id < s[|s| - 1].id; }
        }
      }
    }
  }

  /** `findAllByOrderByCreatedAtDesc` returns every stored row once, newest first. */
  lemma FindAllReturnsEveryRow(rows: map<nat, DlqRecord>, bound: nat, x: Stored)
    requires Bounded(rows, bound)
    ensures SortedBy(FindAllByOrderByCreatedAtDesc(rows, bound), true)
    ensures multiset(FindAllByOrderByCreatedAtDesc(rows, bound))[x] ==
            if x.id in rows && rows[x.id] == x.row then 1 else 0
  {
    SortedQueryContents(rows, bound, All, true, x);
  }

  /** `findByMessageKey` returns exactly the rows with that key, each once. */
  lemma FindByMessageKeyContents(rows: map<nat, DlqRecord>, bound: nat, messageKey: string, x: Stored)
    requires Bounded(rows, bound)
    ensures x in FindByMessageKey(rows, bound, messageKey) <==>
            x.id in rows && rows[x.id] == x.row && x.row.messageKey == messageKey
    ensures multiset(FindByMessageKey(rows, bound, messageKey))[x] <= 1
  {
    SelectOnce(FindByMessageKey(rows, bound, messageKey), x);
  }

  /** `findOldestMessages(c)` returns exactly the rows created before `c`, oldest first. */
  lemma FindOldestContents(rows: map<nat, DlqRecord>, bound: nat, cutoffTime: int, x: Stored)
    requires Bounded(rows, bound)
    ensures SortedBy(FindOldestMessages(rows, bound, cutoffTime), false)
    ensures multiset(FindOldestMessages(rows, bound, cutoffTime))[x] ==
            if x.id in rows && rows[x.id] == x.row && x.row.createdAt < cutoffTime then 1 else 0
  {
    SortedQueryContents(rows, bound, OlderThan(cutoffTime), false, x);
  }

  /** `findRequeueableMessages(m)` returns exactly the rows requeued fewer than `m` times,
      newest first. */
  lemma FindRequeueableContents(rows: map<nat, DlqRecord>, bound: nat, maxRequeues: int32, x: Stored)
    requires Bounded(rows, bound)
    ensures SortedBy(FindRequeueableMessages(rows, bound, maxRequeues), true)
    ensures multiset(FindRequeueableMessages(rows, bound, maxRequeues))[x] ==
            if x.id in rows && rows[x.id] == x.row && x.row.requeuedCount < maxRequeues then 1 else 0
  {
    SortedQueryContents(rows, bound, RequeueableBelow(maxRequeues), true, x);
  }

  /** The ids of `rows` below `n`. */
  function IdsBelow(rows: map<nat, DlqRecord>, n: nat): set<nat> {
    set id | id in rows && id < n
  }

  /** Rows created since `t` and rows created before `t` split all rows below `n`. */
  lemma {:induction false} SinceAndOlderSplit(rows: map<nat, DlqRecord>, n: nat, t: int)
    ensures |Select(rows, Since(t), n)| + |Select(rows, OlderThan(t), n)| == |IdsBelow(rows, n)|
    decreases n
  {
    if n > 0 {
      SinceAndOlderSplit(rows, n - 1, t);
      var k := n - 1;
      if k in rows {
        assert IdsBelow(rows, n) == IdsBelow(rows, k) + {k};
      } else {
        assert IdsBelow(rows, n) == IdsBelow(rows, k);
      }
    }
  }

  /** For any instant, `countMessagesSince` plus the number of `findOldestMessages` rows
      is the number of stored rows. */
  lemma CountPlusOldestIsTotal(rows: map<nat, DlqRecord>, bound: nat, t: int)
    requires Bounded(rows, bound)
    ensures CountMessagesSince(rows, bound, t) + |FindOldestMessages(rows, bound, t)| == |rows|
  {
    SinceAndOlderSplit(rows, bound, t);
    assert IdsBelow(rows, bound) == rows.Keys;
    var s := Select(rows, OlderThan(t), bound);
    assert |SortByCreatedAt(s, false)| == |multiset(SortByCreatedAt(s, false))| == |multiset(s)| == |s|;
  }

  /** The store: every row under its id, and the next id to hand out. */
  class DlqMessageRepository {
    var rows: map<nat, DlqRecord>
    var nextId: nat

    /** Every stored id was handed out before `nextId`. */
    predicate Valid()
      reads this
    {
      Bounded(rows, nextId)
    }

    constructor ()
      ensures Valid() && rows == map[] && nextId == 0
    {
      rows := map[];
      nextId := 0;
    }

    /** `save`: an entity without an id (or with one not stored) is inserted under a new id,
        which is written back to it; an entity with a stored id overwrites that row. */
    method Save(m: DlqMessage)
      requires Valid()
      modifies this, m
      ensures Valid()
      ensures m.Row() == old(m.Row())
      ensures old(m.id).Some? && old(m.id).value in old(rows) ==>
        m.id == old(m.id) && rows == old(rows)[m.id.value := m.Row()] && nextId == old(nextId)
      ensures !(old(m.id).Some? && old(m.id).value in old(rows)) ==>
        m.id == Some(old(nextId)) && old(nextId) !in old(rows) &&
        rows == old(rows)[old(nextId) := m.Row()] && nextId == old(nextId) + 1
    {
      if m.id.Some? && m.id.value in rows {
        rows := rows[m.id.value := m.Row()];
      } else {
        m.SetId(Some(nextId));
        rows := rows[nextId := m.Row()];
        nextId := nextId + 1;
      }
    }

    /** `findById`: a fresh entity holding the stored row, or null. */
    method FindById(id: nat) returns (m: DlqMessage?)
      ensures id in rows <==> m != null
      ensures m != null ==> fresh(m) && m.id == Some(id) && m.Row() == rows[id]
    {
      if id !in rows {
        return null;
      }
      var r := rows[id];
      m := new DlqMessage(r.messageKey, r.messageValue, r.originalTopic, r.originalPartition, r.originalOffset,
                          r.retryCount, r.firstSeenTs, r.lastError, r.stacktrace, r.createdAt);
      m.SetRequeuedCount(r.requeuedCount);
      m.SetRequeuedBy(r.requeuedBy);
      m.SetRequeuedAt(r.requeuedAt);
      m.SetId(Some(id));
    }

    /** `deleteById`: the row goes if it was there; nothing else changes. */
    method DeleteById(id: nat)
      requires Valid()
      modifies this
      ensures Valid()
      ensures rows == old(rows) - {id} && nextId == old(nextId)
    {
      rows := rows - {id};
    }
  }
}
