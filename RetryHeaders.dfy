/** Typed, defaulted reads of the retry metadata carried in record headers. A header
    collection may be null (`None`); a header read is the value of the LAST header with the
    key; numbers are decimal text and a malformed number is an exception, not a default. */
module RetryHeaders {
  import opened Values
  import opened Decimal
  import opened Kafka

  const RETRY_COUNT: string := "x-retry-count"
  const FIRST_SEEN_TS: string := "x-first-seen-ts"
  const LAST_ERROR: string := "x-last-error"
  const STACKTRACE: string := "x-stacktrace"
  const ORIGINAL_TOPIC: string := "x-original-topic"
  const ORIGINAL_PARTITION: string := "x-original-partition"
  const ORIGINAL_OFFSET: string := "x-original-offset"
  const RETRY_UNTIL: string := "x-retry-until"
  const NEXT_AT: string := "x-next-at"
  const REQUEUED_BY: string := "x-requeued-by"
  const MAX_REQUEUES: string := "x-max-requeues"

  /** Text of an instant (`Instant.toString`); here the decimal epoch second. */
  function FormatInstant(t: int): string {
    FormatInt(t)
  }

  /** `Instant.parse`, failing with `DateTimeParseException` on anything but an instant's text. */
  function ParseInstant(s: string): (r: Result<int>)
    ensures r.Err? ==> r.error == DateTimeParseException(s)
  {
    match ParseDecimal(s)
    case Some(v) => Ok(v)
    case None => Err(DateTimeParseException(s))
  }

  lemma ParseFormatInstant(t: int)
    ensures ParseInstant(FormatInstant(t)) == Ok(t)
  {
    ParseFormat(t);
  }

  /** `getHeaderAsString`: absent when the collection is null, the key is missing or the
      last header with the key has a null value. */
  function GetHeaderAsString(headers: Option<seq<Header>>, key: string): (r: Option<string>)
    ensures headers.None? ==> r.None?
    ensures r.Some? ==> headers.Some? && LastHeader(headers.value, key) == Some(Header(key, r))
  {
    match headers
    case None => None
    case Some(hs) =>
      match LastHeader(hs, key)
      case None => None
      case Some(h) => h.value
  }

  /** `getHeaderAsInt`: `Integer.parseInt` applied to a present value; absence stays absent. */
  function GetHeaderAsInt(headers: Option<seq<Header>>, key: string): (r: Result<Option<int32>>)
    ensures GetHeaderAsString(headers, key).None? <==> r == Ok(None)
    ensures GetHeaderAsString(headers, key).Some? ==>
      r == (var p := ParseInt32(GetHeaderAsString(headers, key).value); if p.Ok? then Ok(Some(p.value)) else Err(p.error))
  {
    match GetHeaderAsString(headers, key)
    case None => Ok(None)
    case Some(s) =>
      match ParseInt32(s)
      case Ok(v) => Ok(Some(v))
      case Err(e) => Err(e)
  }

  /** `getHeaderAsLong`: as `GetHeaderAsInt` with `Long.parseLong`. */
  function GetHeaderAsLong(headers: Option<seq<Header>>, key: string): (r: Result<Option<int64>>)
    ensures GetHeaderAsString(headers, key).None? <==> r == Ok(None)
    ensures GetHeaderAsString(headers, key).Some? ==>
      r == (var p := ParseInt64(GetHeaderAsString(headers, key).value); if p.Ok? then Ok(Some(p.value)) else Err(p.error))
  {
    match GetHeaderAsString(headers, key)
    case None => Ok(None)
    case Some(s) =>
      match ParseInt64(s)
      case Ok(v) => Ok(Some(v))
      case Err(e) => Err(e)
  }

  /** An instant-valued header, parsed when present. */
  function GetHeaderAsInstant(headers: Option<seq<Header>>, key: string): (r: Result<Option<int>>)
    ensures GetHeaderAsString(headers, key).None? <==> r == Ok(None)
    ensures GetHeaderAsString(headers, key).Some? ==>
      r == (var p := ParseInstant(GetHeaderAsString(headers, key).value); if p.Ok? then Ok(Some(p.value)) else Err(p.error))
  {
    match GetHeaderAsString(headers, key)
    case None => Ok(None)
    case Some(s) =>
      match ParseInstant(s)
      case Ok(v) => Ok(Some(v))
      case Err(e) => Err(e)
  }

  function OrElse<T>(r: Result<Option<T>>, default: T): Result<T> {
    match r
    case Ok(o) => Ok(o.GetOr(default))
    case Err(e) => Err(e)
  }

  function GetRetryCount(headers: Option<seq<Header>>): (r: Result<int32>)
    ensures GetHeaderAsString(headers, RETRY_COUNT).None? ==> r == Ok(0)
    ensures GetHeaderAsString(headers, RETRY_COUNT).Some? ==> r == ParseInt32(GetHeaderAsString(headers, RETRY_COUNT).value)
  {
    OrElse(GetHeaderAsInt(headers, RETRY_COUNT), 0)
  }

  /** Defaults to the current instant `now` when absent. */
  function GetFirstSeenTimestamp(headers: Option<seq<Header>>, now: int): (r: Result<int>)
    ensures GetHeaderAsString(headers, FIRST_SEEN_TS).None? ==> r == Ok(now)
    ensures GetHeaderAsString(headers, FIRST_SEEN_TS).Some? ==> r == ParseInstant(GetHeaderAsString(headers, FIRST_SEEN_TS).value)
  {
    OrElse(GetHeaderAsInstant(headers, FIRST_SEEN_TS), now)
  }

  function GetLastError(headers: Option<seq<Header>>): (r: string)
    ensures GetHeaderAsString(headers, LAST_ERROR).None? ==> r == "Unknown error"
    ensures GetHeaderAsString(headers, LAST_ERROR).Some? ==> r == GetHeaderAsString(headers, LAST_ERROR).value
  {
    GetHeaderAsString(headers, LAST_ERROR).GetOr("Unknown error")
  }

  function GetOriginalTopic(headers: Option<seq<Header>>): (r: string)
    ensures GetHeaderAsString(headers, ORIGINAL_TOPIC).None? ==> r == "unknown"
    ensures GetHeaderAsString(headers, ORIGINAL_TOPIC).Some? ==> r == GetHeaderAsString(headers, ORIGINAL_TOPIC).value
  {
    GetHeaderAsString(headers, ORIGINAL_TOPIC).GetOr("unknown")
  }

  function GetOriginalPartition(headers: Option<seq<Header>>): (r: Result<int32>)
    ensures GetHeaderAsString(headers, ORIGINAL_PARTITION).None? ==> r == Ok(-1)
    ensures GetHeaderAsString(headers, ORIGINAL_PARTITION).Some? ==> r == ParseInt32(GetHeaderAsString(headers, ORIGINAL_PARTITION).value)
  {
    OrElse(GetHeaderAsInt(headers, ORIGINAL_PARTITION), -1)
  }

  function GetOriginalOffset(headers: Option<seq<Header>>): (r: Result<int64>)
    ensures GetHeaderAsString(headers, ORIGINAL_OFFSET).None? ==> r == Ok(-1)
    ensures GetHeaderAsString(headers, ORIGINAL_OFFSET).Some? ==> r == ParseInt64(GetHeaderAsString(headers, ORIGINAL_OFFSET).value)
  {
    OrElse(GetHeaderAsLong(headers, ORIGINAL_OFFSET), -1)
  }

  /** Null (`None`) when absent. */
  function GetNextAt(headers: Option<seq<Header>>): (r: Result<Option<int>>)
    ensures GetHeaderAsString(headers, NEXT_AT).None? ==> r == Ok(None)
    ensures GetHeaderAsString(headers, NEXT_AT).Some? ==>
      r == (var p := ParseInstant(GetHeaderAsString(headers, NEXT_AT).value); if p.Ok? then Ok(Some(p.value)) else Err(p.error))
  {
    GetHeaderAsInstant(headers, NEXT_AT)
  }

  /** Null (`None`) when absent. */
  function GetRequeuedBy(headers: Option<seq<Header>>): (r: Option<string>)
    ensures r.Some? ==> headers.Some? && LastHeader(headers.value, REQUEUED_BY) == Some(Header(REQUEUED_BY, r))
    ensures headers.None? ==> r.None?
  {
    GetHeaderAsString(headers, REQUEUED_BY)
  }

  function GetMaxRequeues(headers: Option<seq<Header>>): (r: Result<int32>)
    ensures GetHeaderAsString(headers, MAX_REQUEUES).None? ==> r == Ok(3)
    ensures GetHeaderAsString(headers, MAX_REQUEUES).Some? ==> r == ParseInt32(GetHeaderAsString(headers, MAX_REQUEUES).value)
  {
    OrElse(GetHeaderAsInt(headers, MAX_REQUEUES), 3)
  }

  /** A key no header carries, or a null collection, reads as absent. */
  lemma MissingKeyReadsAbsent(headers: Option<seq<Header>>, key: string)
    requires headers.Some? ==> forall i :: 0 <= i < |headers.value| ==> headers.value[i].key != key
    ensures GetHeaderAsString(headers, key) == None
  {
  }

  /** Every getter falls back to its documented default when its header reads as absent. */
  lemma DefaultsWhenAbsent(headers: Option<seq<Header>>, now: int)
    ensures GetHeaderAsString(headers, RETRY_COUNT).None? ==> GetRetryCount(headers) == Ok(0)
    ensures GetHeaderAsString(headers, FIRST_SEEN_TS).None? ==> GetFirstSeenTimestamp(headers, now) == Ok(now)
    ensures GetHeaderAsString(headers, LAST_ERROR).None? ==> GetLastError(headers) == "Unknown error"
    ensures GetHeaderAsString(headers, ORIGINAL_TOPIC).None? ==> GetOriginalTopic(headers) == "unknown"
    ensures GetHeaderAsString(headers, ORIGINAL_PARTITION).None? ==> GetOriginalPartition(headers) == Ok(-1)
    ensures GetHeaderAsString(headers, ORIGINAL_OFFSET).None? ==> GetOriginalOffset(headers) == Ok(-1)
    ensures GetHeaderAsString(headers, NEXT_AT).None? ==> GetNextAt(headers) == Ok(None)
    ensures GetHeaderAsString(headers, REQUEUED_BY).None? ==> GetRequeuedBy(headers) == None
    ensures GetHeaderAsString(headers, MAX_REQUEUES).None? ==> GetMaxRequeues(headers) == Ok(3)
  {
  }

  /** With a null collection every getter gives its default. */
  lemma NullHeadersGiveDefaults(now: int)
    ensures GetRetryCount(None) == Ok(0) && GetFirstSeenTimestamp(None, now) == Ok(now)
    ensures GetLastError(None) == "Unknown error" && GetOriginalTopic(None) == "unknown"
    ensures GetOriginalPartition(None) == Ok(-1) && GetOriginalOffset(None) == Ok(-1)
    ensures GetNextAt(None) == Ok(None) && GetRequeuedBy(None) == None && GetMaxRequeues(None) == Ok(3)
  {
  }

  /** When a key occurs several times, the value read is that of its last occurrence. */
  lemma {:induction false} LastOccurrenceWins(hs: seq<Header>, i: nat, key: string)
    requires i < |hs| && hs[i].key == key
    requires forall j :: i < j < |hs| ==> hs[j].key != key
    ensures GetHeaderAsString(Some(hs), key) == hs[i].value
  {
    var r := LastHeader(hs, key);
    var k :| 0 <= k < |hs| && hs[k] == r.value && forall j :: k < j < |hs| ==> hs[j].key != key;
    assert k == i;
  }

  /** A present numeric header that does not parse makes the getter throw; the default
      covers absence only. */
  lemma MalformedNumberThrows(headers: Option<seq<Header>>, s: string)
    requires ParseInt32(s).Err? && ParseInt64(s).Err?
    ensures GetHeaderAsString(headers, RETRY_COUNT) == Some(s) ==> GetRetryCount(headers) == Err(NumberFormatException(s))
    ensures GetHeaderAsString(headers, ORIGINAL_PARTITION) == Some(s) ==> GetOriginalPartition(headers) == Err(NumberFormatException(s))
    ensures GetHeaderAsString(headers, ORIGINAL_OFFSET) == Some(s) ==> GetOriginalOffset(headers) == Err(NumberFormatException(s))
    ensures GetHeaderAsString(headers, MAX_REQUEUES) == Some(s) ==> GetMaxRequeues(headers) == Err(NumberFormatException(s))
  {
  }
}
