/** Transient-versus-permanent classification of a processing failure, and the retry
    decision built on it. Java's runtime type tests become a tagged error kind; the two
    case-insensitive regular expressions become a keyword search on the message. */
module ErrorClassifier {
  import opened Values

  datatype ErrorType = Transient | Permanent

  /** The exception class of a failure, as far as the classifier tells classes apart.
      Subclasses are filed under the class they extend (a `NumberFormatException` is an
      `IllegalArgument`, a JSON `JsonProcessingException` an `IO`). */
  datatype ErrorKind =
    | OrderProcessing(declared: ErrorType)   // OrderProcessingException, carrying its own type
    | IO                                      // java.io.IOException
    | SocketTimeout                           // java.net.SocketTimeoutException
    | Timeout                                 // java.util.concurrent.TimeoutException
    | UnknownHost                             // java.net.UnknownHostException
    | IllegalArgument
    | IllegalState
    | UnsupportedOperation
    | Other

  /** A thrown exception: its class, its (nullable) message and its printed stack trace. */
  datatype Failure = Failure(kind: ErrorKind, message: Option<string>, stackTrace: string)

  /** Alternatives of `VALIDATION_ERROR_PATTERN`. */
  const VALIDATION_KEYWORDS: seq<string> := ["validation", "invalid", "malformed", "schema", "format"]

  /** Alternatives of `BUSINESS_LOGIC_ERROR_PATTERN`. */
  const BUSINESS_KEYWORDS: seq<string> := ["insufficient", "not found", "duplicate", "conflict", "forbidden"]

  predicate IsNetworkKind(k: ErrorKind) {
    k.IO? || k.SocketTimeout? || k.Timeout? || k.UnknownHost?
  }

  predicate IsArgumentOrStateKind(k: ErrorKind) {
    k.IllegalArgument? || k.IllegalState? || k.UnsupportedOperation?
  }

  /** The characters Java's `.` refuses to match without DOTALL. */
  predicate IsLineTerminator(c: char) {
    c == '\n' || c == '\r' || c == '\U{85}' || c == '\U{2028}' || c == '\U{2029}'
  }

  /** `(?i)` without UNICODE_CASE folds the US-ASCII letters only. */
  function ToLowerAscii(c: char): char {
    if 'A' <= c <= 'Z' then (c as int + 32) as char else c
  }

  function LowerAscii(s: string): (r: string)
    ensures |r| == |s|
    ensures forall i :: 0 <= i < |s| ==> r[i] == ToLowerAscii(s[i])
  {
    seq(|s|, i requires 0 <= i < |s| => ToLowerAscii(s[i]))
  }

  /** `k` occurs in `s` at position `i`. */
  predicate OccursAt(s: string, k: string, i: int) {
    0 <= i && i + |k| <= |s| && s[i..i + |k|] == k
  }

  /** Dropping the first character shifts every later slice left by one. */
  lemma SliceAfterHead(s: string, i: int, n: nat)
    requires 1 <= i && i + n <= |s|
    ensures s[1..][i - 1..i - 1 + n] == s[i..i + n]
  {
    var shifted, direct := s[1..][i - 1..i - 1 + n], s[i..i + n];
    forall j | 0 <= j < n ensures shifted[j] == direct[j] {
      assert direct[j] == s[i + j];
    }
  }

  /** Substring search, one starting position at a time. */
  function Contains(s: string, k: string): (b: bool)
    ensures b <==> exists i :: OccursAt(s, k, i)
    decreases |s|
  {
    if |s| < |k| then false
    else if s[..|k|] == k then assert OccursAt(s, k, 0); true
    else
      var b := Contains(s[1..], k);
      if b then
        var i :| OccursAt(s[1..], k, i);
        assert OccursAt(s, k, i + 1) by { SliceAfterHead(s, i + 1, |k|); }
        true
      else
        assert forall i :: OccursAt(s, k, i) ==> i == 0 || OccursAt(s[1..], k, i - 1) by {
          forall i | OccursAt(s, k, i) && i != 0 ensures OccursAt(s[1..], k, i - 1) {
            SliceAfterHead(s, i, |k|);
          }
        }
        false
  }

  predicate ContainsAny(s: string, keywords: seq<string>) {
    exists j :: 0 <= j < |keywords| && Contains(s, keywords[j])
  }

  /** `matcher(message).matches()` for `(?i).*(k1|k2|...).*`: the whole message must be
      matched, so a line terminator anywhere defeats the match. */
  predicate PatternMatches(message: string, keywords: seq<string>) {
    (forall i :: 0 <= i < |message| ==> !IsLineTerminator(message[i]))
    && ContainsAny(LowerAscii(message), keywords)
  }

  /** The message test of `classifyError`: either pattern matches. */
  predicate MessageLooksPermanent(message: Option<string>) {
    message.Some? &&
    (PatternMatches(message.value, VALIDATION_KEYWORDS) || PatternMatches(message.value, BUSINESS_KEYWORDS))
  }

  /** `classifyError`: the rules in priority order. `None` is a null throwable. */
  function ClassifyError(e: Option<Failure>): (t: ErrorType)
    ensures e.Some? && e.value.kind.OrderProcessing? ==> t == e.value.kind.declared
    ensures t == Permanent ==> e.Some? && (e.value.kind.OrderProcessing? || !IsNetworkKind(e.value.kind))
  {
    match e
    case None => Transient
    case Some(f) =>
      if f.kind.OrderProcessing? then f.kind.declared
      else if IsNetworkKind(f.kind) then Transient
      else if MessageLooksPermanent(f.message) then Permanent
      else if IsArgumentOrStateKind(f.kind) then Permanent
      else Transient
  }

  /** `shouldRetry`: never for a permanent error, otherwise while attempts remain. */
  function ShouldRetry(e: Option<Failure>, currentRetryCount: int32, maxRetries: int32): (r: bool)
    ensures r <==> ClassifyError(e) == Transient && currentRetryCount < maxRetries
  {
    ClassifyError(e) != Permanent && currentRetryCount < maxRetries
  }

  lemma NullIsTransient()
    ensures ClassifyError(None) == Transient
  {
  }

  /** An `OrderProcessingException` is classified by its declared type alone. */
  lemma DeclaredTypeWins(t: ErrorType, message: Option<string>, trace: string)
    ensures ClassifyError(Some(Failure(OrderProcessing(t), message, trace))) == t
  {
  }

  /** Network and timeout errors are transient whatever their message says. */
  lemma NetworkErrorsAreTransient(f: Failure)
    requires IsNetworkKind(f.kind)
    ensures ClassifyError(Some(f)) == Transient
  {
  }

  /** A single-line message containing a permanent keyword in any ASCII letter case makes
      an error that is neither explicit nor network-class permanent. */
  lemma KeywordMakesPermanent(f: Failure, j: nat, i: nat)
    requires !f.kind.OrderProcessing? && !IsNetworkKind(f.kind)
    requires f.message.Some?
    requires forall c :: 0 <= c < |f.message.value| ==> !IsLineTerminator(f.message.value[c])
    requires j < |VALIDATION_KEYWORDS + BUSINESS_KEYWORDS|
    requires OccursAt(LowerAscii(f.message.value), (VALIDATION_KEYWORDS + BUSINESS_KEYWORDS)[j], i)
    ensures ClassifyError(Some(f)) == Permanent
  {
    var lower := LowerAscii(f.message.value);
    var all := VALIDATION_KEYWORDS + BUSINESS_KEYWORDS;
    assert Contains(lower, all[j]);
    if j < |VALIDATION_KEYWORDS| {
      assert all[j] == VALIDATION_KEYWORDS[j];
      assert ContainsAny(lower, VALIDATION_KEYWORDS);
    } else {
      assert all[j] == BUSINESS_KEYWORDS[j - |VALIDATION_KEYWORDS|];
      assert ContainsAny(lower, BUSINESS_KEYWORDS);
    }
  }

  /** A message spanning several lines never matches either pattern. */
  lemma LineTerminatorDefeatsKeywords(message: string, c: nat)
    requires c < |message| && IsLineTerminator(message[c])
    ensures !MessageLooksPermanent(Some(message))
  {
  }

  /** Without a keyword match, argument/state/unsupported-operation errors are permanent
      and every other non-explicit error is transient. */
  lemma KindDecidesWithoutKeyword(f: Failure)
    requires !f.kind.OrderProcessing? && !MessageLooksPermanent(f.message)
    ensures ClassifyError(Some(f)) == (if IsArgumentOrStateKind(f.kind) then Permanent else Transient)
  {
  }

  /** The whole classification in one statement: permanent exactly when declared so, or
      when a non-network error has a keyword message or an argument/state class. */
  lemma PermanentCharacterisation(f: Failure)
    ensures ClassifyError(Some(f)) == Permanent <==>
      (f.kind.OrderProcessing? && f.kind.declared == Permanent) ||
      (!f.kind.OrderProcessing? && !IsNetworkKind(f.kind) &&
       (MessageLooksPermanent(f.message) || IsArgumentOrStateKind(f.kind)))
  {
  }

  /** A permanent error is never retried, whatever the counts. */
  lemma PermanentNeverRetried(e: Option<Failure>, count: int32, max: int32)
    requires ClassifyError(e) == Permanent
    ensures !ShouldRetry(e, count, max)
  {
  }

  /** A transient error is retried exactly while the count is below the maximum. */
  lemma TransientRetriedBelowMax(e: Option<Failure>, count: int32, max: int32)
    requires ClassifyError(e) == Transient
    ensures ShouldRetry(e, count, max) <==> count < max
  {
  }

  /** Once retrying is refused at some count it stays refused at every larger count. */
  lemma RefusalIsMonotone(e: Option<Failure>, n: int32, m: int32, max: int32)
    requires n <= m && !ShouldRetry(e, n, max)
    ensures !ShouldRetry(e, m, max)
  {
  }
}
