/** Values shared by every part of the model: texts, JSON, time, clock readings and errors. */
module Basics {
  /** Largest value of PostgreSQL's 32-bit `integer`. */
  const INT_MAX: int := 2147483647

  /** Largest value of PostgreSQL's 64-bit `bigint`. */
  const BIGINT_MAX: int := 9223372036854775807

  /** Largest value of a 64-bit unsigned counter. */
  const U64_MAX: int := 18446744073709551615

  /** Nanoseconds in a second. */
  const NANOS: int := 1_000_000_000

  /** Longest persisted name, in bytes. */
  const MAX_NAME_BYTES: nat := 1024

  /** Seconds on the database clock. */
  type Time = real

  /** A text, written as the sequence of its UTF-8 bytes, so that `|s|` is its octet length. */
  type Text = string

  datatype Option<+T> = None | Some(value: T)

  datatype Error =
    | TaskCancelled           // SQLSTATE ST001
    | RunAlreadyFailed        // SQLSTATE ST002
    | LeaseLost               // SQLSTATE ST003
    | IdempotencyConflict     // SQLSTATE ST004
    | NotFound
    | NotRunning
    | NotAuthoritative
    | NoFiniteLease
    | LeaseNotExpired
    | UnsupportedState
    | WrongTask
    | NotFailed
    | DeadlineElapsed
    | IntegerOutOfRange
    | ConstraintViolation
    | InvalidStrategy
    | InvalidArgument
    | TaskSuspended           // the attempt has been put to sleep
    | UndecodableValue        // a stored value does not have the expected type
    | InvalidTaskHeaders

  datatype Result<+T> = Ok(value: T) | Err(error: Error)

  datatype Json =
    | JNull
    | JBool(flag: bool)
    | JNumber(number: real)
    | JString(text: Text)
    | JArray(items: seq<Json>)
    | JObject(fields: map<Text, Json>)

  predicate IsSpace(ch: char) {
    ch == ' ' || '\U{9}' <= ch <= '\U{d}'
  }

  /** No byte other than white space: the texts that every name check refuses. */
  predicate Blank(s: Text) {
    forall i :: 0 <= i < |s| ==> IsSpace(s[i])
  }

  /** The CHECK on task, checkpoint and idempotency names. */
  predicate ValidName(s: Text) {
    !Blank(s) && |s| <= MAX_NAME_BYTES
  }

  /** How many bytes the Unicode white-space character at the start of a text takes; 0 if there is none. */
  function SpaceWidth(s: Text): (n: nat)
    ensures n <= |s|
  {
    if s == [] then 0
    else if IsSpace(s[0]) then 1
    else if |s| >= 2 && s[0] == '\U{c2}' && (s[1] == '\U{85}' || s[1] == '\U{a0}') then 2
    else if |s| >= 3 && s[0] == '\U{e1}' && s[1] == '\U{9a}' && s[2] == '\U{80}' then 3
    else if |s| >= 3 && s[0] == '\U{e2}' && s[1] == '\U{80}' && IsThirdOfSpace(s[2]) then 3
    else if |s| >= 3 && s[0] == '\U{e2}' && s[1] == '\U{81}' && s[2] == '\U{9f}' then 3
    else if |s| >= 3 && s[0] == '\U{e3}' && s[1] == '\U{80}' && s[2] == '\U{80}' then 3
    else 0
  }

  /** The last bytes of U+2000 to U+200A, U+2028, U+2029 and U+202F. */
  predicate IsThirdOfSpace(ch: char) {
    '\U{80}' <= ch <= '\U{8a}' || ch == '\U{a8}' || ch == '\U{a9}' || ch == '\U{af}'
  }

  /** Nothing is left of the text when Unicode white space is trimmed: the client's check. */
  predicate TrimsEmpty(s: Text) {
    s == [] || (SpaceWidth(s) > 0 && TrimsEmpty(s[SpaceWidth(s)..]))
  }

  /** The client's check of names; it refuses at least what the database refuses. */
  predicate ClientName(s: Text) {
    !TrimsEmpty(s) && |s| <= MAX_NAME_BYTES
  }

  lemma {:induction false} BlankTrimsEmpty(s: Text)
    requires Blank(s)
    ensures TrimsEmpty(s)
    decreases |s|
  {
    if s != [] {
      BlankTrimsEmpty(s[1..]);
    }
  }

  lemma ClientNameValid(s: Text)
    ensures ClientName(s) ==> ValidName(s)
  {
    if Blank(s) {
      BlankTrimsEmpty(s);
    }
  }

  predicate NonDecreasing(ts: seq<Time>) {
    forall i, j :: 0 <= i <= j < |ts| ==> ts[i] <= ts[j]
  }

  /** The successive answers of `steda.current_time()` during one call. */
  type Clock = ts: seq<Time> | |ts| > 0 && NonDecreasing(ts) witness [0.0]

  /** The k-th reading of a call; a call that reads past the end sees the last reading again. */
  function Reading(c: Clock, k: nat): (at: Time)
    ensures c[0] <= at <= c[|c| - 1]
    ensures forall j: nat :: j <= k ==> Reading(c, j) <= at
  {
    if k < |c| then c[k] else c[|c| - 1]
  }

  function Max(a: int, b: int): int {
    if a < b then b else a
  }

  function Min(a: int, b: int): int {
    if a < b then a else b
  }
}
