/**
 * Small shared vocabulary: optional values, results, instants and identifiers.
 *
 * Instants are integers counting nanoseconds since the Unix epoch, durations are
 * integer nanoseconds (Go's time.Duration), and UUIDs are natural numbers with 0
 * standing for uuid.Nil.
 */
module Common {

  datatype Option<+T> = None | Some(value: T)

  datatype Result<+T, +E> = Success(value: T) | Failure(error: E)

  /** Nanoseconds since the Unix epoch. */
  type Instant = int

  /** Go's time.Duration: a signed count of nanoseconds. */
  type Duration = int

  /** A natural number standing for a UUID's 128 bits; 0 is uuid.Nil. */
  type Uuid = nat

  const NilUuid: Uuid := 0

  const Second: int := 1_000_000_000

  /** Go's zero time.Time{} (January 1, year 1, UTC) on the Unix nanosecond axis. */
  const ZeroTime: Instant := -62_135_596_800 * Second

  /** True when every character of s satisfies p. */
  predicate All(s: string, p: char -> bool)
  {
    forall i :: 0 <= i < |s| ==> p(s[i])
  }

  predicate IsAsciiLetter(c: char)
  {
    'a' <= c <= 'z' || 'A' <= c <= 'Z'
  }

  predicate IsAsciiDigit(c: char)
  {
    '0' <= c <= '9'
  }

  /** Number of bytes c takes in UTF-8. */
  function Utf8Width(c: char): (w: nat)
    ensures 1 <= w <= 4
    ensures w == 1 <==> c as int < 0x80
  {
    if c as int < 0x80 then 1
    else if c as int < 0x800 then 2
    else if c as int < 0x1_0000 then 3
    else 4
  }

  /** Go's len(s) on a string: its length in UTF-8 bytes. */
  function ByteLen(s: string): (n: nat)
    ensures n >= |s|
    ensures (forall i :: 0 <= i < |s| ==> s[i] as int < 0x80) ==> n == |s|
  {
    if s == [] then 0 else Utf8Width(s[0]) + ByteLen(s[1..])
  }

  lemma {:induction false} ByteLenEmpty(s: string)
    ensures ByteLen(s) == 0 <==> s == []
  {
    if s != [] {
      ByteLenEmpty(s[1..]);
    }
  }
}
