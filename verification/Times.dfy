/** Times as nanoseconds from the Unix epoch, and the integers the state store
    and the file systems keep them as. */
module Times {
  import opened Wrappers

  type Time = int

  const UNIX_EPOCH: Time := 0

  const I64_MIN: int := -0x8000_0000_0000_0000
  const I64_MAX: int := 0x7FFF_FFFF_FFFF_FFFF
  const SECOND: int := 1_000_000_000
  const MILLI: int := 1_000_000

  /** The 64-bit integer `n` is, or the largest. */
  function OrMax(n: nat): int {
    if n <= I64_MAX then n else I64_MAX
  }

  /** The whole second a time falls in, by the two branches of a duration from
      the epoch, each of which saturates. */
  function WholeSecs(at: Time): int {
    if at >= 0 then OrMax(at / SECOND)
    else
      var before := -at;
      var secs := OrMax(before / SECOND);
      if before % SECOND == 0 then -secs else -secs - 1
  }

  /** **Floor division, on both sides of the epoch**, for exactly the times less
      than 2^63 seconds from it. */
  lemma WholeSecsIsFloor(at: Time)
    ensures WholeSecs(at) == at / SECOND <==> (I64_MIN * SECOND < at < -I64_MIN * SECOND)
  {
    if at < 0 {
      var before := -at;
      var q, r := before / SECOND, before % SECOND;
      assert before == q * SECOND + r;
      if r == 0 {
        assert at == -q * SECOND;
        assert at / SECOND == -q;
      } else {
        assert at == (-q - 1) * SECOND + (SECOND - r);
        assert at / SECOND == -q - 1;
      }
    }
  }

  /** Later times fall in no earlier second, within that range. */
  lemma WholeSecsMonotone(a: Time, b: Time)
    requires I64_MIN * SECOND < a <= b < -I64_MIN * SECOND
    ensures WholeSecs(a) <= WholeSecs(b)
  {
    WholeSecsIsFloor(a);
    WholeSecsIsFloor(b);
  }

  /** Past the range they may: the earliest second the clock can name reads as
      later than the moment after it. */
  lemma WholeSecsFallsAtTheEdge()
    ensures WholeSecs(I64_MIN * SECOND) > WholeSecs(I64_MIN * SECOND + 1)
  {
    WholeSecsIsFloor(I64_MIN * SECOND + 1);
  }

  function ToNanos(at: Time): int {
    if at >= 0 then OrMax(at)
    else
      var before := -at;
      if before <= I64_MAX then -before else I64_MIN
  }

  function FromNanos(ns: int): Time {
    var magnitude := if ns >= 0 then ns else -ns;
    if ns >= 0 then UNIX_EPOCH + magnitude else UNIX_EPOCH - magnitude
  }

  /** Whether a time is kept exactly: its nanoseconds fit 64 bits. */
  predicate Kept(at: Time) {
    I64_MIN <= at <= I64_MAX
  }

  /** A stored time reads back as itself exactly when it fits, the smallest
      integer included; any other reads back as the nearest that does. */
  lemma NanosRoundTrip(at: Time)
    ensures FromNanos(ToNanos(at)) == at <==> Kept(at)
    ensures at < I64_MIN ==> FromNanos(ToNanos(at)) == I64_MIN
    ensures at > I64_MAX ==> FromNanos(ToNanos(at)) == I64_MAX
    ensures Kept(ToNanos(at))
  {
  }

  function ToMillis(at: Time): int {
    if at >= 0 then OrMax(at / MILLI) else 0
  }

  function FromMillis(ms: int): Time {
    UNIX_EPOCH + (if ms >= 0 then ms else 0) * MILLI
  }

  /** A time kept in milliseconds reads back no later, and as itself exactly for
      a whole millisecond from the epoch on that fits. */
  lemma MillisRoundTrip(at: Time)
    ensures FromMillis(ToMillis(at)) == at <==> at >= 0 && at % MILLI == 0 && at / MILLI <= I64_MAX
    ensures at >= 0 ==> FromMillis(ToMillis(at)) <= at
    ensures 0 <= at && at / MILLI <= I64_MAX ==> at - FromMillis(ToMillis(at)) < MILLI
  {
  }

  // ---- Windows file times ----

  const UNIX_EPOCH_TICKS: int := 116_444_736_000_000_000
  const TICKS_PER_SEC: int := 10_000_000
  const TICK: int := 100

  datatype TimeError = NanosOutOfRange | TimestampOutOfRange

  /** Time `secs` seconds and `nanos` nanoseconds after the epoch. */
  function EpochTime(secs: int, nanos: int): Result<Time, TimeError> {
    if !(0 <= nanos < 1_000_000_000) then Err(NanosOutOfRange)
    else
      var base := if secs >= 0 then UNIX_EPOCH + secs * SECOND else UNIX_EPOCH - (-secs) * SECOND;
      Ok(base + nanos)
  }

  /** A file time in 100 ns ticks from 1601; the subtraction is checked. */
  function Filetime(ticks: int): Result<Time, TimeError>
    requires I64_MIN <= ticks <= I64_MAX
  {
    var rel := ticks - UNIX_EPOCH_TICKS;
    if rel < I64_MIN then Err(TimestampOutOfRange)
    else EpochTime(rel / TICKS_PER_SEC, (rel % TICKS_PER_SEC) * 100)
  }

  /** A file time that does not overflow is read exactly, so the nanoseconds are
      always below a second, and one that does is refused. */
  lemma FiletimeExact(ticks: int)
    requires I64_MIN <= ticks <= I64_MAX
    ensures Filetime(ticks).Ok? <==> ticks >= I64_MIN + UNIX_EPOCH_TICKS
    ensures Filetime(ticks).Ok? ==> Filetime(ticks).value == (ticks - UNIX_EPOCH_TICKS) * TICK
  {
    var rel := ticks - UNIX_EPOCH_TICKS;
    assert rel == (rel / TICKS_PER_SEC) * TICKS_PER_SEC + rel % TICKS_PER_SEC;
  }

  lemma FiletimeKeepsOrder(a: int, b: int)
    requires I64_MIN <= a <= I64_MAX && I64_MIN <= b <= I64_MAX
    requires Filetime(a).Ok? && Filetime(b).Ok?
    ensures a < b <==> Filetime(a).value < Filetime(b).value
  {
    FiletimeExact(a);
    FiletimeExact(b);
  }
}
