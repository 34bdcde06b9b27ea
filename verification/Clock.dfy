/** Instants are nanoseconds since Go's zero time; these are the ways the service renders them. */
module Clock {
  const SECOND := 1_000_000_000
  const UNIX_EPOCH := 62_135_596_800 * SECOND
  const WORD := 0x1_0000_0000_0000_0000
  const HALF_WORD := 0x8000_0000_0000_0000

  /** time.Unix: whole seconds since 1970, rounded down. */
  function UnixSeconds(t: int): int { (t - UNIX_EPOCH) / SECOND }

  /** time.UnixNano: nanoseconds since 1970 in a 64-bit integer, which wraps. */
  function UnixNano(t: int): int {
    (t - UNIX_EPOCH + HALF_WORD) % WORD - HALF_WORD
  }

  /** The instants, from 1677 to 2262, that UnixNano can tell apart. */
  predicate Representable(t: int) {
    -HALF_WORD <= t - UNIX_EPOCH < HALF_WORD
  }

  /** The Unix epoch is 1969 years and their 477 leap days after the zero time, at midnight. */
  lemma EpochIs1970()
    ensures UNIX_EPOCH == (1969 * 365 + (1969 / 4 - 1969 / 100 + 1969 / 400)) * 24 * 60 * 60 * 1_000_000_000
  {
  }

  lemma UnixMeans(t: int)
    ensures UnixSeconds(t) * 1_000_000_000 <= t - UNIX_EPOCH < (UnixSeconds(t) + 1) * 1_000_000_000
    ensures -0x8000_0000_0000_0000 <= t - UNIX_EPOCH < 0x8000_0000_0000_0000 <==> UnixNano(t) == t - UNIX_EPOCH
    ensures Representable(t) <==> UnixNano(t) == t - UNIX_EPOCH
    ensures -0x8000_0000_0000_0000 <= UnixNano(t) < 0x8000_0000_0000_0000
  {
  }

  /** Two instants have the same UnixNano exactly when they are a multiple of 2^64 ns apart. */
  lemma UnixNanoCollides(a: int, b: int)
    ensures UnixNano(a) == UnixNano(b) <==> (a - b) % WORD == 0
    ensures Representable(a) && Representable(b) ==> (UnixNano(a) == UnixNano(b) <==> a == b)
  {
  }
}
