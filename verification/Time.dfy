/** Expiry arithmetic (src/utils/time.ts). Instants are milliseconds, TTLs and JWT times seconds. */
module Time {

  const MS_PER_SECOND: int := 1000

  function SecondsFromNow(now: int, seconds: int): int {
    now + seconds * MS_PER_SECOND
  }

  /** Math.floor(ms / 1000); Dafny's division already rounds down for a positive divisor. */
  function FloorSeconds(ms: int): (seconds: int)
    ensures seconds * 1000 <= ms < seconds * 1000 + 1000
  {
    ms / MS_PER_SECOND
  }

  /** Math.ceil(ms / 1000). */
  function CeilSeconds(ms: int): (seconds: int)
    ensures seconds * 1000 - 1000 < ms <= seconds * 1000
  {
    -((-ms) / MS_PER_SECOND)
  }

  /** The least whole number of seconds after which `date` has been reached, never negative. */
  function TtlSecondsUntil(now: int, date: int): (ttl: nat)
    ensures date <= now + ttl * 1000
    ensures forall n: nat :: date <= now + n * 1000 ==> ttl <= n
    ensures ttl == 0 <==> date <= now
  {
    var seconds := CeilSeconds(date - now);
    if seconds < 0 then 0 else seconds
  }

  /** A key written with this TTL outlives the date it mirrors, but by less than one second. */
  lemma TtlOvershoot(now: int, date: int)
    requires now < date
    ensures date <= now + TtlSecondsUntil(now, date) * 1000 < date + 1000
  {
    var ttl := TtlSecondsUntil(now, date);
    assert !(date <= now + (ttl - 1) * MS_PER_SECOND);
  }
}
