/**
 * Revocations over time: any number of logouts compute a TTL, then write it to Redis a while later.
 * All revocations of one jti carry the same exp, that of the one token with that jti.
 */
module Revocation {
  import opened Wrappers
  import opened Time
  import opened AccessTokens

  datatype Write = Write(jti: Jti, exp: int, computed: int, ttl: nat)

  /** `delay` is history: how long after computing its TTL the last SET of a key was executed. */
  datatype State = State(now: int, redis: Revocations, pending: map<nat, Write>, delay: map<Jti, int>)

  datatype Step =
    | Tick(ms: nat)
    | Begin(op: nat, jti: Jti)
    | Commit(op: nat)

  function Next(s: State, exps: Jti -> int, step: Step): State {
    match step
    case Tick(ms) => s.(now := s.now + ms)
    case Begin(op, jti) =>
      var ttl := TtlSecondsUntil(s.now, ExpiryDate(exps(jti)));
      if op in s.pending || ttl <= 0 then s
      else s.(pending := s.pending[op := Write(jti, exps(jti), s.now, ttl)])
    case Commit(op) =>
      if op !in s.pending then s
      else
        var w := s.pending[op];
        s.(redis := s.redis[w.jti := s.now + w.ttl * MS_PER_SECOND],
           delay := s.delay[w.jti := s.now - w.computed],
           pending := s.pending - {op})
  }

  function Run(s: State, exps: Jti -> int, steps: seq<Step>): State {
    if steps == [] then s else Next(Run(s, exps, steps[..|steps| - 1]), exps, steps[|steps| - 1])
  }

  function Start(now: int): State {
    State(now, map[], map[], map[])
  }

  ghost predicate WriteOk(s: State, exps: Jti -> int, op: nat) {
    op in s.pending ==>
      var w := s.pending[op];
      && w.exp == exps(w.jti) && w.computed <= s.now
      && ExpiryDate(w.exp) <= w.computed + w.ttl * MS_PER_SECOND < ExpiryDate(w.exp) + MS_PER_SECOND
  }

  ghost predicate EntryOk(s: State, exps: Jti -> int, jti: Jti) {
    jti in s.redis ==>
      && jti in s.delay
      && ExpiryDate(exps(jti)) <= s.redis[jti] < ExpiryDate(exps(jti)) + MS_PER_SECOND + s.delay[jti]
  }

  ghost predicate Inv(s: State, exps: Jti -> int) {
    && (forall op {:trigger WriteOk(s, exps, op)} :: WriteOk(s, exps, op))
    && (forall jti {:trigger EntryOk(s, exps, jti)} :: EntryOk(s, exps, jti))
  }

  lemma NextKeeps(s: State, exps: Jti -> int, step: Step)
    requires Inv(s, exps)
    ensures Inv(Next(s, exps, step), exps)
    ensures forall jti :: jti in s.redis ==> jti in Next(s, exps, step).redis
  {
    var u := Next(s, exps, step);
    if step.Commit? {
      assert WriteOk(s, exps, step.op);
    }
    forall op
      ensures WriteOk(u, exps, op)
    {
      assert WriteOk(s, exps, op);
      if step.Begin? && s.now < ExpiryDate(exps(step.jti)) {
        TtlOvershoot(s.now, ExpiryDate(exps(step.jti)));
      }
    }
    forall jti
      ensures EntryOk(u, exps, jti)
    {
      assert EntryOk(s, exps, jti);
    }
  }

  lemma {:induction false} RunKeeps(s: State, exps: Jti -> int, steps: seq<Step>)
    requires Inv(s, exps)
    ensures Inv(Run(s, exps, steps), exps)
    ensures forall jti :: jti in s.redis ==> jti in Run(s, exps, steps).redis
  {
    if steps != [] {
      RunKeeps(s, exps, steps[..|steps| - 1]);
      NextKeeps(Run(s, exps, steps[..|steps| - 1]), exps, steps[|steps| - 1]);
    }
  }

  /**
   * Once a revocation of a jti is written, every verification of its token before exp fails, in
   * every later state, whatever is revoked meanwhile; and the entry is gone less than a second and
   * the write's delay after exp.
   */
  lemma RevocationCoversLifetime(now: int, exps: Jti -> int, before: seq<Step>, op: nat, after: seq<Step>,
                                 jwks: seq<Jwk>, t: Token)
    requires t.exp == exps(t.jti)
    requires var s := Run(Start(now), exps, before); op in s.pending && s.pending[op].jti == t.jti
    ensures var later := Run(Next(Run(Start(now), exps, before), exps, Commit(op)), exps, after);
            && (later.now < ExpiryDate(t.exp) ==> Verify(jwks, later.redis, t, later.now) != Valid)
            && t.jti in later.delay && t.jti in later.redis
            && later.redis[t.jti] < ExpiryDate(t.exp) + MS_PER_SECOND + later.delay[t.jti]
  {
    var s := Run(Start(now), exps, before);
    RunKeeps(Start(now), exps, before);
    var committed := Next(s, exps, Commit(op));
    NextKeeps(s, exps, Commit(op));
    RunKeeps(committed, exps, after);
    assert EntryOk(Run(committed, exps, after), exps, t.jti);
  }

  /**
   * Exactly how long a revocation holds, in any run of delayed and repeated writes: while the jti
   * has an entry, verification accepts its token if and only if the entry has lapsed and the expiry
   * check's tolerance has not passed; an entry never lapses before exp, and less than a second and
   * its write's delay after it.
   */
  lemma AcceptedAgainExactlyInTheTolerance(now: int, exps: Jti -> int, steps: seq<Step>, jwks: seq<Jwk>, t: Token)
    requires t.exp == exps(t.jti) && SelectKey(jwks, t.kid) == Some(t.signedWith)
    requires var s := Run(Start(now), exps, steps); t.jti in s.redis && !NotYetValid(t, s.now)
    ensures var s := Run(Start(now), exps, steps);
            var lapse := s.redis[t.jti];
            && t.jti in s.delay
            && ExpiryDate(t.exp) <= lapse < ExpiryDate(t.exp) + MS_PER_SECOND + s.delay[t.jti]
            && (Verify(jwks, s.redis, t, s.now) == Valid <==>
                 lapse <= s.now < ExpiryDate(t.exp + CLOCK_TOLERANCE_SECONDS))
  {
    RunKeeps(Start(now), exps, steps);
    var s := Run(Start(now), exps, steps);
    assert EntryOk(s, exps, t.jti);
    ExpiryCheckBoundary(t, s.now);
  }

  /** So a revoked token can pass: revoked half a second before exp, it is valid half a second after. */
  lemma RevokedTokenPasses()
    ensures var t := Token("k", 0, 5, 100, 100, 1000);
            var s := Run(Start(999500), _ => 1000, [Begin(0, 5), Commit(0), Tick(1000)]);
            t.jti in s.redis && Verify([Jwk("k", 0)], s.redis, t, s.now) == Valid
  {
    var steps := [Begin(0, 5), Commit(0), Tick(1000)];
    var exps: Jti -> int := _ => 1000;
    var s1 := Next(Start(999500), exps, Begin(0, 5));
    var s2 := Next(s1, exps, Commit(0));
    assert TtlSecondsUntil(999500, 1000000) == 1;
    assert s2.redis == map[5 := 1000500];
    assert steps[..2] == [Begin(0, 5), Commit(0)] && steps[..2][..1] == [Begin(0, 5)] && steps[..1][..0] == [];
    assert Run(Start(999500), exps, [Begin(0, 5)]) == s1;
    assert Run(Start(999500), exps, [Begin(0, 5), Commit(0)]) == s2;
    assert WithKid([Jwk("k", 0)], "k") == [0];
  }
}
