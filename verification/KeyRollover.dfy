/**
 * Rolling signing-key rotation over a fleet (docs/runbooks/jwt-key-rotation.md): replicas restart
 * one at a time, in any order and number, into the configuration of the current deploy. The fleet
 * rotates again and again; generation g signs with key g under kid `kids(g)`.
 */
module KeyRollover {
  import opened Wrappers
  import opened Time
  import opened AccessTokens

  datatype Phase =
    | Stable
    | PrePublish
    | CutOver
    | Retire

  /**
   * `published`: the cut-over of this rotation has been started before (and maybe rolled back).
   * `done`: when the cut-over was confirmed complete. `tokens`: every token signed so far.
   */
  datatype Fleet = Fleet(
    now: int,
    generation: nat,
    phase: Phase,
    published: bool,
    done: Option<int>,
    replicas: map<nat, Config>,
    tokens: set<(nat, Token)>)

  /** What a replica was started with: the generation it signs with and the other one it verifies. */
  datatype Config = Config(active: nat, previous: Option<nat>)

  function KeysOf(kids: nat -> Kid, c: Config): SigningKeys {
    SigningKeys(kids(c.active), c.active,
                if c.previous.Some? then Some(kids(c.previous.value)) else None,
                c.previous)
  }

  function Target(generation: nat, phase: Phase): Config {
    match phase
    case Stable => Config(generation, None)
    case PrePublish => Config(generation, Some(generation + 1))
    case CutOver => Config(generation + 1, Some(generation))
    case Retire => Config(generation + 1, None)
  }

  /** The runbook's condition on kids: set, and distinct from the one they replace. */
  ghost predicate GoodKids(kids: nat -> Kid) {
    forall g: nat :: kids(g) != "" && kids(g) != kids(g + 1)
  }

  datatype Step =
    | Tick(ms: nat)
    | Restart(replica: nat)
    | SignToken(replica: nat, jti: Jti)
    | StartPrePublish
    | StartCutOver
    | FinishCutOver
    | RollBack
    | StartRetire
    | FinishRetire

  /** Rolled out to every replica. */
  ghost predicate Complete(f: Fleet) {
    forall r :: r in f.replicas ==> f.replicas[r] == Target(f.generation, f.phase)
  }

  function RetireWait(ttl: nat): int {
    (ttl + CLOCK_TOLERANCE_SECONDS) * MS_PER_SECOND
  }

  ghost function Next(kids: nat -> Kid, ttl: nat, f: Fleet, step: Step): Fleet {
    match step
    case Tick(ms) => f.(now := f.now + ms)
    case Restart(r) => f.(replicas := f.replicas[r := Target(f.generation, f.phase)])
    case SignToken(r, jti) =>
      if r !in f.replicas then f
      else f.(tokens := f.tokens + {(f.replicas[r].active, Sign(KeysOf(kids, f.replicas[r]), jti, f.now, ttl))})
    case StartPrePublish => if f.phase.Stable? && Complete(f) then f.(phase := PrePublish, published := false) else f
    case StartCutOver =>
      if f.phase.PrePublish? && Complete(f) then f.(phase := CutOver, published := true, done := None) else f
    case FinishCutOver => if f.phase.CutOver? && f.done.None? && Complete(f) then f.(done := Some(f.now)) else f
    case RollBack => if f.phase.CutOver? then f.(phase := PrePublish, done := None) else f
    case StartRetire =>
      if f.phase.CutOver? && f.done.Some? && f.done.value + RetireWait(ttl) <= f.now then f.(phase := Retire) else f
    case FinishRetire =>
      if f.phase.Retire? && Complete(f)
        then f.(generation := f.generation + 1, phase := Stable, published := false, done := None)
      else f
  }

  ghost function Run(kids: nat -> Kid, ttl: nat, f: Fleet, steps: seq<Step>): Fleet {
    if steps == [] then f else Next(kids, ttl, Run(kids, ttl, f, steps[..|steps| - 1]), steps[|steps| - 1])
  }

  function Start(now: int): Fleet {
    Fleet(now, 0, Stable, false, None, map[], {})
  }

  // ---------------------------------------------------------------------------
  // The invariant
  // ---------------------------------------------------------------------------

  /** The configurations replicas may be in while the current deploy rolls out. */
  ghost predicate MayRun(f: Fleet, c: Config) {
    match f.phase
    case Stable => c == Target(f.generation, Stable)
    case PrePublish => c == Target(f.generation, PrePublish) ||
      c == Target(f.generation, if f.published then CutOver else Stable)
    case CutOver => c == Target(f.generation, CutOver) || (f.done.None? && c == Target(f.generation, PrePublish))
    case Retire => c == Target(f.generation, Retire) || c == Target(f.generation, CutOver)
  }

  /** The generations a still accepted token may be of. */
  ghost predicate MayVerify(f: Fleet, g: nat) {
    match f.phase
    case Stable => g == f.generation
    case PrePublish => g == f.generation || (f.published && g == f.generation + 1)
    case CutOver => g == f.generation || g == f.generation + 1
    case Retire => g == f.generation + 1
  }

  ghost predicate TokenOk(kids: nat -> Kid, ttl: nat, f: Fleet, g: nat, t: Token) {
    && t.kid == kids(g) && t.signedWith == g
    && t.nbf == t.iat && t.exp == t.iat + ttl && t.iat <= FloorSeconds(f.now)
    && (!HasExpired(t, f.now) ==> MayVerify(f, g))
    && (f.done.Some? && g != f.generation + 1 ==> t.iat <= FloorSeconds(f.done.value))
  }

  ghost predicate Inv(kids: nat -> Kid, ttl: nat, f: Fleet) {
    && (forall r {:trigger f.replicas[r]} :: r in f.replicas ==> MayRun(f, f.replicas[r]))
    && (forall g, t {:trigger TokenOk(kids, ttl, f, g, t)} :: (g, t) in f.tokens ==> TokenOk(kids, ttl, f, g, t))
    && (f.done.Some? ==> (f.phase.CutOver? || f.phase.Retire?) && f.done.value <= f.now)
    && (f.phase.CutOver? || f.phase.Retire? ==> f.published)
    && (f.phase.Retire? ==> f.done.Some? && f.done.value + RetireWait(ttl) <= f.now)
  }

  lemma NextKeeps(kids: nat -> Kid, ttl: nat, f: Fleet, step: Step)
    requires Inv(kids, ttl, f)
    ensures Inv(kids, ttl, Next(kids, ttl, f, step))
  {
    var u := Next(kids, ttl, f, step);
    forall g, t | (g, t) in u.tokens
      ensures TokenOk(kids, ttl, u, g, t)
    {
      NextKeepsToken(kids, ttl, f, step, g, t);
    }
    forall r | r in u.replicas
      ensures MayRun(u, u.replicas[r])
    {
      NextKeepsReplica(kids, ttl, f, step, r);
    }
  }

  lemma NextKeepsReplica(kids: nat -> Kid, ttl: nat, f: Fleet, step: Step, r: nat)
    requires Inv(kids, ttl, f) && r in Next(kids, ttl, f, step).replicas
    ensures var u := Next(kids, ttl, f, step); MayRun(u, u.replicas[r])
  {
    if r in f.replicas {
      assert MayRun(f, f.replicas[r]);
    }
  }

  lemma NextKeepsToken(kids: nat -> Kid, ttl: nat, f: Fleet, step: Step, g: nat, t: Token)
    requires Inv(kids, ttl, f) && (g, t) in Next(kids, ttl, f, step).tokens
    ensures TokenOk(kids, ttl, Next(kids, ttl, f, step), g, t)
  {
    if (g, t) in f.tokens {
      assert TokenOk(kids, ttl, f, g, t);
    } else {
      assert MayRun(f, f.replicas[step.replica]);
    }
  }

  lemma {:induction false} RunKeeps(kids: nat -> Kid, ttl: nat, f: Fleet, steps: seq<Step>)
    requires Inv(kids, ttl, f)
    ensures Inv(kids, ttl, Run(kids, ttl, f, steps))
  {
    if steps != [] {
      RunKeeps(kids, ttl, f, steps[..|steps| - 1]);
      NextKeeps(kids, ttl, Run(kids, ttl, f, steps[..|steps| - 1]), steps[|steps| - 1]);
    }
  }

  /** A configuration's verify set holds exactly one key under the kid of a generation it knows. */
  lemma KnownGenerationSelects(kids: nat -> Kid, c: Config, g: nat)
    requires GoodKids(kids) && (c.active == g || c.previous == Some(g))
    requires c.previous.Some? ==> c.previous.value == c.active + 1 || c.active == c.previous.value + 1
    ensures SelectKey(BuildJwksDocument(KeysOf(kids, c)), kids(g)) == Some(g)
  {
    var jwks := BuildJwksDocument(KeysOf(kids, c));
    if c.previous.Some? {
      var p := c.previous.value;
      assert kids(c.active) != kids(p) by {
        assert kids(p) != kids(p + 1) && kids(c.active) != kids(c.active + 1);
      }
      assert jwks == [Jwk(kids(c.active), c.active), Jwk(kids(p), p)];
      assert jwks[1..] == [Jwk(kids(p), p)] && jwks[1..][1..] == [];
      assert WithKid(jwks[1..], kids(g)) == if g == p then [g] else [];
      assert WithKid(jwks, kids(g)) == [g];
    } else {
      assert jwks == [Jwk(kids(g), g)] && jwks[1..] == [];
      assert WithKid(jwks, kids(g)) == [g];
    }
  }

  /**
   * Through any number of rotations, rollbacks and restarts: a token any replica ever signed is
   * accepted by every replica for as long as the expiry check would still accept it.
   */
  lemma NoValidTokenIsRejected(kids: nat -> Kid, ttl: nat, now: int, steps: seq<Step>, g: nat, t: Token, r: nat)
    requires GoodKids(kids)
    requires var f := Run(kids, ttl, Start(now), steps);
             (g, t) in f.tokens && r in f.replicas && !HasExpired(t, f.now)
    ensures var f := Run(kids, ttl, Start(now), steps);
            Verify(BuildJwksDocument(KeysOf(kids, f.replicas[r])), map[], t, f.now) == Valid
  {
    RunKeeps(kids, ttl, Start(now), steps);
    var f := Run(kids, ttl, Start(now), steps);
    assert TokenOk(kids, ttl, f, g, t) && MayRun(f, f.replicas[r]);
    KnownGenerationSelects(kids, f.replicas[r], g);
  }

  /** What a replica signs at any moment of any run, every replica accepts at once. */
  lemma SignedIsAccepted(kids: nat -> Kid, ttl: nat, now: int, steps: seq<Step>, r: nat, jti: Jti)
    requires GoodKids(kids) && ttl > 0 && r in Run(kids, ttl, Start(now), steps).replicas
    ensures var f := Run(kids, ttl, Start(now), steps);
            var u, g := Next(kids, ttl, f, SignToken(r, jti)), f.replicas[r].active;
            exists t :: (g, t) in u.tokens && IssuedAt(t, kids(g), g, jti, f.now, ttl) &&
              forall q :: q in u.replicas ==>
                Verify(BuildJwksDocument(KeysOf(kids, u.replicas[q])), map[], t, u.now) == Valid
  {
    var f := Run(kids, ttl, Start(now), steps);
    var u, g, t := Next(kids, ttl, f, SignToken(r, jti)), f.replicas[r].active, Sign(KeysOf(kids, f.replicas[r]), jti,
      f.now, ttl);
    var more := steps + [SignToken(r, jti)];
    assert more[..|steps|] == steps;
    assert (g, t) in u.tokens && IssuedAt(t, kids(g), g, jti, f.now, ttl);
    assert !HasExpired(t, u.now);
    forall q | q in u.replicas
      ensures Verify(BuildJwksDocument(KeysOf(kids, u.replicas[q])), map[], t, u.now) == Valid
    {
      NoValidTokenIsRejected(kids, ttl, now, more, g, t, q);
    }
  }

  /** A token of this key and jti, valid from the second it was signed in, for `ttl` seconds. */
  predicate IssuedAt(t: Token, kid: Kid, key: Key, jti: Jti, now: int, ttl: nat) {
    && t.kid == kid && t.signedWith == key && t.jti == jti
    && t.iat == t.nbf && t.iat * 1000 <= now < t.iat * 1000 + 1000 && t.exp == t.iat + ttl
  }

  // ---------------------------------------------------------------------------
  // Rotations can be completed
  // ---------------------------------------------------------------------------

  /** Only replicas, and which deploy they run, may differ. */
  ghost predicate SameDeploy(f: Fleet, u: Fleet) {
    u.(replicas := f.replicas) == f && u.replicas.Keys == f.replicas.Keys
  }

  /** Restarting the replicas one by one completes the deploy under way. */
  lemma {:induction false} RestartAll(kids: nat -> Kid, ttl: nat, f: Fleet, left: set<nat>) returns (steps: seq<Step>)
    requires left <= f.replicas.Keys
    requires forall r :: r in f.replicas && r !in left ==> f.replicas[r] == Target(f.generation, f.phase)
    ensures var u := Run(kids, ttl, f, steps); Complete(u) && SameDeploy(f, u)
    decreases |left|
  {
    if left == {} {
      steps := [];
    } else {
      var r :| r in left;
      var u := Next(kids, ttl, f, Restart(r));
      var rest := RestartAll(kids, ttl, u, left - {r});
      steps := [Restart(r)] + rest;
      RunPrepend(kids, ttl, f, Restart(r), rest);
    }
  }

  lemma {:induction false} RunPrepend(kids: nat -> Kid, ttl: nat, f: Fleet, step: Step, steps: seq<Step>)
    ensures Run(kids, ttl, f, [step] + steps) == Run(kids, ttl, Next(kids, ttl, f, step), steps)
  {
    var all := [step] + steps;
    if steps == [] {
      assert all[..0] == [] && all[0] == step;
    } else {
      var n := |steps| - 1;
      RunPrepend(kids, ttl, f, step, steps[..n]);
      assert all[..n + 1] == [step] + steps[..n] && all[n + 1] == steps[n];
    }
  }

  /** A step that opens the next deploy, then restarts of all replicas. */
  lemma Deploy(kids: nat -> Kid, ttl: nat, f: Fleet, step: Step) returns (steps: seq<Step>)
    ensures var started, u := Next(kids, ttl, f, step), Run(kids, ttl, f, steps);
            Complete(u) && SameDeploy(started, u)
  {
    var started := Next(kids, ttl, f, step);
    var rest := RestartAll(kids, ttl, started, started.replicas.Keys);
    RunPrepend(kids, ttl, f, step, rest);
    steps := [step] + rest;
  }

  lemma {:induction false} RunConcat(kids: nat -> Kid, ttl: nat, f: Fleet, steps: seq<Step>, more: seq<Step>)
    ensures Run(kids, ttl, f, steps + more) == Run(kids, ttl, Run(kids, ttl, f, steps), more)
  {
    if more == [] {
      assert steps + more == steps;
    } else {
      RunConcat(kids, ttl, f, steps, more[..|more| - 1]);
      assert (steps + more)[..|steps + more| - 1] == steps + more[..|more| - 1];
    }
  }

  /** From a fleet of any size that runs generation g, pre-publishing and cutting over. */
  lemma CutsOver(kids: nat -> Kid, ttl: nat, f: Fleet) returns (steps: seq<Step>)
    requires f.phase.Stable? && Complete(f)
    ensures var u := Run(kids, ttl, f, steps);
            && Complete(u) && u.phase.CutOver? && u.done.None? && u.generation == f.generation
            && u.replicas.Keys == f.replicas.Keys
  {
    var first := Deploy(kids, ttl, f, StartPrePublish);
    var second := Deploy(kids, ttl, Run(kids, ttl, f, first), StartCutOver);
    RunConcat(kids, ttl, f, first, second);
    steps := first + second;
  }

  lemma Retires(kids: nat -> Kid, ttl: nat, f: Fleet) returns (steps: seq<Step>)
    requires f.phase.CutOver? && f.done.None? && Complete(f)
    ensures var u := Run(kids, ttl, f, steps);
            Complete(u) && u.phase.Retire? && u.generation == f.generation && u.replicas.Keys == f.replicas.Keys
  {
    var confirm, wait := FinishCutOver, Tick((ttl + 30) * 1000);
    var confirmed := Next(kids, ttl, f, confirm);
    var waited := Next(kids, ttl, confirmed, wait);
    var rest := Deploy(kids, ttl, waited, StartRetire);
    RunPrepend(kids, ttl, confirmed, wait, rest);
    RunPrepend(kids, ttl, f, confirm, [wait] + rest);
    steps := [confirm] + ([wait] + rest);
  }

  /**
   * The runbook can always be carried through: from any fleet that runs one generation there are
   * steps after which every replica runs the next one, and knows no other.
   */
  lemma RotationCompletes(kids: nat -> Kid, ttl: nat, f: Fleet) returns (steps: seq<Step>)
    requires f.phase.Stable? && Complete(f)
    ensures var u := Run(kids, ttl, f, steps);
            && u.phase.Stable? && u.generation == f.generation + 1 && u.replicas.Keys == f.replicas.Keys
            && forall r :: r in u.replicas ==> u.replicas[r] == Config(f.generation + 1, None)
  {
    var first := CutsOver(kids, ttl, f);
    var second := Retires(kids, ttl, Run(kids, ttl, f, first));
    RunConcat(kids, ttl, f, first, second);
    var retired := Run(kids, ttl, f, first + second);
    RunPrepend(kids, ttl, retired, FinishRetire, []);
    assert [FinishRetire] + [] == [FinishRetire];
    RunConcat(kids, ttl, f, first + second, [FinishRetire]);
    steps := first + second + [FinishRetire];
  }

  /**
   * Whatever its kid says, a token signed with a key of no generation a replica knows is rejected
   * there as invalid.
   */
  lemma UnknownKeyIsRejected(kids: nat -> Kid, ttl: nat, now: int, steps: seq<Step>, r: nat, redis: Revocations,
                             t: Token)
    requires var f := Run(kids, ttl, Start(now), steps);
             r in f.replicas && t.signedWith != f.replicas[r].active && f.replicas[r].previous != Some(t.signedWith)
    ensures var f := Run(kids, ttl, Start(now), steps);
            Verify(BuildJwksDocument(KeysOf(kids, f.replicas[r])), redis, t, f.now) == Invalid
  {
    var f := Run(kids, ttl, Start(now), steps);
    SelectsByKid(KeysOf(kids, f.replicas[r]), t.kid, t.signedWith);
  }

  /**
   * In any run, whatever a replica accepts is signed with a key of the generations of the rotation
   * under way; once a rotation is finished and its last deploy complete, with the new key alone.
   */
  lemma OldKeysAreDead(kids: nat -> Kid, ttl: nat, now: int, steps: seq<Step>, r: nat, redis: Revocations, t: Token)
    requires var f := Run(kids, ttl, Start(now), steps);
             r in f.replicas && Verify(BuildJwksDocument(KeysOf(kids, f.replicas[r])), redis, t, f.now) == Valid
    ensures var f := Run(kids, ttl, Start(now), steps);
            && (t.signedWith == f.generation || t.signedWith == f.generation + 1)
            && t.kid == kids(t.signedWith)
            && (f.phase.Stable? ==> t.signedWith == f.generation)
            && (f.phase.Retire? && Complete(f) ==> t.signedWith == f.generation + 1)
  {
    var f := Run(kids, ttl, Start(now), steps);
    RunKeeps(kids, ttl, Start(now), steps);
    assert MayRun(f, f.replicas[r]);
    SelectsByKid(KeysOf(kids, f.replicas[r]), t.kid, t.signedWith);
  }

  /** A wait of `wait` ms outlasts every token signed before it, whenever that was, iff it is at least TTL + 30 s. */
  lemma RetireWaitIsExact(ttl: nat, wait: nat)
    ensures (forall keys, jti, signed: int :: HasExpired(Sign(keys, jti, signed, ttl), signed + wait)) <==>
              wait >= RetireWait(ttl)
  {
    if wait < RetireWait(ttl) {
      var t := Sign(SigningKeys("k", 0, None, None), 0, 0, ttl);
      ExpiryCheckBoundary(t, wait);
      assert !HasExpired(Sign(SigningKeys("k", 0, None, None), 0, 0, ttl), 0 + wait);
    } else {
      forall keys, jti, signed: int
        ensures HasExpired(Sign(keys, jti, signed, ttl), signed + wait)
      {
        ExpiryCheckBoundary(Sign(keys, jti, signed, ttl), signed + wait);
      }
    }
  }

  /** Without pre-publishing, a replica that has not restarted rejects what a restarted one signs. */
  lemma SingleSwapRejects(kids: nat -> Kid, ttl: nat, g: nat, jti: Jti, now: int)
    requires GoodKids(kids)
    ensures var t := Sign(KeysOf(kids, Target(g + 1, Stable)), jti, now, ttl);
            Verify(BuildJwksDocument(KeysOf(kids, Target(g, Stable))), map[], t, now) == Invalid
  {
    assert kids(g) != kids(g + 1);
    var jwks := BuildJwksDocument(KeysOf(kids, Target(g, Stable)));
    assert jwks == [Jwk(kids(g), g)] && jwks[1..] == [];
    assert WithKid(jwks, kids(g + 1)) == [];
  }
}
