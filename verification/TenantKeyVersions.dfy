/** Which version new values are sealed under, over any number of replicas. */
module TenantKeyVersions {
  import opened Wrappers
  import opened Base64
  import opened Envelope
  import opened TenantKeys
  import opened TenantKeySafety
  import opened TenantKeyTheorems
  import opened TenantKeyDecryption
  import L = BoundedLru

  // ---------------------------------------------------------------------------
  // Which version is used for new values
  // ---------------------------------------------------------------------------

  /**
   * A warm replica seals under the version its own pointer names; a rotation committed on another
   * replica does not move that pointer, so the version sealed under is then no longer active.
   */
  lemma RotationElsewhereLeavesPointer(c: Crypto, s: State, e: nat, q: nat, version: nat, dek: Bytes, env: Env)
    requires Inv(c, s) && c.Sound() && env.Valid() && e in s.ops && q in s.ops && s.ops[e].replica != s.ops[q].replica
    requires s.ops[e].epoch == ReplicaOf(s, s.ops[e].replica).epoch &&
             s.ops[q].epoch == ReplicaOf(s, s.ops[q].replica).epoch
    requires s.ops[e].request.EncryptEmail? && s.ops[e].pc.Starting? && version <= MAX_UINT16
    requires s.ops[q].request.Id() == s.ops[e].request.Id() && s.ops[q].pc == RotateCommitting(Some(version))
    requires ReplicaOf(s, s.ops[e].replica).CachedVersion(s.ops[e].request.Id()) == Some(version)
    requires ReplicaOf(s, s.ops[e].replica).CachedDek(s.ops[e].request.Id(), version) == Some(dek)
    requires (s.ops[e].request.Id(), version + 1) !in s.table
    ensures var id := s.ops[e].request.Id();
            var u := Next(c, Next(c, s, Go(q, env)), Go(e, env));
            && e in u.ops && u.ops[e].pc.Finished? && u.ops[e].pc.outcome.Sealed?
            && ParseEnvelope(u.ops[e].pc.outcome.encoded).Some?
            && ParseEnvelope(u.ops[e].pc.outcome.encoded).value.0 == version
            && !IsActive(u.table, id, version) && IsActive(u.table, id, version + 1)
  {
    var id := s.ops[e].request.Id();
    assert OpIn(c, s, q);
    var row := KeyRow(c.Wrap(env.raw, env.ivForDek), true);
    c.aead.KeyRoundTrip(c.kek, env.ivForDek, env.raw);
    SuccessorKeeps(c, s.table, id, version, row);
    var rotated := Next(c, s, Go(q, env));
    assert rotated.table == Retire(s.table, id, version)[(id, version + 1) := row];
    c.aead.DekRoundTrip(dek, version, s.ops[e].request.plain, env.ivForEmail);
  }

  // ---------------------------------------------------------------------------
  // Rotations move the active version, and nothing else does
  // ---------------------------------------------------------------------------

  /** The step commits a rotation of the tenant's key. */
  ghost predicate Commits(c: Crypto, s: State, step: Step, id: KeyId) {
    && step.Go? && step.op in s.ops && s.ops[step.op].request.Id() == id && s.ops[step.op].pc.RotateCommitting?
    && var u := Next(c, s, step);
       step.op in u.ops && u.ops[step.op].pc.Finished? && u.ops[step.op].pc.outcome.RotatedTo?
  }

  ghost function Commitments(c: Crypto, s: State, steps: seq<Step>, id: KeyId): nat {
    if steps == [] then 0
    else
      var n := |steps| - 1;
      Commitments(c, s, steps[..n], id) + if Commits(c, Run(c, s, steps[..n]), steps[n], id) then 1 else 0
  }

  lemma OneActive(c: Crypto, table: KeyTable, id: KeyId, v: nat, w: nat)
    requires TableOk(c, table) && IsActive(table, id, v) && IsActive(table, id, w)
    ensures v == w && v >= 1 && (id, v + 1) !in table && (id, 1) in table
  {
    var n := TableShape(c, table, id, v);
  }

  /** Retiring anything but the active version leaves it active, so the insert is refused. */
  lemma StaleCommitFails(c: Crypto, s: State, o: nat, active: Option<nat>, raw: Bytes, iv: Bytes, v: nat)
    requires TableOk(c, s.table) && o in s.ops && IsActive(s.table, s.ops[o].request.Id(), v) && active != Some(v)
    ensures var u := CommitRotation(c, s, o, s.ops[o].request.Id(), active, raw, iv);
            u.table == s.table && o in u.ops && u.ops[o].pc.Finished? && u.ops[o].pc.outcome.Failed?
  {
    var id := s.ops[o].request.Id();
    OneActive(c, s.table, id, v, v);
    if active.Some? {
      assert IsActive(Retire(s.table, id, active.value), id, v);
    }
  }

  lemma CommitMoves(c: Crypto, s: State, o: nat, env: Env, id: KeyId, v: nat)
    requires Inv(c, s) && o in s.ops && s.ops[o].pc.RotateCommitting? && IsActive(s.table, id, v)
    ensures var u := Advance(c, s, o, env);
            var mine := s.ops[o].request.Id() == id && o in u.ops && u.ops[o].pc.Finished? &&
              u.ops[o].pc.outcome.RotatedTo?;
            IsActive(u.table, id, if mine then v + 1 else v)
  {
    if s.ops[o].request.Id() == id {
      OneActive(c, s.table, id, v, v);
      if s.ops[o].pc.active != Some(v) {
        StaleCommitFails(c, s, o, s.ops[o].pc.active, env.raw, env.ivForDek, v);
      }
    }
  }

  lemma QuietAdvance(c: Crypto, s: State, o: nat, env: Env, id: KeyId, v: nat)
    requires o in s.ops && !s.ops[o].pc.RotateCommitting? && IsActive(s.table, id, v)
    ensures IsActive(Advance(c, s, o, env).table, id, v)
  {
    match s.ops[o].pc
    case Starting =>
    case FoundActive(_) =>
    case Inserting(_, _) =>
    case Inserted(_, _) =>
    case FoundAgain(_) =>
    case FoundVersion(_, _) =>
    case _ =>
  }

  lemma StepMovesActive(c: Crypto, s: State, step: Step, id: KeyId, v: nat)
    requires Inv(c, s) && IsActive(s.table, id, v)
    ensures IsActive(Next(c, s, step).table, id, if Commits(c, s, step, id) then v + 1 else v)
  {
    if step.Go? && step.op in s.ops {
      if s.ops[step.op].pc.RotateCommitting? {
        CommitMoves(c, s, step.op, step.env, id, v);
      } else {
        QuietAdvance(c, s, step.op, step.env, id, v);
      }
    }
  }

  /** The active version is what it was plus the number of rotations committed since. */
  lemma {:induction false} ActiveAfter(c: Crypto, s: State, steps: seq<Step>, id: KeyId, v: nat)
    requires Inv(c, s) && c.Sound() && IsActive(s.table, id, v)
    ensures IsActive(Run(c, s, steps).table, id, v + Commitments(c, s, steps, id))
  {
    if steps != [] {
      var n := |steps| - 1;
      ActiveAfter(c, s, steps[..n], id, v);
      RunKeeps(c, s, steps[..n]);
      StepMovesActive(c, Run(c, s, steps[..n]), steps[n], id, v + Commitments(c, s, steps[..n], id));
    }
  }

  // ---------------------------------------------------------------------------
  // Where a replica has its version from
  // ---------------------------------------------------------------------------

  /** By this step a request on replica r reads, inserts or commits v as the tenant's active version. */
  ghost predicate Learns(c: Crypto, s: State, step: Step, r: nat, id: KeyId, v: nat) {
    && step.Go? && step.op in s.ops && s.ops[step.op].replica == r && s.ops[step.op].request.Id() == id
    && var u := Next(c, s, step);
       && step.op in u.ops
       && match s.ops[step.op].pc
          case FindingActive => u.ops[step.op].pc.FoundActive? && HasRead(u.ops[step.op].pc.row, v)
          case FindingAgain => u.ops[step.op].pc.FoundAgain? && HasRead(u.ops[step.op].pc.row, v)
          case Inserting(_, _) => u.ops[step.op].pc.Inserted? && u.ops[step.op].pc.won && v == 1
          case RotateCommitting(_) => u.ops[step.op].pc == Finished(RotatedTo(v))
          case _ => false
  }

  predicate HasRead(row: Option<(nat, string)>, v: nat) {
    row.Some? && row.value.0 == v
  }

  /** The version a request carries towards its encryption. */
  predicate Carries(pc: Pc, v: nat) {
    match pc
    case FoundActive(row) => HasRead(row, v)
    case FoundAgain(row) => HasRead(row, v)
    case Inserted(won, _) => won && v == 1
    case _ => false
  }

  ghost predicate CarriedBy(s: State, o: nat, r: nat, id: KeyId, v: nat) {
    && o in s.ops && s.ops[o].replica == r && s.ops[o].epoch == ReplicaOf(s, r).epoch
    && s.ops[o].request.Id() == id && Carries(s.ops[o].pc, v)
  }

  /** Replica r takes v for the tenant's active version: it is cached, or a request carries it. */
  ghost predicate Knows(s: State, r: nat, id: KeyId, v: nat) {
    ReplicaOf(s, r).CachedVersion(id) == Some(v) || exists o :: CarriedBy(s, o, r, id, v)
  }

  lemma LearnedIsActive(c: Crypto, s: State, step: Step, r: nat, id: KeyId, v: nat)
    requires Inv(c, s) && Learns(c, s, step, r, id, v)
    ensures IsActive(Next(c, s, step).table, id, v)
  {
    assert OpIn(c, s, step.op);
  }

  /** Setting the cached version for one tenant changes no other tenant's. */
  lemma SetVersionCached(r: Replica, key: KeyId, version: nat, id: KeyId, v: nat)
    requires r.SetVersion(key, version).CachedVersion(id) == Some(v)
    ensures if id == key then v == version else r.CachedVersion(id) == Some(v)
  {
    L.LookupAfterSet(r.active, MAX_CACHED_DEKS, key, version, id);
  }

  /** Where a cached version comes from: it was there, or request `o` has just cached what it carried or committed. */
  ghost predicate CachedFrom(s: State, u: State, o: nat, r: nat, id: KeyId, v: nat)
    requires o in s.ops && o in u.ops
  {
    || ReplicaOf(s, r).CachedVersion(id) == Some(v)
    || (s.ops[o].replica == r && s.ops[o].request.Id() == id
        && (Carries(s.ops[o].pc, v) || (s.ops[o].pc.RotateCommitting? && u.ops[o].pc == Finished(RotatedTo(v)))))
  }

  lemma UnwrapKeepsVersions(c: Crypto, r: Replica, id: KeyId, version: nat, wrapped: string)
    ensures r.UnwrapAndCache(c, id, version, wrapped).0.active == r.active
  {
  }

  lemma UseCaches(c: Crypto, s: State, o: nat, version: nat, wrapped: string, env: Env, r: nat, id: KeyId, v: nat)
    requires o in s.ops && s.ops[o].request.EncryptEmail?
    requires var u :=
             UseActive(c, s, o, s.ops[o].request.Id(), version, wrapped, s.ops[o].request.plain, env.ivForEmail);
             ReplicaOf(u, r).CachedVersion(id) == Some(v)
    ensures ReplicaOf(s, r).CachedVersion(id) == Some(v) ||
            (s.ops[o].replica == r && s.ops[o].request.Id() == id && v == version)
  {
    if s.ops[o].replica == r {
      var key := s.ops[o].request.Id();
      UnwrapKeepsVersions(c, ReplicaOf(s, r).SetVersion(key, version), key, version, wrapped);
      SetVersionCached(ReplicaOf(s, r), key, version, id, v);
    }
  }

  lemma LookupCaches(c: Crypto, s: State, o: nat, env: Env, r: nat, id: KeyId, v: nat)
    requires o in s.ops && (s.ops[o].pc.FoundActive? || s.ops[o].pc.FoundAgain?)
    requires ReplicaOf(Advance(c, s, o, env), r).CachedVersion(id) == Some(v)
    ensures o in Advance(c, s, o, env).ops && CachedFrom(s, Advance(c, s, o, env), o, r, id, v)
  {
    var row := s.ops[o].pc.row;
    AdvanceMoves(c, s, o, env);
    if row.Some? && s.ops[o].request.EncryptEmail? {
      var u := UseActive(c, s, o, s.ops[o].request.Id(), row.value.0, row.value.1, s.ops[o].request.plain,
        env.ivForEmail);
      assert Advance(c, s, o, env) == u;
      UseCaches(c, s, o, row.value.0, row.value.1, env, r, id, v);
    } else {
      assert Advance(c, s, o, env).replicas == s.replicas;
    }
  }

  lemma InsertCaches(c: Crypto, s: State, o: nat, env: Env, r: nat, id: KeyId, v: nat)
    requires o in s.ops && s.ops[o].pc.Inserted?
    requires ReplicaOf(Advance(c, s, o, env), r).CachedVersion(id) == Some(v)
    ensures CachedFrom(s, Advance(c, s, o, env), o, r, id, v)
  {
    var key := s.ops[o].request.Id();
    if s.ops[o].replica == r && s.ops[o].pc.won && s.ops[o].request.EncryptEmail? {
      SetVersionCached(ReplicaOf(s, r).SetDek(key, 1, s.ops[o].pc.raw), key, 1, id, v);
    }
  }

  lemma CommitSetsVersion(c: Crypto, s: State, o: nat, active: Option<nat>, raw: Bytes, iv: Bytes, r: nat, id: KeyId,
                          v: nat)
    requires o in s.ops
    requires var u := CommitRotation(c, s, o, s.ops[o].request.Id(), active, raw, iv);
             ReplicaOf(u, r).CachedVersion(id) == Some(v)
    ensures var u := CommitRotation(c, s, o, s.ops[o].request.Id(), active, raw, iv);
            || ReplicaOf(s, r).CachedVersion(id) == Some(v)
            || (s.ops[o].replica == r && s.ops[o].request.Id() == id && o in u.ops &&
              u.ops[o].pc == Finished(RotatedTo(v)))
  {
    var key, next := s.ops[o].request.Id(), if active.Some? then active.value + 1 else 1;
    var u := CommitRotation(c, s, o, key, active, raw, iv);
    if s.ops[o].replica == r && u.ops[o].pc == Finished(RotatedTo(next)) {
      SetVersionCached(ReplicaOf(s, r).SetDek(key, next, raw), key, next, id, v);
    }
  }

  lemma CommitCaches(c: Crypto, s: State, o: nat, env: Env, r: nat, id: KeyId, v: nat)
    requires o in s.ops && s.ops[o].pc.RotateCommitting?
    requires ReplicaOf(Advance(c, s, o, env), r).CachedVersion(id) == Some(v)
    ensures o in Advance(c, s, o, env).ops && CachedFrom(s, Advance(c, s, o, env), o, r, id, v)
  {
    var u := CommitRotation(c, s, o, s.ops[o].request.Id(), s.ops[o].pc.active, env.raw, env.ivForDek);
    assert Advance(c, s, o, env) == u;
    CommitMovesOnly(c, s, o, s.ops[o].pc.active, env.raw, env.ivForDek);
    CommitSetsVersion(c, s, o, s.ops[o].pc.active, env.raw, env.ivForDek, r, id, v);
  }

  /** What one step leaves of a replica's cached versions. */
  lemma StepCaches(c: Crypto, s: State, o: nat, env: Env, r: nat, id: KeyId, v: nat)
    requires o in s.ops && ReplicaOf(Advance(c, s, o, env), r).CachedVersion(id) == Some(v)
    ensures o in Advance(c, s, o, env).ops && CachedFrom(s, Advance(c, s, o, env), o, r, id, v)
  {
    OwnRequestStays(c, s, o, env);
    match s.ops[o].pc
    case Starting => StartCached(c, s, o, env, r, id, v);
    case FoundActive(_) => LookupCaches(c, s, o, env, r, id, v);
    case FoundAgain(_) => LookupCaches(c, s, o, env, r, id, v);
    case Inserted(_, _) => InsertCaches(c, s, o, env, r, id, v);
    case RotateCommitting(_) => CommitCaches(c, s, o, env, r, id, v);
    case FoundVersion(_, _) =>
    case Inserting(_, _) =>
    case _ =>
  }

  lemma StartCached(c: Crypto, s: State, o: nat, env: Env, r: nat, id: KeyId, v: nat)
    requires o in s.ops && s.ops[o].pc.Starting? && ReplicaOf(Advance(c, s, o, env), r).CachedVersion(id) == Some(v)
    ensures ReplicaOf(s, r).CachedVersion(id) == Some(v)
  {
    match s.ops[o].request
    case EncryptEmail(_, _) =>
      L.LookupAfterGet(ReplicaOf(s, s.ops[o].replica).active, s.ops[o].request.Id(), id);
    case DecryptEmail(_, _) =>
    case RotateKey(_) =>
  }

  /** No request is of a process that has not started yet. */
  ghost predicate NoFuture(s: State) {
    forall o :: o in s.ops ==> s.ops[o].epoch <= ReplicaOf(s, s.ops[o].replica).epoch
  }

  lemma {:induction false} NoFutureProcesses(c: Crypto, steps: seq<Step>)
    ensures NoFuture(Run(c, START, steps))
  {
    if steps != [] {
      var n := |steps| - 1;
      var s, u := Run(c, START, steps[..n]), Run(c, START, steps);
      NoFutureProcesses(c, steps[..n]);
      forall o | o in u.ops
        ensures u.ops[o].epoch <= ReplicaOf(u, u.ops[o].replica).epoch
      {
        EpochsGrow(c, s, steps[n], o);
      }
    }
  }

  lemma EpochsGrow(c: Crypto, s: State, step: Step, o: nat)
    requires NoFuture(s) && o in Next(c, s, step).ops
    ensures var u := Next(c, s, step); u.ops[o].epoch <= ReplicaOf(u, u.ops[o].replica).epoch
  {
    if step.Go? && step.op in s.ops {
      if step.op != o {
        AdvanceMovesOne(c, s, step.op, step.env, o);
      }
      if o in s.ops {
        EpochStays(c, s, step.op, step.env, s.ops[o].replica);
      }
    }
  }

  lemma CarriedFrom(c: Crypto, s: State, step: Step, o: nat, r: nat, id: KeyId, v: nat)
    requires NoFuture(s) && CarriedBy(Next(c, s, step), o, r, id, v)
    ensures CarriedBy(s, o, r, id, v) || Learns(c, s, step, r, id, v)
  {
    if step.Go? && step.op in s.ops && Next(c, s, step) != s {
      EpochStays(c, s, step.op, step.env, r);
      if step.op != o {
        AdvanceMovesOne(c, s, step.op, step.env, o);
      } else {
        OwnRequestStays(c, s, o, step.env);
        OwnCarriedFrom(c, s, o, step.env, v);
      }
    }
  }

  /** Where a request has what it carries from: its last step, or before. */
  ghost predicate CarriesFrom(pc: Pc, after: Pc, v: nat) {
    Carries(after, v) ==>
      || (pc.FindingActive? && after.FoundActive? && HasRead(after.row, v))
      || (pc.FindingAgain? && after.FoundAgain? && HasRead(after.row, v))
      || (pc.Inserting? && after.Inserted? && after.won && v == 1)
      || after == pc
  }

  lemma StartCarries(c: Crypto, s: State, o: nat, env: Env, v: nat)
    requires o in s.ops && s.ops[o].pc.Starting?
    ensures o in Advance(c, s, o, env).ops && CarriesFrom(s.ops[o].pc, Advance(c, s, o, env).ops[o].pc, v)
  {
    match s.ops[o].request
    case EncryptEmail(_, _) =>
    case DecryptEmail(_, _) =>
    case RotateKey(_) =>
  }

  lemma LookupCarries(c: Crypto, s: State, o: nat, env: Env, v: nat)
    requires o in s.ops && (s.ops[o].pc.FoundActive? || s.ops[o].pc.FoundAgain? || s.ops[o].pc.FoundVersion?)
    ensures o in Advance(c, s, o, env).ops && CarriesFrom(s.ops[o].pc, Advance(c, s, o, env).ops[o].pc, v)
  {
    match s.ops[o].pc
    case FoundActive(_) =>
    case FoundAgain(_) =>
    case FoundVersion(_, _) =>
  }

  lemma OwnCarriedFrom(c: Crypto, s: State, o: nat, env: Env, v: nat)
    requires o in s.ops
    ensures o in Advance(c, s, o, env).ops && CarriesFrom(s.ops[o].pc, Advance(c, s, o, env).ops[o].pc, v)
  {
    match s.ops[o].pc
    case Starting => StartCarries(c, s, o, env, v);
    case FoundActive(_) => LookupCarries(c, s, o, env, v);
    case FoundAgain(_) => LookupCarries(c, s, o, env, v);
    case FoundVersion(_, _) => LookupCarries(c, s, o, env, v);
    case Inserting(_, _) =>
    case Inserted(_, _) =>
    case RotateCommitting(_) =>
    case _ =>
  }

  lemma KnowsFrom(c: Crypto, s: State, step: Step, r: nat, id: KeyId, v: nat)
    requires NoFuture(s) && Knows(Next(c, s, step), r, id, v)
    ensures Learns(c, s, step, r, id, v) ||
            (Knows(s, r, id, v) && ReplicaOf(s, r).epoch == ReplicaOf(Next(c, s, step), r).epoch)
  {
    var u := Next(c, s, step);
    if o :| CarriedBy(u, o, r, id, v) {
      CarriedFrom(c, s, step, o, r, id, v);
      if step.Go? && step.op in s.ops {
        EpochStays(c, s, step.op, step.env, r);
      }
    } else if step.Go? && step.op in s.ops && u != s {
      EpochStays(c, s, step.op, step.env, r);
      StepCaches(c, s, step.op, step.env, r, id, v);
      if ReplicaOf(s, r).CachedVersion(id) != Some(v) && Carries(s.ops[step.op].pc, v) {
        assert CarriedBy(s, step.op, r, id, v);
      }
    }
  }

  lemma StartKnowsNothing(r: nat, id: KeyId, v: nat)
    ensures !Knows(START, r, id, v)
  {
  }

  /** What a replica takes for the active version one of its requests once found, or made, active. */
  lemma {:induction false} KnowledgeWasLearned(c: Crypto, steps: seq<Step>, r: nat, id: KeyId, v: nat) returns (j: nat)
    requires Knows(Run(c, START, steps), r, id, v)
    ensures j < |steps| && Learns(c, Run(c, START, steps[..j]), steps[j], r, id, v)
    ensures ReplicaOf(Run(c, START, steps[..j + 1]), r).epoch == ReplicaOf(Run(c, START, steps), r).epoch
  {
    var n := |steps| - 1;
    StartKnowsNothing(r, id, v);
    NoFutureProcesses(c, steps[..n]);
    KnowsFrom(c, Run(c, START, steps[..n]), steps[n], r, id, v);
    assert steps[..n + 1] == steps;
    if Learns(c, Run(c, START, steps[..n]), steps[n], r, id, v) {
      j := n;
    } else {
      j := KnowledgeWasLearned(c, steps[..n], r, id, v);
      assert steps[..n][..j] == steps[..j] && steps[..n][..j + 1] == steps[..j + 1];
    }
  }

  // ---------------------------------------------------------------------------
  // Sealing under the active version
  // ---------------------------------------------------------------------------

  /** The version the request's next step will seal under: cached if it starts warm, else the one it carries. */
  ghost predicate WillSealUnder(s: State, e: nat, v: nat) {
    && e in s.ops && s.ops[e].request.EncryptEmail?
    && var id, r := s.ops[e].request.Id(), ReplicaOf(s, s.ops[e].replica);
       if s.ops[e].pc.Starting? then r.CachedVersion(id) == Some(v) && r.CachedDek(id, v).Some?
         else Carries(s.ops[e].pc, v)
  }

  /** The step seals the request's value into `encoded`. */
  ghost predicate Seals(c: Crypto, s: State, e: nat, env: Env, encoded: string) {
    && env.Valid() && e in s.ops && s.ops[e].request.EncryptEmail? && !s.ops[e].pc.Finished?
    && s.ops[e].epoch == ReplicaOf(s, s.ops[e].replica).epoch
    && var u := Next(c, s, Go(e, env)); e in u.ops && u.ops[e].pc == Finished(Sealed(encoded))
  }

  lemma SealVersion(c: Crypto, s: State, e: nat, env: Env, encoded: string) returns (v: nat)
    requires Inv(c, s) && c.Sound() && Seals(c, s, e, env, encoded)
    ensures WillSealUnder(s, e, v) && ParseEnvelope(encoded).Some? && ParseEnvelope(encoded).value.0 == v
    ensures Next(c, s, Go(e, env)).table == s.table
  {
    assert OpIn(c, s, e);
    var id, r, plain := s.ops[e].request.Id(), ReplicaOf(s, s.ops[e].replica), s.ops[e].request.plain;
    match s.ops[e].pc
    case Starting =>
      v := r.CachedVersion(id).value;
      c.aead.DekRoundTrip(r.CachedDek(id, v).value, v, plain, env.ivForEmail);
    case FoundActive(row) =>
      v := row.value.0;
      SealedByLookup(c, s, e, v, row.value.1, env, encoded);
    case Inserted(won, raw) =>
      v := 1;
      c.aead.DekRoundTrip(raw, 1, plain, env.ivForEmail);
    case FoundAgain(row) =>
      v := row.value.0;
      SealedByLookup(c, s, e, v, row.value.1, env, encoded);
  }

  lemma SealedByLookup(c: Crypto, s: State, e: nat, v: nat, wrapped: string, env: Env, encoded: string)
    requires e in s.ops && c.Sound() && env.Valid() && s.ops[e].request.EncryptEmail?
    requires var u := UseActive(c, s, e, s.ops[e].request.Id(), v, wrapped, s.ops[e].request.plain, env.ivForEmail);
             u.ops[e].pc == Finished(Sealed(encoded))
    ensures ParseEnvelope(encoded).Some? && ParseEnvelope(encoded).value.0 == v
  {
    var id := s.ops[e].request.Id();
    var dek := ReplicaOf(s, s.ops[e].replica).SetVersion(id, v).UnwrapAndCache(c, id, v, wrapped).1;
    c.aead.DekRoundTrip(dek.value, v, s.ops[e].request.plain, env.ivForEmail);
  }

  /**
   * Exactly when a value is sealed under the active version: the version sealed under is the one
   * its replica knew, some request of that process had found or made it active by some step j,
   * and it is still active if and only if no rotation of the tenant has been committed after j.
   */
  lemma SealIsActiveIff(c: Crypto, steps: seq<Step>, e: nat, env: Env, encoded: string) returns (v: nat, j: nat)
    requires c.Sound() && Seals(c, Run(c, START, steps), e, env, encoded)
    ensures ParseEnvelope(encoded).Some? && ParseEnvelope(encoded).value.0 == v
    ensures WillSealUnder(Run(c, START, steps), e, v)
    ensures var s := Run(c, START, steps);
            var id, r := s.ops[e].request.Id(), s.ops[e].replica;
            && j < |steps| && Learns(c, Run(c, START, steps[..j]), steps[j], r, id, v)
            && ReplicaOf(Run(c, START, steps[..j + 1]), r).epoch == ReplicaOf(s, r).epoch
            && (IsActive(Next(c, s, Go(e, env)).table, id, v) <==> IsActive(s.table, id, v))
            && (IsActive(s.table, id, v) <==> Commitments(c, Run(c, START, steps[..j + 1]), steps[j + 1..], id) == 0)
  {
    var s := Run(c, START, steps);
    RunIsSafe(c, steps);
    v := SealVersion(c, s, e, env, encoded);
    var id, r := s.ops[e].request.Id(), s.ops[e].replica;
    assert CarriedBy(s, e, r, id, v) || ReplicaOf(s, r).CachedVersion(id) == Some(v);
    j := KnowledgeWasLearned(c, steps, r, id, v);
    ActiveSince(c, steps, j, r, id, v);
  }

  lemma LearnedThen(c: Crypto, steps: seq<Step>, j: nat, r: nat, id: KeyId, v: nat)
    requires c.Sound() && j < |steps| && Learns(c, Run(c, START, steps[..j]), steps[j], r, id, v)
    ensures IsActive(Run(c, START, steps[..j + 1]).table, id, v)
  {
    RunIsSafe(c, steps[..j]);
    LearnedIsActive(c, Run(c, START, steps[..j]), steps[j], r, id, v);
    assert steps[..j + 1][..j] == steps[..j] && steps[..j + 1][j] == steps[j];
  }

  /** Since any step that learned v as active: v is active if and only if no rotation was committed. */
  lemma ActiveSince(c: Crypto, steps: seq<Step>, j: nat, r: nat, id: KeyId, v: nat)
    requires c.Sound() && j < |steps| && Learns(c, Run(c, START, steps[..j]), steps[j], r, id, v)
    ensures IsActive(Run(c, START, steps).table, id, v)
       <==> Commitments(c, Run(c, START, steps[..j + 1]), steps[j + 1..], id) == 0
  {
    LearnedThen(c, steps, j, r, id, v);
    var before, after := steps[..j + 1], steps[j + 1..];
    assert before + after == steps;
    ActiveAcross(c, before, after, id, v);
  }

  lemma ActiveAcross(c: Crypto, before: seq<Step>, after: seq<Step>, id: KeyId, v: nat)
    requires c.Sound() && IsActive(Run(c, START, before).table, id, v)
    ensures IsActive(Run(c, START, before + after).table, id, v) <==>
              Commitments(c, Run(c, START, before), after, id) == 0
  {
    RunIsSafe(c, before);
    RunConcat(c, START, before, after);
    StillActiveIff(c, Run(c, START, before), after, id, v);
  }

  lemma StillActiveIff(c: Crypto, s: State, steps: seq<Step>, id: KeyId, v: nat)
    requires Inv(c, s) && c.Sound() && IsActive(s.table, id, v)
    ensures IsActive(Run(c, s, steps).table, id, v) <==> Commitments(c, s, steps, id) == 0
  {
    ActiveAfter(c, s, steps, id, v);
    RunKeeps(c, s, steps);
    OnlyActive(c, Run(c, s, steps).table, id, v, Commitments(c, s, steps, id));
  }

  lemma OnlyActive(c: Crypto, table: KeyTable, id: KeyId, v: nat, n: nat)
    requires TableOk(c, table) && IsActive(table, id, v + n)
    ensures IsActive(table, id, v) <==> n == 0
  {
    if IsActive(table, id, v) {
      OneActive(c, table, id, v, v + n);
    }
  }

  lemma {:induction false} RunConcat(c: Crypto, s: State, steps: seq<Step>, more: seq<Step>)
    ensures Run(c, s, steps + more) == Run(c, Run(c, s, steps), more)
  {
    if more == [] {
      assert steps + more == steps;
    } else {
      RunConcat(c, s, steps, more[..|more| - 1]);
      assert (steps + more)[..|steps + more| - 1] == steps + more[..|more| - 1];
    }
  }

  // ---------------------------------------------------------------------------
  // A run that seals under a retired version
  // ---------------------------------------------------------------------------

  lemma {:induction false} RunOf(c: Crypto, s: State, steps: seq<Step>, states: seq<State>)
    requires |states| == |steps| + 1 && states[0] == s
    requires forall i :: 0 <= i < |steps| ==> states[i + 1] == Next(c, states[i], steps[i])
    ensures Run(c, s, steps) == states[|steps|]
  {
    if steps != [] {
      RunOf(c, s, steps[..|steps| - 1], states[..|steps|]);
    }
  }

  const ENCRYPT: Request := EncryptEmail(None, [])
  const KEY: KeyId := DEFAULT_TENANT_KEY_ID

  /** Version 1 of the default key is active, replica 1 has not restarted, and `ops` have begun. */
  ghost predicate FirstVersion(c: Crypto, s: State, env: Env, ops: set<nat>) {
    && env.Valid() && env.pick == 1 && s.table == map[(KEY, 1) := KeyRow(c.Wrap(env.raw, env.ivForDek), true)]
    && s.ops.Keys == ops && ReplicaOf(s, 0).epoch == 0 && ReplicaOf(s, 1).epoch == 0
  }

  lemma FirstLookup(c: Crypto, env: Env) returns (steps: seq<Step>)
    requires env.pick == 1 && env.Valid()
    ensures var s := Run(c, START, steps);
            s.table == map[] && s.replicas == map[] && s.ops == map[0 := Op(0, 0, ENCRYPT, FoundActive(None))]
  {
    steps := [Begin(0, 0, ENCRYPT), Go(0, env), Go(0, env)];
    var s1 := Next(c, START, steps[0]);
    var s2 := Next(c, s1, steps[1]);
    assert s2.ops[0].pc == FindingActive && NoneActive(s2.table, KEY);
    RunOf(c, START, steps, [START, s1, s2, Next(c, s2, steps[2])]);
  }

  lemma FirstInsert(c: Crypto, s: State, env: Env) returns (steps: seq<Step>)
    requires env.pick == 1 && env.Valid() && s.table == map[] && s.replicas == map[]
    requires s.ops == map[0 := Op(0, 0, ENCRYPT, FoundActive(None))]
    ensures var u := Run(c, s, steps);
            && u.table == map[(KEY, 1) := KeyRow(c.Wrap(env.raw, env.ivForDek), true)] && u.replicas == map[]
            && u.ops == map[0 := Op(0, 0, ENCRYPT, Inserted(true, env.raw))]
  {
    steps := [Go(0, env), Go(0, env)];
    var s1 := Next(c, s, steps[0]);
    assert s1.ops[0].pc == Inserting(env.raw, c.Wrap(env.raw, env.ivForDek)) && NoneActive(s1.table, KEY);
    RunOf(c, s, steps, [s, s1, Next(c, s1, steps[1])]);
  }

  lemma FirstEncryption(c: Crypto, env: Env) returns (steps: seq<Step>)
    requires c.Sound() && env.Valid() && env.pick == 1
    ensures var s := Run(c, START, steps); FirstVersion(c, s, env, {0}) && ReplicaOf(s, 1) == COLD
  {
    var lookup := FirstLookup(c, env);
    var insert := FirstInsert(c, Run(c, START, lookup), env);
    RunConcat(c, START, lookup, insert);
    var s := Run(c, START, lookup + insert);
    AdvanceMoves(c, s, 0, env);
    RunOf(c, s, [Go(0, env)], [s, Next(c, s, Go(0, env))]);
    RunConcat(c, START, lookup + insert, [Go(0, env)]);
    steps := lookup + insert + [Go(0, env)];
  }

  lemma SecondLookup(c: Crypto, s: State, env: Env) returns (steps: seq<Step>)
    requires FirstVersion(c, s, env, {0}) && ReplicaOf(s, 1) == COLD
    ensures var u := Run(c, s, steps);
            && FirstVersion(c, u, env, {0, 1}) && ReplicaOf(u, 1) == COLD
            && u.ops[1] == Op(1, 0, ENCRYPT, FoundActive(Some((1, c.Wrap(env.raw, env.ivForDek)))))
  {
    steps := [Begin(1, 1, ENCRYPT), Go(1, env), Go(1, env)];
    var s1 := Next(c, s, steps[0]);
    var s2 := Next(c, s1, steps[1]);
    assert s2.ops[1].pc == FindingActive && IsActive(s2.table, KEY, 1);
    RunOf(c, s, steps, [s, s1, s2, Next(c, s2, steps[2])]);
  }

  lemma SecondUse(c: Crypto, s: State, env: Env)
    requires c.Sound() && FirstVersion(c, s, env, {0, 1}) && ReplicaOf(s, 1) == COLD
    requires s.ops[1] == Op(1, 0, ENCRYPT, FoundActive(Some((1, c.Wrap(env.raw, env.ivForDek)))))
    ensures var u := Next(c, s, Go(1, env));
            && FirstVersion(c, u, env, {0, 1})
            && ReplicaOf(u, 1).CachedVersion(KEY) == Some(1) && ReplicaOf(u, 1).CachedDek(KEY, 1) == Some(env.raw)
  {
    c.aead.KeyRoundTrip(c.kek, env.ivForDek, env.raw);
    FirstUse(c, COLD, KEY, 1, c.Wrap(env.raw, env.ivForDek), env.raw);
    AdvanceMoves(c, s, 1, env);
  }

  lemma SecondEncryption(c: Crypto, s: State, env: Env) returns (steps: seq<Step>)
    requires c.Sound() && FirstVersion(c, s, env, {0}) && ReplicaOf(s, 1) == COLD
    ensures var u := Run(c, s, steps);
            && FirstVersion(c, u, env, {0, 1})
            && ReplicaOf(u, 1).CachedVersion(KEY) == Some(1) && ReplicaOf(u, 1).CachedDek(KEY, 1) == Some(env.raw)
  {
    var lookup := SecondLookup(c, s, env);
    var found := Run(c, s, lookup);
    SecondUse(c, found, env);
    RunOf(c, found, [Go(1, env)], [found, Next(c, found, Go(1, env))]);
    RunConcat(c, s, lookup, [Go(1, env)]);
    steps := lookup + [Go(1, env)];
  }

  lemma FirstUse(c: Crypto, r: Replica, id: KeyId, version: nat, wrapped: string, dek: Bytes)
    requires r.deks == [] && c.Unwrap(wrapped) == Some(dek)
    ensures var u := r.SetVersion(id, version).UnwrapAndCache(c, id, version, wrapped).0;
            u.CachedVersion(id) == Some(version) && u.CachedDek(id, version) == Some(dek)
  {
    L.LookupAfterSet(r.active, MAX_CACHED_DEKS, id, version, id);
    L.LookupAfterSet(r.deks, MAX_CACHED_DEKS, CacheKey(id, version), dek, CacheKey(id, version));
  }

  lemma BeginTwo(c: Crypto, s: State, env: Env) returns (steps: seq<Step>)
    requires FirstVersion(c, s, env, {0, 1})
    ensures var u := Run(c, s, steps);
            && FirstVersion(c, u, env, {0, 1, 2, 3}) && ReplicaOf(u, 1) == ReplicaOf(s, 1)
            && u.ops[2] == Op(0, 0, RotateKey(None), Starting) && u.ops[3] == Op(1, 0, ENCRYPT, Starting)
  {
    steps := [Begin(2, 0, RotateKey(None)), Begin(3, 1, ENCRYPT)];
    var s1 := Next(c, s, steps[0]);
    RunOf(c, s, steps, [s, s1, Next(c, s1, steps[1])]);
  }

  lemma RotationSelects(c: Crypto, s: State, env: Env) returns (steps: seq<Step>)
    requires FirstVersion(c, s, env, {0, 1, 2, 3})
    requires s.ops[2] == Op(0, 0, RotateKey(None), Starting)
    ensures var u := Run(c, s, steps);
            && FirstVersion(c, u, env, {0, 1, 2, 3}) && ReplicaOf(u, 1) == ReplicaOf(s, 1) && u.ops[3] == s.ops[3]
            && u.ops[2] == Op(0, 0, RotateKey(None), RotateCommitting(Some(1)))
  {
    steps := [Go(2, env), Go(2, env)];
    var s1 := Next(c, s, steps[0]);
    assert s1.ops[2].pc == RotateSelecting && IsActive(s1.table, KEY, 1);
    RunOf(c, s, steps, [s, s1, Next(c, s1, steps[1])]);
  }

  lemma RotationDue(c: Crypto, s: State, env: Env) returns (steps: seq<Step>)
    requires FirstVersion(c, s, env, {0, 1})
    ensures var u := Run(c, s, steps);
            && FirstVersion(c, u, env, {0, 1, 2, 3}) && ReplicaOf(u, 1) == ReplicaOf(s, 1)
            && u.ops[2] == Op(0, 0, RotateKey(None), RotateCommitting(Some(1)))
            && u.ops[3] == Op(1, 0, ENCRYPT, Starting)
  {
    var begins := BeginTwo(c, s, env);
    var rest := RotationSelects(c, Run(c, s, begins), env);
    RunConcat(c, s, begins, rest);
    steps := begins + rest;
  }

  /**
   * From a fresh start: a value sealed on each of two replicas, a rotation on the first, and the
   * next value on the second is sealed under the version that has just been retired.
   */
  lemma RetiredVersionIsUsed(c: Crypto, env: Env) returns (steps: seq<Step>)
    requires c.Sound() && env.Valid() && env.pick == 1
    ensures var s := Run(c, START, steps);
            && 3 in s.ops && s.ops[3].request == ENCRYPT && s.ops[3].pc.Finished? && s.ops[3].pc.outcome.Sealed?
            && ParseEnvelope(s.ops[3].pc.outcome.encoded).Some?
            && ParseEnvelope(s.ops[3].pc.outcome.encoded).value.0 == 1
            && !IsActive(s.table, KEY, 1) && IsActive(s.table, KEY, 2)
  {
    var first := FirstEncryption(c, env);
    var second := SecondEncryption(c, Run(c, START, first), env);
    RunConcat(c, START, first, second);
    var third := RotationDue(c, Run(c, START, first + second), env);
    RunConcat(c, START, first + second, third);
    var due := Run(c, START, first + second + third);
    RunIsSafe(c, first + second + third);
    RotationElsewhereLeavesPointer(c, due, 3, 2, 1, env.raw, env);
    var last := [Go(2, env), Go(3, env)];
    RunOf(c, due, last, [due, Next(c, due, Go(2, env)), Next(c, Next(c, due, Go(2, env)), Go(3, env))]);
    RunConcat(c, START, first + second + third, last);
    steps := first + second + third + last;
    RequestStays(c, due, Go(2, env), 3);
    RequestStays(c, Next(c, due, Go(2, env)), Go(3, env), 3);
  }
}
