/** Theorems about every run of the tenant-key protocol, over any number of replicas. */
module TenantKeyTheorems {
  import opened Wrappers
  import opened Base64
  import opened Envelope
  import opened TenantKeys
  import opened TenantKeySafety

  lemma StartIsSafe(c: Crypto)
    ensures Inv(c, START)
  {
    forall r
      ensures ReplicaIn(c, START, r)
    {
      forall id, v: nat
        ensures DekOk(c, START.table, COLD, id, v)
      {
      }
    }
  }

  lemma NextKeeps(c: Crypto, s: State, step: Step)
    requires Inv(c, s) && c.Sound()
    ensures Inv(c, Next(c, s, step)) && Grows(s.table, Next(c, s, step).table)
  {
    var u := Next(c, s, step);
    SameTable(s.table);
    match step
    case Begin(o, r, _) =>
      assert ReplicaIn(c, s, r) && OpIn(c, s, o);
      assert ReplicaIn(c, u, r) && OpIn(c, u, o);
      StepKeeps(c, s, u, o, r);
    case Go(o, env) =>
      if o in s.ops && env.Valid() {
        AdvanceKeeps(c, s, o, env);
      }
    case Restart(r) =>
      assert ReplicaIn(c, u, r) by {
        assert ReplicaIn(c, s, r);
        forall id, v: nat
          ensures DekOk(c, u.table, ReplicaOf(u, r), id, v)
        {
        }
        forall id
          ensures VersionOk(u.table, ReplicaOf(u, r), id)
        {
        }
      }
      assert OpIn(c, s, 0) && OpIn(c, u, 0);
      StepKeeps(c, s, u, 0, r);
  }

  lemma {:induction false} RunKeeps(c: Crypto, s: State, steps: seq<Step>)
    requires Inv(c, s) && c.Sound()
    ensures Inv(c, Run(c, s, steps)) && Grows(s.table, Run(c, s, steps).table)
  {
    SameTable(s.table);
    if steps != [] {
      var before := Run(c, s, steps[..|steps| - 1]);
      RunKeeps(c, s, steps[..|steps| - 1]);
      NextKeeps(c, before, steps[|steps| - 1]);
      GrowsTransitive(s.table, before.table, Run(c, s, steps).table);
    }
  }

  // ---------------------------------------------------------------------------
  // The key table
  // ---------------------------------------------------------------------------

  /** `table` has versions 1 to n of the tenant's key, and n alone is active (n = 0: none). */
  ghost predicate VersionsTo(table: KeyTable, id: KeyId, n: nat) {
    && (forall v: nat :: (id, v) in table <==> 1 <= v <= n)
    && (forall v: nat :: IsActive(table, id, v) <==> v == n && n > 0)
  }

  /**
   * In every state of every run, races of provisioners and rotations included, a tenant's versions
   * are 1 to n with n alone active, n never shrinks, and no wrapped key ever changes.
   */
  lemma KeyTableShape(c: Crypto, steps: seq<Step>, more: seq<Step>, id: KeyId) returns (n: nat, m: nat)
    requires c.Sound()
    ensures var s, later := Run(c, START, steps), Run(c, Run(c, START, steps), more);
            && n <= m && VersionsTo(s.table, id, n) && VersionsTo(later.table, id, m)
            && forall v: nat :: (id, v) in s.table ==> later.table[(id, v)].wrapped == s.table[(id, v)].wrapped
  {
    StartIsSafe(c);
    RunKeeps(c, START, steps);
    var s := Run(c, START, steps);
    RunKeeps(c, s, more);
    n := ShapeOf(c, s.table, id);
    m := ShapeOf(c, Run(c, s, more).table, id);
    assert RowStays(s.table, Run(c, s, more).table, id, n);
    forall v: nat | (id, v) in s.table
      ensures (id, v) in Run(c, s, more).table && Run(c, s, more).table[(id, v)].wrapped == s.table[(id, v)].wrapped
    {
      assert RowStays(s.table, Run(c, s, more).table, id, v);
    }
  }

  lemma ShapeOf(c: Crypto, table: KeyTable, id: KeyId) returns (n: nat)
    requires TableOk(c, table)
    ensures VersionsTo(table, id, n)
  {
    if (id, 1) in table {
      n := TableShape(c, table, id, 1);
    } else {
      NoRows(c, table, id);
      n := 0;
    }
  }

  /** No request ever fails to provision or to unwrap a key, or meets a second active row. */
  lemma NoKeyFailures(c: Crypto, steps: seq<Step>, o: nat, why: Failure)
    requires c.Sound() && o in Run(c, START, steps).ops && Run(c, START, steps).ops[o].pc == Finished(Failed(why))
    ensures !why.ProvisionFailed? && !why.UnwrapFailed? && !why.TwoActiveRows?
  {
    StartIsSafe(c);
    RunKeeps(c, START, steps);
    assert OpIn(c, Run(c, START, steps), o);
  }

  /** A sealed email names a version that exists and is not above the active one. */
  lemma SealedVersionExists(c: Crypto, steps: seq<Step>, o: nat, encoded: string) returns (version: nat, n: nat)
    requires c.Sound() && o in Run(c, START, steps).ops
    requires var op := Run(c, START, steps).ops[o]; op.request.EncryptEmail? && op.pc == Finished(Sealed(encoded))
    ensures ParseEnvelope(encoded).Some? && ParseEnvelope(encoded).value.0 == version
    ensures 1 <= version <= n && version <= MAX_UINT16
    ensures VersionsTo(Run(c, START, steps).table, Run(c, START, steps).ops[o].request.Id(), n)
  {
    StartIsSafe(c);
    RunKeeps(c, START, steps);
    var s := Run(c, START, steps);
    assert OpIn(c, s, o);
    var op := s.ops[o];
    n := ShapeOf(c, s.table, op.request.Id());
    var v, dek, iv :| SealedWith(c, s.table, op.request.Id(), op.request.plain, encoded, v, dek, iv);
    c.aead.DekRoundTrip(dek, v, op.request.plain, iv);
    version := v;
  }

  // ---------------------------------------------------------------------------
  // Caches are transparent
  // ---------------------------------------------------------------------------

  /** On every replica, a cached key is the one its row unwraps to, and a cached pointer names a row. */
  lemma CachesAgreeWithTable(c: Crypto, steps: seq<Step>, r: nat, id: KeyId, version: nat)
    requires c.Sound()
    ensures var s := Run(c, START, steps);
            var replica := ReplicaOf(s, r);
            && (replica.CachedDek(id, version).Some? ==>
                  (id, version) in s.table &&
                    c.Unwrap(s.table[(id, version)].wrapped) == replica.CachedDek(id, version))
            && (replica.CachedVersion(id).Some? ==> (id, replica.CachedVersion(id).value) in s.table)
  {
    StartIsSafe(c);
    RunKeeps(c, START, steps);
    var s := Run(c, START, steps);
    assert ReplicaIn(c, s, r) && DekOk(c, s.table, ReplicaOf(s, r), id, version) &&
      VersionOk(s.table, ReplicaOf(s, r), id);
  }

  // ---------------------------------------------------------------------------
  // What a step leaves alone
  // ---------------------------------------------------------------------------

  /** Only the program point of request `o` and the caches of its replica may have changed. */
  ghost predicate MovesOnly(s: State, u: State, o: nat)
    requires o in s.ops
  {
    && o in u.ops && u.ops == s.ops[o := s.ops[o].(pc := u.ops[o].pc)]
    && forall r {:trigger ReplicaOf(u, r)} ::
         if r == s.ops[o].replica then ReplicaOf(u, r).epoch == ReplicaOf(s, r).epoch
           else ReplicaOf(u, r) == ReplicaOf(s, r)
  }

  lemma AtMoves(s: State, table: KeyTable, o: nat, pc: Pc)
    requires o in s.ops
    ensures MovesOnly(s, At(s.(table := table), o, pc), o)
  {
  }

  lemma PutMoves(s: State, table: KeyTable, o: nat, replica: Replica, pc: Pc)
    requires o in s.ops && replica.epoch == ReplicaOf(s, s.ops[o].replica).epoch
    ensures MovesOnly(s, Put(s.(table := table), o, replica, pc), o)
  {
  }

  lemma StartMoves(c: Crypto, s: State, o: nat, env: Env)
    requires o in s.ops && s.ops[o].pc.Starting?
    ensures MovesOnly(s, Advance(c, s, o, env), o)
  {
    var u, r := Advance(c, s, o, env), ReplicaOf(s, s.ops[o].replica);
    assert s.(table := s.table) == s;
    AtMoves(s, s.table, o, u.ops[o].pc);
    PutMoves(s, s.table, o, ReplicaOf(u, s.ops[o].replica), u.ops[o].pc);
  }

  lemma UseActiveMoves(c: Crypto, s: State, o: nat, version: nat, wrapped: string, env: Env)
    requires o in s.ops && s.ops[o].request.EncryptEmail?
    ensures MovesOnly(s,
            UseActive(c, s, o, s.ops[o].request.Id(), version, wrapped, s.ops[o].request.plain, env.ivForEmail), o)
  {
    var id := s.ops[o].request.Id();
    var (r, dek) := ReplicaOf(s, s.ops[o].replica).SetVersion(id, version).UnwrapAndCache(c, id, version, wrapped);
    var u := UseActive(c, s, o, id, version, wrapped, s.ops[o].request.plain, env.ivForEmail);
    assert s.(table := s.table) == s;
    PutMoves(s, s.table, o, r, u.ops[o].pc);
  }

  lemma UseVersionMoves(c: Crypto, s: State, o: nat, version: nat, stored: Option<string>, encoded: string)
    requires o in s.ops
    ensures MovesOnly(s, UseVersion(c, s, o, s.ops[o].request.Id(), version, stored, encoded), o)
  {
    var u := UseVersion(c, s, o, s.ops[o].request.Id(), version, stored, encoded);
    assert s.(table := s.table) == s;
    if stored.None? {
      AtMoves(s, s.table, o, u.ops[o].pc);
    } else {
      var (r, _) := ReplicaOf(s, s.ops[o].replica).UnwrapAndCache(c, s.ops[o].request.Id(), version, stored.value);
      PutMoves(s, s.table, o, r, u.ops[o].pc);
    }
  }

  lemma CommitMovesOnly(c: Crypto, s: State, o: nat, active: Option<nat>, raw: Bytes, iv: Bytes)
    requires o in s.ops
    ensures MovesOnly(s, CommitRotation(c, s, o, s.ops[o].request.Id(), active, raw, iv), o)
  {
    var u := CommitRotation(c, s, o, s.ops[o].request.Id(), active, raw, iv);
    var id, next := s.ops[o].request.Id(), if active.Some? then active.value + 1 else 1;
    assert s.(table := s.table) == s;
    AtMoves(s, s.table, o, u.ops[o].pc);
    PutMoves(s, u.table, o, ReplicaOf(s, s.ops[o].replica).SetDek(id, next, raw).SetVersion(id, next), u.ops[o].pc);
  }

  lemma LookupMoves(c: Crypto, s: State, o: nat, env: Env)
    requires o in s.ops && (s.ops[o].pc.FoundActive? || s.ops[o].pc.FoundAgain?)
    ensures MovesOnly(s, Advance(c, s, o, env), o)
  {
    var row := s.ops[o].pc.row;
    if s.ops[o].request.EncryptEmail? && row.Some? {
      UseActiveMoves(c, s, o, row.value.0, row.value.1, env);
    } else {
      assert s.(table := s.table) == s;
      AtMoves(s, s.table, o, Advance(c, s, o, env).ops[o].pc);
    }
  }

  lemma InsertMoves(c: Crypto, s: State, o: nat, env: Env)
    requires o in s.ops && (s.ops[o].pc.Inserting? || s.ops[o].pc.Inserted?)
    ensures MovesOnly(s, Advance(c, s, o, env), o)
  {
    var u, id := Advance(c, s, o, env), s.ops[o].request.Id();
    assert s.(table := s.table) == s;
    if s.ops[o].pc.Inserted? && s.ops[o].pc.won && s.ops[o].request.EncryptEmail? {
      var replica := ReplicaOf(s, s.ops[o].replica).SetDek(id, 1, s.ops[o].pc.raw).SetVersion(id, 1);
      PutMoves(s, s.table, o, replica, u.ops[o].pc);
    } else {
      AtMoves(s, u.table, o, u.ops[o].pc);
    }
  }

  /** The steps that only look something up. */
  lemma FindMoves(c: Crypto, s: State, o: nat, env: Env)
    requires o in s.ops
    requires var pc := s.ops[o].pc;
             pc.FindingActive? || pc.FindingAgain? || pc.FindingVersion? || pc.RotateSelecting? || pc.Finished?
    ensures MovesOnly(s, Advance(c, s, o, env), o)
  {
    assert s.(table := s.table) == s;
    AtMoves(s, s.table, o, Advance(c, s, o, env).ops[o].pc);
  }

  lemma AdvanceMoves(c: Crypto, s: State, o: nat, env: Env)
    requires o in s.ops
    ensures MovesOnly(s, Advance(c, s, o, env), o)
  {
    match s.ops[o].pc
    case Starting => StartMoves(c, s, o, env);
    case FoundActive(_) => LookupMoves(c, s, o, env);
    case FoundAgain(_) => LookupMoves(c, s, o, env);
    case Inserting(_, _) => InsertMoves(c, s, o, env);
    case Inserted(_, _) => InsertMoves(c, s, o, env);
    case FoundVersion(version, stored) =>
      if s.ops[o].request.DecryptEmail? {
        UseVersionMoves(c, s, o, version, stored, s.ops[o].request.encoded);
      }
    case RotateCommitting(active) => CommitMovesOnly(c, s, o, active, env.raw, env.ivForDek);
    case _ => FindMoves(c, s, o, env);
  }

  lemma AdvanceMovesOne(c: Crypto, s: State, o: nat, env: Env, q: nat)
    requires o in s.ops && q != o
    ensures q in Advance(c, s, o, env).ops <==> q in s.ops
    ensures q in s.ops ==> Advance(c, s, o, env).ops[q] == s.ops[q]
  {
    AdvanceMoves(c, s, o, env);
  }
}
