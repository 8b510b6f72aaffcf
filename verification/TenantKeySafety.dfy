/** What every run of the tenant-key protocol keeps, on every replica. */
module TenantKeySafety {
  import opened Wrappers
  import opened Base64
  import opened Envelope
  import opened TenantKeys
  import T = Text
  import L = BoundedLru

  // ---------------------------------------------------------------------------
  // The invariant
  // ---------------------------------------------------------------------------

  ghost predicate UnwrapsTo(c: Crypto, table: KeyTable, id: KeyId, version: nat, dek: Bytes) {
    (id, version) in table && c.Unwrap(table[(id, version)].wrapped) == Some(dek)
  }

  /** Versions have no gap below, exactly the last one is active, and the wrapped key unwraps. */
  ghost predicate RowOk(c: Crypto, table: KeyTable, id: KeyId, version: nat) {
    (id, version) in table ==>
      && version >= 1
      && (version > 1 ==> (id, version - 1) in table)
      && (table[(id, version)].active <==> (id, version + 1) !in table)
      && c.Unwrap(table[(id, version)].wrapped).Some?
  }

  ghost predicate TableOk(c: Crypto, table: KeyTable) {
    forall id, v: nat {:trigger RowOk(c, table, id, v)} :: RowOk(c, table, id, v)
  }

  ghost predicate DekOk(c: Crypto, table: KeyTable, r: Replica, id: KeyId, version: nat) {
    r.CachedDek(id, version).Some? ==> UnwrapsTo(c, table, id, version, r.CachedDek(id, version).value)
  }

  ghost predicate VersionOk(table: KeyTable, r: Replica, id: KeyId) {
    r.CachedVersion(id).Some? ==> (id, r.CachedVersion(id).value) in table
  }

  ghost predicate ReplicaOk(c: Crypto, table: KeyTable, r: Replica) {
    && (forall id, v: nat {:trigger DekOk(c, table, r, id, v)} :: DekOk(c, table, r, id, v))
    && (forall id {:trigger VersionOk(table, r, id)} :: VersionOk(table, r, id))
  }

  ghost predicate HasWrapped(table: KeyTable, id: KeyId, version: nat, wrapped: string) {
    (id, version) in table && table[(id, version)].wrapped == wrapped
  }

  /** `encoded` was sealed under some version of the tenant's key. */
  ghost predicate SealedUnder(c: Crypto, table: KeyTable, id: KeyId, plain: Bytes, encoded: string) {
    exists version: nat, dek: Bytes, iv: Bytes :: SealedWith(c, table, id, plain, encoded, version, dek, iv)
  }

  ghost predicate SealedWith(c: Crypto, table: KeyTable, id: KeyId, plain: Bytes, encoded: string, version: nat,
                             dek: Bytes, iv: Bytes) {
    && UnwrapsTo(c, table, id, version, dek) && |iv| == GCM_IV_LENGTH
    && c.aead.EncryptWithDek(dek, version, plain, iv) == Some(encoded)
  }

  /** decryptEmail without caches, answered from the table alone. */
  function Direct(c: Crypto, table: KeyTable, id: KeyId, encoded: string): Outcome {
    match ParseEnvelope(encoded)
    case None => Failed(MalformedEnvelope)
    case Some((version, _)) =>
      if (id, version) !in table then Failed(NoKeyRow)
      else
        match c.Unwrap(table[(id, version)].wrapped)
        case None => Failed(UnwrapFailed)
        case Some(dek) => Open(c, dek, encoded).outcome
  }

  ghost predicate ReadsVersion(op: Op, version: nat) {
    && op.request.DecryptEmail?
    && ParseEnvelope(op.request.encoded).Some? && ParseEnvelope(op.request.encoded).value.0 == version
  }

  ghost predicate OutcomeOk(c: Crypto, table: KeyTable, request: Request, outcome: Outcome) {
    && (request.DecryptEmail? ==>
          outcome == Failed(NoKeyRow) || outcome == Direct(c, table, request.Id(), request.encoded))
    && (request.EncryptEmail? && outcome.Sealed? ==>
         SealedUnder(c, table, request.Id(), request.plain, outcome.encoded))
    && (outcome.Failed? ==> !outcome.why.UnwrapFailed? && !outcome.why.ProvisionFailed? && !outcome.why.TwoActiveRows?)
  }

  ghost predicate OpOk(c: Crypto, table: KeyTable, op: Op) {
    var id := op.request.Id();
    match op.pc
    case Inserting(raw, wrapped) => c.Unwrap(wrapped) == Some(raw) && op.request.EncryptEmail?
    case Inserted(won, raw) => (if won then UnwrapsTo(c, table, id, 1, raw) else (id, 1) in table) &&
      op.request.EncryptEmail?
    case FindingVersion(v) => ReadsVersion(op, v)
    case FoundVersion(v, stored) => ReadsVersion(op, v) && (stored.Some? ==> HasWrapped(table, id, v, stored.value))
    case RotateSelecting => op.request.RotateKey?
    case RotateCommitting(active) => op.request.RotateKey? && (active.Some? ==> (id, active.value) in table)
    case Finished(outcome) => OutcomeOk(c, table, op.request, outcome)
    case Starting => true
    case FindingActive => op.request.EncryptEmail?
    case FoundActive(None) => op.request.EncryptEmail?
    case FoundActive(Some((v, wrapped))) => HasWrapped(table, id, v, wrapped) && op.request.EncryptEmail?
    case FindingAgain => (id, 1) in table && op.request.EncryptEmail?
    case FoundAgain(None) => false
    case FoundAgain(Some((v, wrapped))) => HasWrapped(table, id, v, wrapped) && op.request.EncryptEmail?
  }

  ghost predicate OpIn(c: Crypto, s: State, o: nat) {
    o in s.ops ==> OpOk(c, s.table, s.ops[o])
  }

  ghost predicate ReplicaIn(c: Crypto, s: State, r: nat) {
    ReplicaOk(c, s.table, ReplicaOf(s, r))
  }

  ghost predicate Inv(c: Crypto, s: State) {
    && TableOk(c, s.table)
    && (forall r {:trigger ReplicaIn(c, s, r)} :: ReplicaIn(c, s, r))
    && (forall o {:trigger OpIn(c, s, o)} :: OpIn(c, s, o))
  }

  // ---------------------------------------------------------------------------
  // A growing table
  // ---------------------------------------------------------------------------

  ghost predicate RowStays(t: KeyTable, u: KeyTable, id: KeyId, version: nat) {
    (id, version) in t ==> HasWrapped(u, id, version, t[(id, version)].wrapped)
  }

  /** No row disappears and no wrapped key changes. */
  ghost predicate Grows(t: KeyTable, u: KeyTable) {
    forall id, v: nat {:trigger RowStays(t, u, id, v)} :: RowStays(t, u, id, v)
  }

  lemma GrowsTransitive(t: KeyTable, u: KeyTable, v: KeyTable)
    requires Grows(t, u) && Grows(u, v)
    ensures Grows(t, v)
  {
    forall id, n: nat
      ensures RowStays(t, v, id, n)
    {
      assert RowStays(t, u, id, n) && RowStays(u, v, id, n);
    }
  }

  lemma ReplicaGrows(c: Crypto, t: KeyTable, u: KeyTable, r: Replica)
    requires ReplicaOk(c, t, r) && Grows(t, u)
    ensures ReplicaOk(c, u, r)
  {
    forall id, v: nat
      ensures DekOk(c, u, r, id, v)
    {
      assert DekOk(c, t, r, id, v) && RowStays(t, u, id, v);
    }
    forall id
      ensures VersionOk(u, r, id)
    {
      assert VersionOk(t, r, id);
      if r.CachedVersion(id).Some? {
        assert RowStays(t, u, id, r.CachedVersion(id).value);
      }
    }
  }

  lemma SealedGrows(c: Crypto, t: KeyTable, u: KeyTable, id: KeyId, plain: Bytes, encoded: string)
    requires SealedUnder(c, t, id, plain, encoded) && Grows(t, u)
    ensures SealedUnder(c, u, id, plain, encoded)
  {
    var version, dek, iv :| SealedWith(c, t, id, plain, encoded, version, dek, iv);
    assert RowStays(t, u, id, version);
    assert SealedWith(c, u, id, plain, encoded, version, dek, iv);
  }

  lemma OpGrows(c: Crypto, t: KeyTable, u: KeyTable, op: Op)
    requires OpOk(c, t, op) && Grows(t, u)
    ensures OpOk(c, u, op)
  {
    var id := op.request.Id();
    match op.pc
    case FoundActive(Some((v, _))) => assert RowStays(t, u, id, v);
    case Inserted(_, _) => assert RowStays(t, u, id, 1);
    case FindingAgain => assert RowStays(t, u, id, 1);
    case FoundAgain(Some((v, _))) => assert RowStays(t, u, id, v);
    case FoundVersion(v, _) => assert RowStays(t, u, id, v);
    case RotateCommitting(Some(v)) => assert RowStays(t, u, id, v);
    case Finished(outcome) =>
      if op.request.EncryptEmail? && outcome.Sealed? {
        SealedGrows(c, t, u, id, op.request.plain, outcome.encoded);
      } else if op.request.DecryptEmail? && ParseEnvelope(op.request.encoded).Some? {
        assert RowStays(t, u, id, ParseEnvelope(op.request.encoded).value.0);
      }
    case _ =>
  }

  // ---------------------------------------------------------------------------
  // Cache writes
  // ---------------------------------------------------------------------------

  lemma TouchDekKeeps(c: Crypto, table: KeyTable, r: Replica, id: KeyId, version: nat)
    requires ReplicaOk(c, table, r)
    ensures ReplicaOk(c, table, r.TouchDek(id, version))
  {
    var u := r.TouchDek(id, version);
    forall i, v: nat
      ensures DekOk(c, table, u, i, v)
    {
      L.LookupAfterGet(r.deks, CacheKey(id, version), CacheKey(i, v));
      assert DekOk(c, table, r, i, v);
    }
    forall i
      ensures VersionOk(table, u, i)
    {
      assert VersionOk(table, r, i);
    }
  }

  lemma TouchVersionKeeps(c: Crypto, table: KeyTable, r: Replica, id: KeyId)
    requires ReplicaOk(c, table, r)
    ensures ReplicaOk(c, table, r.TouchVersion(id))
  {
    var u := r.TouchVersion(id);
    forall i, v: nat
      ensures DekOk(c, table, u, i, v)
    {
      assert DekOk(c, table, r, i, v);
    }
    forall i
      ensures VersionOk(table, u, i)
    {
      L.LookupAfterGet(r.active, id, i);
      assert VersionOk(table, r, i);
    }
  }

  /** Needs the key string to determine tenant and version. */
  lemma SetDekKeeps(c: Crypto, table: KeyTable, r: Replica, id: KeyId, version: nat, dek: Bytes)
    requires ReplicaOk(c, table, r) && UnwrapsTo(c, table, id, version, dek)
    ensures ReplicaOk(c, table, r.SetDek(id, version, dek))
  {
    var u := r.SetDek(id, version, dek);
    forall i, v: nat
      ensures DekOk(c, table, u, i, v)
    {
      L.LookupAfterSet(r.deks, MAX_CACHED_DEKS, CacheKey(id, version), dek, CacheKey(i, v));
      assert DekOk(c, table, r, i, v);
      if CacheKey(i, v) == CacheKey(id, version) {
        T.KeyedInjective(i, v, id, version);
      }
    }
    forall i
      ensures VersionOk(table, u, i)
    {
      assert VersionOk(table, r, i);
    }
  }

  lemma SetVersionKeeps(c: Crypto, table: KeyTable, r: Replica, id: KeyId, version: nat)
    requires ReplicaOk(c, table, r) && (id, version) in table
    ensures ReplicaOk(c, table, r.SetVersion(id, version))
  {
    var u := r.SetVersion(id, version);
    forall i, v: nat
      ensures DekOk(c, table, u, i, v)
    {
      assert DekOk(c, table, r, i, v);
    }
    forall i
      ensures VersionOk(table, u, i)
    {
      L.LookupAfterSet(r.active, MAX_CACHED_DEKS, id, version, i);
      assert VersionOk(table, r, i);
    }
  }

  /** Cached or not, the result is what the row unwraps to. */
  lemma UnwrapAndCacheKeeps(c: Crypto, table: KeyTable, r: Replica, id: KeyId, version: nat, wrapped: string)
    requires TableOk(c, table) && ReplicaOk(c, table, r) && HasWrapped(table, id, version, wrapped)
    ensures var (u, dek) := r.UnwrapAndCache(c, id, version, wrapped);
            ReplicaOk(c, table, u) && dek.Some? && UnwrapsTo(c, table, id, version, dek.value)
  {
    assert RowOk(c, table, id, version) && DekOk(c, table, r, id, version);
    if r.CachedDek(id, version).Some? {
      TouchDekKeeps(c, table, r, id, version);
    } else {
      SetDekKeeps(c, table, r, id, version, c.Unwrap(wrapped).value);
    }
  }

  // ---------------------------------------------------------------------------
  // The table's shape
  // ---------------------------------------------------------------------------

  function Keys(id: KeyId, n: nat): set<(KeyId, nat)> {
    if n == 0 then {} else Keys(id, n - 1) + {(id, n)}
  }

  lemma {:induction false} KeysAre(id: KeyId, n: nat)
    ensures |Keys(id, n)| == n
    ensures forall k :: k in Keys(id, n) <==> k.0 == id && 1 <= k.1 <= n
  {
    if n > 0 {
      KeysAre(id, n - 1);
    }
  }

  lemma {:induction false} DownwardClosed(c: Crypto, table: KeyTable, id: KeyId, version: nat, v: nat)
    requires TableOk(c, table) && (id, version) in table && 1 <= v <= version
    ensures (id, v) in table
  {
    assert RowOk(c, table, id, version);
    if v < version {
      DownwardClosed(c, table, id, version - 1, v);
    }
  }

  /** The tenant's last version: everything from `version` on, if the rows above were all present. */
  lemma {:induction false} LastVersion(c: Crypto, table: KeyTable, id: KeyId, version: nat) returns (n: nat)
    requires TableOk(c, table) && (id, version) in table
    ensures version <= n && (id, n) in table && (id, n + 1) !in table
    decreases |table| - version
  {
    forall k | k in Keys(id, version)
      ensures k in table.Keys
    {
      KeysAre(id, version);
      DownwardClosed(c, table, id, version, k.1);
    }
    KeysAre(id, version);
    CountInside(Keys(id, version), table.Keys);
    assert RowOk(c, table, id, version);
    if (id, version + 1) in table {
      n := LastVersion(c, table, id, version + 1);
    } else {
      n := version;
    }
  }

  lemma CountInside<X>(a: set<X>, b: set<X>)
    requires a <= b
    ensures |a| <= |b|
  {
    assert b == a + (b - a);
  }

  /** A tenant that has any key has versions 1 to n for some n, of which n alone is active. */
  lemma TableShape(c: Crypto, table: KeyTable, id: KeyId, version: nat) returns (n: nat)
    requires TableOk(c, table) && (id, version) in table
    ensures n >= 1
    ensures forall v: nat :: (id, v) in table <==> 1 <= v <= n
    ensures forall v: nat :: IsActive(table, id, v) <==> v == n
  {
    n := LastVersion(c, table, id, version);
    assert RowOk(c, table, id, n);
    forall v: nat
      ensures (id, v) in table <==> 1 <= v <= n
      ensures IsActive(table, id, v) <==> v == n
    {
      assert RowOk(c, table, id, v);
      if 1 <= v <= n {
        DownwardClosed(c, table, id, n, v);
        if v < n {
          DownwardClosed(c, table, id, n, v + 1);
        }
      }
      if v > n && (id, v) in table {
        DownwardClosed(c, table, id, v, n + 1);
      }
    }
  }

  lemma FirstInsertKeeps(c: Crypto, table: KeyTable, id: KeyId, row: KeyRow)
    requires TableOk(c, table) && (id, 1) !in table && row.active && c.Unwrap(row.wrapped).Some?
    ensures var u := table[(id, 1) := row]; TableOk(c, u) && Grows(table, u)
  {
    var u := table[(id, 1) := row];
    NoRows(c, table, id);
    forall i, v: nat
      ensures RowOk(c, u, i, v) && RowStays(table, u, i, v)
    {
      assert RowOk(c, table, i, v);
    }
  }

  lemma NoRows(c: Crypto, table: KeyTable, id: KeyId)
    requires TableOk(c, table) && (id, 1) !in table
    ensures forall v: nat :: (id, v) !in table
    ensures NoneActive(table, id)
  {
    forall v: nat
      ensures (id, v) !in table
    {
      assert RowOk(c, table, id, v);
      if (id, v) in table {
        DownwardClosed(c, table, id, v, 1);
      }
    }
  }

  /** Retiring the last version and inserting its successor. */
  lemma SuccessorKeeps(c: Crypto, table: KeyTable, id: KeyId, active: nat, row: KeyRow)
    requires TableOk(c, table) && (id, active) in table && (id, active + 1) !in table
    requires row.active && c.Unwrap(row.wrapped).Some?
    ensures NoneActive(Retire(table, id, active), id)
    ensures var u := Retire(table, id, active)[(id, active + 1) := row]; TableOk(c, u) && Grows(table, u)
  {
    var n := TableShape(c, table, id, active);
    var u := Retire(table, id, active)[(id, active + 1) := row];
    forall v: nat
      ensures !IsActive(Retire(table, id, active), id, v)
    {
      assert IsActive(table, id, v) <==> v == n;
      assert (id, active + 1) in table <==> active + 1 <= n;
    }
    forall i, v: nat
      ensures RowOk(c, u, i, v) && RowStays(table, u, i, v)
    {
      assert RowOk(c, table, i, v);
    }
  }

  // ---------------------------------------------------------------------------
  // One step
  // ---------------------------------------------------------------------------

  /** Only request `o` and its replica `r` changed, and the table grew. */
  lemma StepKeeps(c: Crypto, s: State, u: State, o: nat, r: nat)
    requires Inv(c, s) && TableOk(c, u.table) && Grows(s.table, u.table)
    requires forall q :: q != r ==> ReplicaOf(u, q) == ReplicaOf(s, q)
    requires forall q :: q != o && q in u.ops ==> q in s.ops && u.ops[q] == s.ops[q]
    requires ReplicaIn(c, u, r) && OpIn(c, u, o)
    ensures Inv(c, u)
  {
    forall q
      ensures ReplicaIn(c, u, q)
    {
      assert ReplicaIn(c, s, q);
      if q != r {
        ReplicaGrows(c, s.table, u.table, ReplicaOf(s, q));
      }
    }
    forall q
      ensures OpIn(c, u, q)
    {
      assert OpIn(c, s, q);
      if q != o && q in u.ops {
        OpGrows(c, s.table, u.table, s.ops[q]);
      }
    }
  }

  lemma SameTable(t: KeyTable)
    ensures Grows(t, t)
  {
    forall id, v: nat
      ensures RowStays(t, t, id, v)
    {
    }
  }

  lemma AtKeeps(c: Crypto, s: State, o: nat, pc: Pc)
    requires Inv(c, s) && o in s.ops && OpOk(c, s.table, s.ops[o].(pc := pc))
    ensures Inv(c, At(s, o, pc)) && Grows(s.table, s.table)
  {
    SameTable(s.table);
    var r := s.ops[o].replica;
    assert ReplicaIn(c, s, r);
    StepKeeps(c, s, At(s, o, pc), o, r);
  }

  lemma PutKeeps(c: Crypto, s: State, o: nat, r: Replica, pc: Pc)
    requires Inv(c, s) && o in s.ops && ReplicaOk(c, s.table, r) && OpOk(c, s.table, s.ops[o].(pc := pc))
    ensures Inv(c, Put(s, o, r, pc)) && Grows(s.table, s.table)
  {
    SameTable(s.table);
    StepKeeps(c, s, Put(s, o, r, pc), o, s.ops[o].replica);
  }

  /** What encryptEmail ends with once it has a version and the key that version unwraps to. */
  lemma SealOk(c: Crypto, table: KeyTable, op: Op, version: nat, dek: Bytes, iv: Bytes)
    requires op.request.EncryptEmail? && UnwrapsTo(c, table, op.request.Id(), version, dek) && |iv| == GCM_IV_LENGTH
    ensures OpOk(c, table, op.(pc := Seal(c, dek, version, op.request.plain, iv)))
  {
    var sealed := c.aead.EncryptWithDek(dek, version, op.request.plain, iv);
    if sealed.Some? {
      assert SealedWith(c, table, op.request.Id(), op.request.plain, sealed.value, version, dek, iv);
    }
  }

  lemma StartEncryptKeeps(c: Crypto, s: State, o: nat, plain: Bytes, iv: Bytes)
    requires Inv(c, s) && o in s.ops && s.ops[o].request.EncryptEmail? && s.ops[o].request.plain == plain &&
             |iv| == GCM_IV_LENGTH
    ensures Inv(c, StartEncrypt(c, s, o, s.ops[o].request.Id(), plain, iv))
  {
    var op := s.ops[o];
    var id := op.request.Id();
    var r := ReplicaOf(s, op.replica);
    assert ReplicaIn(c, s, op.replica);
    if r.CachedVersion(id).None? {
      AtKeeps(c, s, o, FindingActive);
    } else {
      var version := r.CachedVersion(id).value;
      TouchVersionKeeps(c, s.table, r, id);
      if r.CachedDek(id, version).None? {
        PutKeeps(c, s, o, r.TouchVersion(id), FindingActive);
      } else {
        var dek := r.CachedDek(id, version).value;
        assert DekOk(c, s.table, r, id, version);
        TouchDekKeeps(c, s.table, r.TouchVersion(id), id, version);
        SealOk(c, s.table, op, version, dek, iv);
        PutKeeps(c, s, o, r.TouchVersion(id).TouchDek(id, version), Seal(c, dek, version, plain, iv));
      }
    }
  }

  lemma StartDecryptKeeps(c: Crypto, s: State, o: nat, encoded: string)
    requires Inv(c, s) && o in s.ops && s.ops[o].request.DecryptEmail? && s.ops[o].request.encoded == encoded
    ensures Inv(c, StartDecrypt(c, s, o, s.ops[o].request.Id(), encoded))
  {
    var op := s.ops[o];
    var id := op.request.Id();
    var r := ReplicaOf(s, op.replica);
    assert ReplicaIn(c, s, op.replica);
    var parsed := ParseEnvelope(encoded);
    if parsed.None? {
      AtKeeps(c, s, o, Finished(Failed(MalformedEnvelope)));
    } else if r.CachedDek(id, parsed.value.0).None? {
      AtKeeps(c, s, o, FindingVersion(parsed.value.0));
    } else {
      TouchDekKeeps(c, s.table, r, id, parsed.value.0);
      assert DekOk(c, s.table, r, id, parsed.value.0);
      PutKeeps(c, s, o, r.TouchDek(id, parsed.value.0), Open(c, r.CachedDek(id, parsed.value.0).value, encoded));
    }
  }

  lemma UseActiveKeeps(c: Crypto, s: State, o: nat, version: nat, wrapped: string, plain: Bytes, iv: Bytes)
    requires Inv(c, s) && o in s.ops && s.ops[o].request.EncryptEmail? && s.ops[o].request.plain == plain &&
             |iv| == GCM_IV_LENGTH
    requires HasWrapped(s.table, s.ops[o].request.Id(), version, wrapped)
    ensures Inv(c, UseActive(c, s, o, s.ops[o].request.Id(), version, wrapped, plain, iv))
  {
    var op := s.ops[o];
    var id := op.request.Id();
    var r := ReplicaOf(s, op.replica);
    assert ReplicaIn(c, s, op.replica);
    SetVersionKeeps(c, s.table, r, id, version);
    UnwrapAndCacheKeeps(c, s.table, r.SetVersion(id, version), id, version, wrapped);
    var (u, dek) := r.SetVersion(id, version).UnwrapAndCache(c, id, version, wrapped);
    SealOk(c, s.table, op, version, dek.value, iv);
    PutKeeps(c, s, o, u, Seal(c, dek.value, version, plain, iv));
  }

  lemma InsertFirstKeeps(c: Crypto, s: State, o: nat, raw: Bytes, wrapped: string)
    requires Inv(c, s) && o in s.ops && c.Unwrap(wrapped) == Some(raw) && s.ops[o].request.EncryptEmail?
    ensures var u := InsertFirst(s, o, s.ops[o].request.Id(), raw, wrapped); Inv(c, u) && Grows(s.table, u.table)
  {
    var op := s.ops[o];
    var id := op.request.Id();
    if (id, 1) in s.table {
      AtKeeps(c, s, o, Inserted(false, raw));
    } else {
      NoRows(c, s.table, id);
      var row := KeyRow(wrapped, true);
      FirstInsertKeeps(c, s.table, id, row);
      var u := At(s.(table := s.table[(id, 1) := row]), o, Inserted(true, raw));
      assert ReplicaIn(c, s, op.replica);
      ReplicaGrows(c, s.table, u.table, ReplicaOf(s, op.replica));
      StepKeeps(c, s, u, o, op.replica);
    }
  }

  lemma UseInsertedKeeps(c: Crypto, s: State, o: nat, raw: Bytes, plain: Bytes, iv: Bytes)
    requires Inv(c, s) && o in s.ops && s.ops[o].request.EncryptEmail? && s.ops[o].request.plain == plain &&
             |iv| == GCM_IV_LENGTH
    requires UnwrapsTo(c, s.table, s.ops[o].request.Id(), 1, raw)
    ensures Inv(c, UseInserted(c, s, o, s.ops[o].request.Id(), raw, plain, iv))
  {
    var op := s.ops[o];
    var id := op.request.Id();
    var r := ReplicaOf(s, op.replica);
    assert ReplicaIn(c, s, op.replica);
    SetDekKeeps(c, s.table, r, id, 1, raw);
    SetVersionKeeps(c, s.table, r.SetDek(id, 1, raw), id, 1);
    SealOk(c, s.table, op, 1, raw, iv);
    PutKeeps(c, s, o, r.SetDek(id, 1, raw).SetVersion(id, 1), Seal(c, raw, 1, plain, iv));
  }

  lemma UseVersionKeeps(c: Crypto, s: State, o: nat, version: nat, stored: Option<string>, encoded: string)
    requires Inv(c, s) && o in s.ops && ReadsVersion(s.ops[o], version) && s.ops[o].request.encoded == encoded
    requires stored.Some? ==> HasWrapped(s.table, s.ops[o].request.Id(), version, stored.value)
    ensures Inv(c, UseVersion(c, s, o, s.ops[o].request.Id(), version, stored, encoded))
  {
    if stored.None? {
      AtKeeps(c, s, o, Finished(Failed(NoKeyRow)));
    } else {
      var id := s.ops[o].request.Id();
      var r := ReplicaOf(s, s.ops[o].replica);
      assert ReplicaIn(c, s, s.ops[o].replica);
      UnwrapAndCacheKeeps(c, s.table, r, id, version, stored.value);
      var (u, dek) := r.UnwrapAndCache(c, id, version, stored.value);
      PutKeeps(c, s, o, u, Open(c, dek.value, encoded));
    }
  }

  lemma CommitRotationKeeps(c: Crypto, s: State, o: nat, active: Option<nat>, raw: Bytes, iv: Bytes)
    requires Inv(c, s) && o in s.ops && s.ops[o].request.RotateKey? && c.Sound() && |iv| == GCM_IV_LENGTH
    requires active.Some? ==> (s.ops[o].request.Id(), active.value) in s.table
    ensures var u := CommitRotation(c, s, o, s.ops[o].request.Id(), active, raw, iv);
            Inv(c, u) && Grows(s.table, u.table)
  {
    var op := s.ops[o];
    var id := op.request.Id();
    var next := if active.Some? then active.value + 1 else 1;
    if (id, next) in s.table {
      AtKeeps(c, s, o, Finished(Failed(RotationLost)));
    } else {
      c.aead.KeyRoundTrip(c.kek, iv, raw);
      var row := KeyRow(c.Wrap(raw, iv), true);
      if active.Some? {
        SuccessorKeeps(c, s.table, id, active.value, row);
      } else {
        NoRows(c, s.table, id);
        FirstInsertKeeps(c, s.table, id, row);
      }
      var retired := if active.Some? then Retire(s.table, id, active.value) else s.table;
      RotationCommitted(c, s, o, retired[(id, next) := row], id, next, raw);
    }
  }

  lemma RotationCommitted(c: Crypto, s: State, o: nat, table: KeyTable, id: KeyId, next: nat, raw: Bytes)
    requires Inv(c, s) && o in s.ops && s.ops[o].request.RotateKey?
    requires TableOk(c, table) && Grows(s.table, table) && UnwrapsTo(c, table, id, next, raw)
    ensures Inv(c, Put(s.(table := table), o, ReplicaOf(s, s.ops[o].replica).SetDek(id, next, raw).SetVersion(id, next),
                       Finished(RotatedTo(next))))
  {
    var r := ReplicaOf(s, s.ops[o].replica);
    assert ReplicaIn(c, s, s.ops[o].replica);
    ReplicaGrows(c, s.table, table, r);
    SetDekKeeps(c, table, r, id, next, raw);
    SetVersionKeeps(c, table, r.SetDek(id, next, raw), id, next);
    var u := Put(s.(table := table), o, r.SetDek(id, next, raw).SetVersion(id, next), Finished(RotatedTo(next)));
    StepKeeps(c, s, u, o, s.ops[o].replica);
  }

  lemma FindActiveOk(c: Crypto, table: KeyTable, id: KeyId, pick: nat)
    requires TableOk(c, table)
    ensures var found := FindActive(table, id, pick);
            && (found.Some? && found.value.Some? ==> HasWrapped(table, id, found.value.value.0, found.value.value.1))
            && (found == Some(None) ==> (id, 1) !in table)
  {
    if (id, 1) in table {
      var n := TableShape(c, table, id, 1);
      assert IsActive(table, id, n);
    }
  }

  lemma AdvanceKeeps(c: Crypto, s: State, o: nat, env: Env)
    requires Inv(c, s) && o in s.ops && c.Sound() && env.Valid()
    ensures var u := Advance(c, s, o, env); Inv(c, u) && Grows(s.table, u.table)
  {
    var op := s.ops[o];
    var id := op.request.Id();
    assert OpIn(c, s, o);
    SameTable(s.table);
    match op.pc
    case Starting =>
      match op.request {
        case EncryptEmail(_, plain) => StartEncryptKeeps(c, s, o, plain, env.ivForEmail);
        case DecryptEmail(_, encoded) => StartDecryptKeeps(c, s, o, encoded);
        case RotateKey(_) => AtKeeps(c, s, o, RotateSelecting);
      }
    case FindingActive =>
      FindActiveOk(c, s.table, id, env.pick);
      if FindActive(s.table, id, env.pick).Some? {
        AtKeeps(c, s, o, FoundActive(FindActive(s.table, id, env.pick).value));
      }
    case FoundActive(row) =>
      if op.request.EncryptEmail? {
        if row.None? {
          c.aead.KeyRoundTrip(c.kek, env.ivForDek, env.raw);
          AtKeeps(c, s, o, Inserting(env.raw, c.Wrap(env.raw, env.ivForDek)));
        } else {
          UseActiveKeeps(c, s, o, row.value.0, row.value.1, op.request.plain, env.ivForEmail);
        }
      }
    case Inserting(raw, wrapped) => InsertFirstKeeps(c, s, o, raw, wrapped);
    case Inserted(won, raw) =>
      if !won {
        AtKeeps(c, s, o, FindingAgain);
      } else if op.request.EncryptEmail? {
        UseInsertedKeeps(c, s, o, raw, op.request.plain, env.ivForEmail);
      }
    case FindingAgain =>
      FindActiveOk(c, s.table, id, env.pick);
      if FindActive(s.table, id, env.pick).Some? {
        AtKeeps(c, s, o, FoundAgain(FindActive(s.table, id, env.pick).value));
      }
    case FoundAgain(row) =>
      if op.request.EncryptEmail? {
        UseActiveKeeps(c, s, o, row.value.0, row.value.1, op.request.plain, env.ivForEmail);
      }
    case FindingVersion(version) =>
      var stored := if (id, version) in s.table then Some(s.table[(id, version)].wrapped) else None;
      AtKeeps(c, s, o, FoundVersion(version, stored));
    case FoundVersion(version, stored) =>
      if op.request.DecryptEmail? {
        UseVersionKeeps(c, s, o, version, stored, op.request.encoded);
      }
    case RotateSelecting =>
      FindActiveOk(c, s.table, id, env.pick);
      var found := FindActive(s.table, id, env.pick);
      if found.Some? {
        AtKeeps(c, s, o, RotateCommitting(if found.value.Some? then Some(found.value.value.0) else None));
      }
    case RotateCommitting(active) => CommitRotationKeeps(c, s, o, active, env.raw, env.ivForDek);
    case Finished(_) =>
  }
}
