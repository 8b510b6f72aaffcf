/**
 * Per-tenant envelope keys (tenantKey.service.ts, encryptEmail and decryptEmail of crypto.ts) as a
 * protocol: any number of replicas, each with its own two caches, share one key table. Every SQL
 * statement is a step, and so is what the request does next; a rotation's UPDATE and INSERT commit
 * together with its cache writes. A restart empties a replica's caches and abandons its requests.
 */
module TenantKeys {
  import opened Wrappers
  import opened Base64
  import opened Envelope
  import T = Text
  import L = BoundedLru

  const DEFAULT_TENANT_KEY_ID: string := "00000000-0000-0000-0000-000000000000"
  const MAX_CACHED_DEKS: nat := 500

  type KeyId = string

  function ResolveTenantKeyId(tenant: Option<string>): KeyId {
    if tenant.Some? then tenant.value else DEFAULT_TENANT_KEY_ID
  }

  function CacheKey(id: KeyId, version: nat): string {
    T.Keyed(id, version)
  }

  /** The AEAD and the key-encrypting key every replica is configured with. */
  datatype Crypto = Crypto(aead: Aead, kek: Bytes)
  {
    ghost predicate Sound() { aead.Sound() }

    function Wrap(dek: Bytes, iv: Bytes): string { aead.EncryptWithKey(kek, iv, dek) }

    function Unwrap(wrapped: string): Option<Bytes> { aead.DecryptWithKey(kek, wrapped) }
  }

  // ---------------------------------------------------------------------------
  // The key table
  // ---------------------------------------------------------------------------

  datatype KeyRow = KeyRow(wrapped: string, active: bool)

  /** Primary key (tenant_id, key_version). */
  type KeyTable = map<(KeyId, nat), KeyRow>

  predicate IsActive(table: KeyTable, id: KeyId, version: nat) {
    (id, version) in table && table[(id, version)].active
  }

  ghost predicate NoneActive(table: KeyTable, id: KeyId) {
    forall v: nat :: !IsActive(table, id, v)
  }

  function Retire(table: KeyTable, id: KeyId, version: nat): KeyTable {
    if (id, version) in table then table[(id, version) := table[(id, version)].(active := false)] else table
  }

  // ---------------------------------------------------------------------------
  // A replica's caches
  // ---------------------------------------------------------------------------

  type DekCache = seq<(string, Bytes)>
  type VersionCache = seq<(KeyId, nat)>

  datatype Replica = Replica(deks: DekCache, active: VersionCache, epoch: nat)
  {
    function CachedDek(id: KeyId, version: nat): Option<Bytes> {
      L.Lookup(deks, CacheKey(id, version))
    }

    function CachedVersion(id: KeyId): Option<nat> {
      L.Lookup(active, id)
    }

    function TouchDek(id: KeyId, version: nat): Replica {
      this.(deks := L.AfterGet(deks, CacheKey(id, version)))
    }

    function TouchVersion(id: KeyId): Replica {
      this.(active := L.AfterGet(active, id))
    }

    function SetDek(id: KeyId, version: nat, dek: Bytes): Replica {
      this.(deks := L.AfterSet(deks, MAX_CACHED_DEKS, CacheKey(id, version), dek))
    }

    function SetVersion(id: KeyId, version: nat): Replica {
      this.(active := L.AfterSet(active, MAX_CACHED_DEKS, id, version))
    }

    /** unwrapAndCache; None where unwrapping throws. */
    function UnwrapAndCache(c: Crypto, id: KeyId, version: nat, wrapped: string): (Replica, Option<Bytes>) {
      match CachedDek(id, version)
      case Some(dek) => (TouchDek(id, version), Some(dek))
      case None =>
        match c.Unwrap(wrapped)
        case None => (this, None)
        case Some(dek) => (SetDek(id, version, dek), Some(dek))
    }
  }

  const COLD: Replica := Replica([], [], 0)

  // ---------------------------------------------------------------------------
  // Requests
  // ---------------------------------------------------------------------------

  datatype Request =
    | EncryptEmail(tenant: Option<string>, plain: Bytes)
    | DecryptEmail(tenant: Option<string>, encoded: string)
    | RotateKey(tenant: Option<string>)
  {
    function Id(): KeyId { ResolveTenantKeyId(tenant) }
  }

  datatype Failure =
    | VersionTooLarge
    | MalformedEnvelope
    | NoKeyRow
    | BadCiphertext
    | RotationLost
    | UnwrapFailed
    | ProvisionFailed
    | TwoActiveRows

  datatype Outcome = Sealed(encoded: string) | Opened(plain: Bytes) | RotatedTo(version: nat) | Failed(why: Failure)

  datatype Pc =
    | Starting
    | FindingActive
    | FoundActive(row: Option<(nat, string)>)
    | Inserting(raw: Bytes, wrapped: string)
    | Inserted(won: bool, raw: Bytes)
    | FindingAgain
    | FoundAgain(row: Option<(nat, string)>)
    | FindingVersion(version: nat)
    | FoundVersion(version: nat, stored: Option<string>)
    | RotateSelecting
    | RotateCommitting(active: Option<nat>)
    | Finished(outcome: Outcome)

  datatype Op = Op(replica: nat, epoch: nat, request: Request, pc: Pc)

  datatype State = State(table: KeyTable, replicas: map<nat, Replica>, ops: map<nat, Op>)

  /** Random bytes, and the row a SELECT without a unique answer returns. */
  datatype Env = Env(raw: Bytes, ivForDek: Bytes, ivForEmail: Bytes, pick: nat)
  {
    predicate Valid() { |ivForDek| == GCM_IV_LENGTH && |ivForEmail| == GCM_IV_LENGTH }
  }

  datatype Step =
    | Begin(op: nat, replica: nat, request: Request)
    | Go(op: nat, env: Env)
    | Restart(replica: nat)

  function ReplicaOf(s: State, r: nat): Replica {
    if r in s.replicas then s.replicas[r] else COLD
  }

  /** The request's replica and program point after a step. */
  function Put(s: State, o: nat, replica: Replica, pc: Pc): State
    requires o in s.ops
  {
    s.(replicas := s.replicas[s.ops[o].replica := replica], ops := s.ops[o := s.ops[o].(pc := pc)])
  }

  function At(s: State, o: nat, pc: Pc): State
    requires o in s.ops
  {
    s.(ops := s.ops[o := s.ops[o].(pc := pc)])
  }

  /** encryptWithDek at the end of encryptEmail. */
  function Seal(c: Crypto, dek: Bytes, version: nat, plain: Bytes, iv: Bytes): Pc {
    match c.aead.EncryptWithDek(dek, version, plain, iv)
    case None => Finished(Failed(VersionTooLarge))
    case Some(encoded) => Finished(Sealed(encoded))
  }

  /** decryptWithDek at the end of decryptEmail. */
  function Open(c: Crypto, dek: Bytes, encoded: string): Pc {
    match c.aead.DecryptWithDek(dek, encoded)
    case None => Finished(Failed(BadCiphertext))
    case Some(plain) => Finished(Opened(plain))
  }

  function StartEncrypt(c: Crypto, s: State, o: nat, id: KeyId, plain: Bytes, iv: Bytes): State
    requires o in s.ops
  {
    var r := ReplicaOf(s, s.ops[o].replica);
    match r.CachedVersion(id)
    case None => At(s, o, FindingActive)
    case Some(version) =>
      var touched := r.TouchVersion(id);
      match r.CachedDek(id, version)
      case None => Put(s, o, touched, FindingActive)
      case Some(dek) => Put(s, o, touched.TouchDek(id, version), Seal(c, dek, version, plain, iv))
  }

  function StartDecrypt(c: Crypto, s: State, o: nat, id: KeyId, encoded: string): State
    requires o in s.ops
  {
    var r := ReplicaOf(s, s.ops[o].replica);
    match ParseEnvelope(encoded)
    case None => At(s, o, Finished(Failed(MalformedEnvelope)))
    case Some((version, _)) =>
      match r.CachedDek(id, version)
      case None => At(s, o, FindingVersion(version))
      case Some(dek) => Put(s, o, r.TouchDek(id, version), Open(c, dek, encoded))
  }

  /** SELECT ... WHERE tenant_id = id AND status = 'active' LIMIT 1; None while `pick` is no answer. */
  ghost function FindActive(table: KeyTable, id: KeyId, pick: nat): Option<Option<(nat, string)>> {
    if IsActive(table, id, pick) then Some(Some((pick, table[(id, pick)].wrapped)))
    else if NoneActive(table, id) then Some(None)
    else None
  }

  /** The lookup found an active row: point the caches at it and encrypt. */
  function UseActive(c: Crypto, s: State, o: nat, id: KeyId, version: nat, wrapped: string, plain: Bytes,
                     iv: Bytes): State
    requires o in s.ops
  {
    var (r, dek) := ReplicaOf(s, s.ops[o].replica).SetVersion(id, version).UnwrapAndCache(c, id, version, wrapped);
    Put(s, o, r, if dek.None? then Finished(Failed(UnwrapFailed)) else Seal(c, dek.value, version, plain, iv))
  }

  /** INSERT version 1 ... ON CONFLICT (tenant_id, key_version) DO NOTHING. */
  ghost function InsertFirst(s: State, o: nat, id: KeyId, raw: Bytes, wrapped: string): State
    requires o in s.ops
  {
    if (id, 1) in s.table then At(s, o, Inserted(false, raw))
    else if !NoneActive(s.table, id) then At(s, o, Finished(Failed(TwoActiveRows)))
    else At(s.(table := s.table[(id, 1) := KeyRow(wrapped, true)]), o, Inserted(true, raw))
  }

  function UseInserted(c: Crypto, s: State, o: nat, id: KeyId, raw: Bytes, plain: Bytes, iv: Bytes): State
    requires o in s.ops
  {
    Put(s, o, ReplicaOf(s, s.ops[o].replica).SetDek(id, 1, raw).SetVersion(id, 1), Seal(c, raw, 1, plain, iv))
  }

  function UseVersion(c: Crypto, s: State, o: nat, id: KeyId, version: nat, stored: Option<string>,
                      encoded: string): State
    requires o in s.ops
  {
    if stored.None? then At(s, o, Finished(Failed(NoKeyRow)))
    else
      var (r, dek) := ReplicaOf(s, s.ops[o].replica).UnwrapAndCache(c, id, version, stored.value);
      Put(s, o, r, if dek.None? then Finished(Failed(UnwrapFailed)) else Open(c, dek.value, encoded))
  }

  /** Retire the active row seen, insert its successor: refused by the primary key or the active index. */
  ghost function CommitRotation(c: Crypto, s: State, o: nat, id: KeyId, active: Option<nat>, raw: Bytes,
                                iv: Bytes): State
    requires o in s.ops
  {
    var next := if active.Some? then active.value + 1 else 1;
    var retired := if active.Some? then Retire(s.table, id, active.value) else s.table;
    if (id, next) in s.table then At(s, o, Finished(Failed(RotationLost)))
    else if !NoneActive(retired, id) then At(s, o, Finished(Failed(TwoActiveRows)))
    else
      Put(s.(table := retired[(id, next) := KeyRow(c.Wrap(raw, iv), true)]), o,
          ReplicaOf(s, s.ops[o].replica).SetDek(id, next, raw).SetVersion(id, next), Finished(RotatedTo(next)))
  }

  ghost function Advance(c: Crypto, s: State, o: nat, env: Env): State
    requires o in s.ops
  {
    var op := s.ops[o];
    var id := op.request.Id();
    match op.pc
    case Starting =>
      (match op.request
       case EncryptEmail(_, plain) => StartEncrypt(c, s, o, id, plain, env.ivForEmail)
       case DecryptEmail(_, encoded) => StartDecrypt(c, s, o, id, encoded)
       case RotateKey(_) => At(s, o, RotateSelecting))
    case FindingActive =>
      var found := FindActive(s.table, id, env.pick);
      if found.None? then s else At(s, o, FoundActive(found.value))
    case FoundActive(row) =>
      if !op.request.EncryptEmail? then s
      else if row.None? then At(s, o, Inserting(env.raw, c.Wrap(env.raw, env.ivForDek)))
      else UseActive(c, s, o, id, row.value.0, row.value.1, op.request.plain, env.ivForEmail)
    case Inserting(raw, wrapped) => InsertFirst(s, o, id, raw, wrapped)
    case Inserted(won, raw) =>
      if !won then At(s, o, FindingAgain)
      else if op.request.EncryptEmail? then UseInserted(c, s, o, id, raw, op.request.plain, env.ivForEmail)
      else s
    case FindingAgain =>
      var found := FindActive(s.table, id, env.pick);
      if found.None? then s else At(s, o, FoundAgain(found.value))
    case FoundAgain(row) =>
      if !op.request.EncryptEmail? then s
      else if row.None? then At(s, o, Finished(Failed(ProvisionFailed)))
      else UseActive(c, s, o, id, row.value.0, row.value.1, op.request.plain, env.ivForEmail)
    case FindingVersion(version) =>
      At(s, o, FoundVersion(version, if (id, version) in s.table then Some(s.table[(id, version)].wrapped) else None))
    case FoundVersion(version, stored) =>
      if op.request.DecryptEmail? then UseVersion(c, s, o, id, version, stored, op.request.encoded) else s
    case RotateSelecting =>
      var found := FindActive(s.table, id, env.pick);
      if found.None? then s
      else At(s, o, RotateCommitting(if found.value.Some? then Some(found.value.value.0) else None))
    case RotateCommitting(active) => CommitRotation(c, s, o, id, active, env.raw, env.ivForDek)
    case Finished(_) => s
  }

  ghost function Next(c: Crypto, s: State, step: Step): State {
    match step
    case Begin(o, r, request) =>
      if o in s.ops then s else s.(ops := s.ops[o := Op(r, ReplicaOf(s, r).epoch, request, Starting)])
    case Go(o, env) =>
      if o in s.ops && env.Valid() && s.ops[o].epoch == ReplicaOf(s, s.ops[o].replica).epoch
        then Advance(c, s, o, env) else s
    case Restart(r) => s.(replicas := s.replicas[r := COLD.(epoch := ReplicaOf(s, r).epoch + 1)])
  }

  ghost function Run(c: Crypto, s: State, steps: seq<Step>): State {
    if steps == [] then s else Next(c, Run(c, s, steps[..|steps| - 1]), steps[|steps| - 1])
  }

  const START: State := State(map[], map[], map[])
}
