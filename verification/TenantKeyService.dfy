/**
 * tenantKey.service.ts, encryptEmail and decryptEmail on one replica that no other one and no other
 * request interrupts. Then the active-version pointer is exact, not merely valid.
 */
module TenantKeyService {
  import opened Wrappers
  import opened Base64
  import opened Envelope
  import opened TenantKeys
  import opened TenantKeySafety
  import opened TenantKeyTheorems
  import L = BoundedLru

  /** Every cached version pointer names the active version. */
  ghost predicate PointsAtActive(table: KeyTable, r: Replica, id: KeyId) {
    r.CachedVersion(id).Some? ==> IsActive(table, id, r.CachedVersion(id).value)
  }

  ghost predicate Synced(table: KeyTable, r: Replica) {
    forall id {:trigger PointsAtActive(table, r, id)} :: PointsAtActive(table, r, id)
  }

  lemma TouchVersionSynced(table: KeyTable, r: Replica, u: Replica, id: KeyId)
    requires Synced(table, r) && u.active == r.TouchVersion(id).active
    ensures Synced(table, u)
  {
    forall i
      ensures PointsAtActive(table, u, i)
    {
      L.LookupAfterGet(r.active, id, i);
      assert PointsAtActive(table, r, i);
    }
  }

  lemma SetVersionSynced(t: KeyTable, u: KeyTable, r: Replica, after: Replica, id: KeyId, version: nat)
    requires Synced(t, r) && after.active == r.SetVersion(id, version).active && IsActive(u, id, version)
    requires forall i, v: nat :: i != id && IsActive(t, i, v) ==> IsActive(u, i, v)
    ensures Synced(u, after)
  {
    forall i
      ensures PointsAtActive(u, after, i)
    {
      L.LookupAfterSet(r.active, MAX_CACHED_DEKS, id, version, i);
      assert PointsAtActive(t, r, i);
    }
  }

  /** A version that has become active, cached with its key: the caches stay right and exact, and know both. */
  lemma NewVersionCached(c: Crypto, t: KeyTable, u: KeyTable, r: Replica, id: KeyId, version: nat, dek: Bytes)
    requires Grows(t, u) && ReplicaOk(c, t, r) && Synced(t, r)
    requires IsActive(u, id, version) && UnwrapsTo(c, u, id, version, dek)
    requires forall i, v: nat :: i != id && IsActive(t, i, v) ==> IsActive(u, i, v)
    ensures var after := r.SetDek(id, version, dek).SetVersion(id, version);
            && ReplicaOk(c, u, after) && Synced(u, after)
            && after.CachedVersion(id) == Some(version) && after.CachedDek(id, version) == Some(dek)
  {
    ReplicaGrows(c, t, u, r);
    SetDekKeeps(c, u, r, id, version, dek);
    SetVersionKeeps(c, u, r.SetDek(id, version, dek), id, version);
    SetVersionSynced(t, u, r, r.SetDek(id, version, dek).SetVersion(id, version), id, version);
    WarmAfter(r, id, version, dek);
  }

  lemma WarmAfter(r: Replica, id: KeyId, version: nat, dek: Bytes)
    ensures var u := r.SetDek(id, version, dek).SetVersion(id, version);
            u.CachedVersion(id) == Some(version) && u.CachedDek(id, version) == Some(dek)
  {
    L.LookupAfterSet(r.deks, MAX_CACHED_DEKS, CacheKey(id, version), dek, CacheKey(id, version));
    L.LookupAfterSet(r.active, MAX_CACHED_DEKS, id, version, id);
  }

  /** The version in the first two bytes of an email's ciphertext, high one first. */
  function NamedVersion(encoded: string): (v: nat)
    ensures v <= 65535
    ensures |Decode(encoded)| >= 2 ==> v == Decode(encoded)[0] as int * 256 + Decode(encoded)[1] as int
  {
    if |Decode(encoded)| >= 2 then Decode(encoded)[0] as int * 256 + Decode(encoded)[1] as int else 0
  }

  lemma SealedBytes(aead: Aead, dek: Bytes, version: nat, plain: Bytes, iv: Bytes)
    requires version <= 65535
    ensures aead.EncryptWithDek(dek, version, plain, iv).Some?
    ensures var encoded := aead.EncryptWithDek(dek, version, plain, iv).value;
            && Decode(encoded) == [version / 256, version % 256] + (iv + aead.seal(dek, iv, plain).0 +
                 aead.seal(dek, iv, plain).1)
            && NamedVersion(encoded) == version
  {
    aead.DekLayout(dek, version, plain, iv);
  }

  /** Opening iv, tag and ciphertext: the plaintext, or an error if the AEAD rejects them. */
  function OpenedBytes(aead: Aead, dek: Bytes, body: Bytes): (outcome: Outcome)
    ensures |body| >= 28 ==>
              outcome == match aead.open(dek, body[..12], body[12..28], body[28..])
                         case None => Failed(BadCiphertext)
                         case Some(plain) => Opened(plain)
  {
    var iv := if |body| >= 12 then body[..12] else body;
    var tag := if |body| >= 28 then body[12..28] else if |body| >= 12 then body[12..] else [];
    match aead.open(dek, iv, tag, if |body| >= 28 then body[28..] else [])
    case None => Failed(BadCiphertext)
    case Some(plain) => Opened(plain)
  }

  lemma OpensBytes(c: Crypto, table: KeyTable, id: KeyId, encoded: string)
    requires TableOk(c, table)
    ensures |Decode(encoded)| < 2 ==> Direct(c, table, id, encoded) == Failed(MalformedEnvelope)
    ensures |Decode(encoded)| >= 2 ==>
              var v := NamedVersion(encoded);
              && (Direct(c, table, id, encoded) == Failed(NoKeyRow) <==> (id, v) !in table)
              && ((id, v) in table ==>
                    exists dek: Bytes :: UnwrapsTo(c, table, id, v, dek) &&
                      Direct(c, table, id, encoded) == OpenedBytes(c.aead, dek, Decode(encoded)[2..]))
  {
    ParseReads(encoded);
    if |Decode(encoded)| >= 2 {
      var v := NamedVersion(encoded);
      assert RowOk(c, table, id, v);
      if (id, v) in table {
        var dek := c.Unwrap(table[(id, v)].wrapped).value;
        c.aead.KeyReads(dek, ParseEnvelope(encoded).value.1);
        assert UnwrapsTo(c, table, id, v, dek);
      }
    }
  }

  class Service {
    const crypto: Crypto
    var table: KeyTable
    const dekCache: L.Lru<string, Bytes>
    const activeVersionCache: L.Lru<KeyId, nat>

    ghost function Caches(): Replica
      reads dekCache, activeVersionCache
    {
      Replica(dekCache.store, activeVersionCache.store, 0)
    }

    ghost predicate Valid()
      reads this, dekCache, activeVersionCache
    {
      && crypto.Sound()
      && dekCache.Valid() && dekCache.maxSize == MAX_CACHED_DEKS
      && activeVersionCache.Valid() && activeVersionCache.maxSize == MAX_CACHED_DEKS
      && TableOk(crypto, table)
      && ReplicaOk(crypto, table, Caches())
      && Synced(table, Caches())
    }

    /** The next call for this tenant will find version and key cached. */
    ghost predicate Warm(id: KeyId, version: nat, dek: Bytes)
      reads dekCache, activeVersionCache
    {
      Caches().CachedVersion(id) == Some(version) && Caches().CachedDek(id, version) == Some(dek)
    }

    /** A freshly started process over a table some earlier processes filled. */
    constructor (c: Crypto, keys: KeyTable)
      requires c.Sound() && TableOk(c, keys)
      ensures Valid() && crypto == c && table == keys && Caches() == COLD
      ensures dekCache.maxSize == activeVersionCache.maxSize == 500
      ensures fresh(dekCache) && fresh(activeVersionCache)
    {
      crypto := c;
      table := keys;
      dekCache := new L.Lru(MAX_CACHED_DEKS);
      activeVersionCache := new L.Lru(MAX_CACHED_DEKS);
      new;
      forall id, v: nat
        ensures DekOk(c, keys, Caches(), id, v)
      {
      }
      forall id
        ensures VersionOk(keys, Caches(), id)
      {
      }
    }

    method FindActiveRow(id: KeyId) returns (row: Option<(nat, string)>)
      ensures row.Some? ==> IsActive(table, id, row.value.0) && HasWrapped(table, id, row.value.0, row.value.1)
      ensures row.None? ==> NoneActive(table, id)
    {
      if k :| k in table && k.0 == id && table[k].active {
        assert k == (id, k.1);
        return Some((k.1, table[k].wrapped));
      }
      return None;
    }

    method UnwrapAndCache(id: KeyId, version: nat, wrapped: string) returns (dek: Bytes)
      requires Valid() && HasWrapped(table, id, version, wrapped)
      modifies dekCache`store
      ensures Valid() && UnwrapsTo(crypto, table, id, version, dek)
      ensures Caches() == old(Caches()).UnwrapAndCache(crypto, id, version, wrapped).0
      ensures var raw := Decode(wrapped);
              |raw| >= 28 ==> crypto.aead.open(crypto.kek, raw[..12], raw[12..28], raw[28..]) == Some(dek)
      ensures Caches().CachedDek(id, version) == Some(dek) && Caches().active == old(Caches()).active
    {
      L.LookupAfterGet(dekCache.store, CacheKey(id, version), CacheKey(id, version));
      crypto.aead.KeyReads(crypto.kek, wrapped);
      UnwrapAndCacheKeeps(crypto, table, Caches(), id, version, wrapped);
      TouchedPointersSynced(table, Caches(), Caches().UnwrapAndCache(crypto, id, version, wrapped).0);
      var cached := dekCache.Get(CacheKey(id, version));
      if cached.Some? {
        return cached.value;
      }
      dek := crypto.Unwrap(wrapped).value;
      L.LookupAfterSet(dekCache.store, MAX_CACHED_DEKS, CacheKey(id, version), dek, CacheKey(id, version));
      dekCache.Set(CacheKey(id, version), dek);
    }

    /**
     * The active version and its key; provisions version 1 if the tenant has none, and never
     * anything else.
     */
    method GetActiveDek(tenant: Option<string>, raw: Bytes, iv: Bytes) returns (dek: Bytes, version: nat)
      requires Valid() && |iv| == GCM_IV_LENGTH
      modifies this`table, dekCache`store, activeVersionCache`store
      ensures Valid()
      ensures Warm(if tenant.Some? then tenant.value else "00000000-0000-0000-0000-000000000000", version, dek)
      ensures var id := ResolveTenantKeyId(tenant);
              && IsActive(table, id, version) && UnwrapsTo(crypto, table, id, version, dek)
              && (if NoneActive(old(table), id)
                  then version == 1 && dek == raw && table == old(table)[(id, 1) := KeyRow(crypto.Wrap(raw, iv), true)]
                  else table == old(table))
      ensures tenant.Some? ==> (tenant.value, version) in table && table[(tenant.value, version)].active
      ensures tenant.None? ==>
                var id := "00000000-0000-0000-0000-000000000000"; (id, version) in table && table[(id, version)].active
      ensures var own := if tenant.Some? then tenant.value else "00000000-0000-0000-0000-000000000000";
              forall k: (KeyId, nat) :: k.0 != own ==>
                (k in table <==> k in old(table)) && (k in table ==> table[k] == old(table)[k])
    {
      var id := ResolveTenantKeyId(tenant);
      ghost var start := Caches();
      var cachedVersion := activeVersionCache.Get(id);
      TouchVersionKeeps(crypto, table, start, id);
      TouchVersionSynced(table, start, Caches(), id);
      assert Caches() == start.TouchVersion(id);
      if cachedVersion.Some? {
        version := cachedVersion.value;
        assert PointsAtActive(table, start, id);
        ghost var before := Caches();
        var cachedDek := dekCache.Get(CacheKey(id, version));
        assert DekOk(crypto, table, before, id, version);
        TouchDekKeeps(crypto, table, before, id, version);
        TouchedPointersSynced(table, before, before.TouchDek(id, version));
        assert Caches() == before.TouchDek(id, version);
        L.LookupAfterGet(start.active, id, id);
        L.LookupAfterGet(before.deks, CacheKey(id, version), CacheKey(id, version));
        if cachedDek.Some? {
          return cachedDek.value, version;
        }
      }
      var active := FindActiveRow(id);
      if active.None? {
        dek, version := ProvisionActiveKey(id, raw, iv);
        return;
      }
      version := active.value.0;
      dek := UseActive(id, version, active.value.1);
    }

    /**
     * Inserts version 1 unless some other process has: then the row that is active now is used,
     * and there always is one.
     */
    method ProvisionActiveKey(id: KeyId, raw: Bytes, iv: Bytes) returns (dek: Bytes, version: nat)
      requires Valid() && |iv| == GCM_IV_LENGTH
      modifies this`table, dekCache`store, activeVersionCache`store
      ensures Valid() && IsActive(table, id, version) && UnwrapsTo(crypto, table, id, version, dek)
      ensures Warm(id, version, dek)
      ensures NoneActive(old(table), id) ==>
                version == 1 && dek == raw && table == old(table)[(id, 1) := KeyRow(crypto.Wrap(raw, iv), true)]
      ensures !NoneActive(old(table), id) ==> table == old(table)
    {
      ghost var n := ShapeOf(crypto, table, id);
      assert IsActive(table, id, n) <==> n > 0;
      if (id, 1) !in table {
        InsertFirst(id, raw, iv);
        return raw, 1;
      }
      var existing := FindActiveRow(id);
      dek := UseActive(id, existing.value.0, existing.value.1);
      version := existing.value.0;
    }

    method InsertFirst(id: KeyId, raw: Bytes, iv: Bytes)
      requires Valid() && |iv| == GCM_IV_LENGTH && (id, 1) !in table
      modifies this`table, dekCache`store, activeVersionCache`store
      ensures Valid() && IsActive(table, id, 1) && UnwrapsTo(crypto, table, id, 1, raw) && Warm(id, 1, raw)
      ensures table == old(table)[(id, 1) := KeyRow(crypto.Wrap(raw, iv), true)]
      ensures Decode(table[(id, 1)].wrapped)
           == iv + crypto.aead.seal(crypto.kek, iv, raw).0 + crypto.aead.seal(crypto.kek, iv, raw).1
    {
      ghost var before, start := table, Caches();
      crypto.aead.KeyLayout(crypto.kek, iv, raw);
      crypto.aead.KeyRoundTrip(crypto.kek, iv, raw);
      var row := KeyRow(crypto.Wrap(raw, iv), true);
      FirstInsertKeeps(crypto, table, id, row);
      table := table[(id, 1) := row];
      NewVersionCached(crypto, before, table, start, id, 1, raw);
      dekCache.Set(CacheKey(id, 1), raw);
      activeVersionCache.Set(id, 1);
      assert Caches() == start.SetDek(id, 1, raw).SetVersion(id, 1);
    }

    /** Caches the active version, then its key. */
    method UseActive(id: KeyId, version: nat, wrapped: string) returns (dek: Bytes)
      requires Valid() && IsActive(table, id, version) && HasWrapped(table, id, version, wrapped)
      modifies dekCache`store, activeVersionCache`store
      ensures Valid() && UnwrapsTo(crypto, table, id, version, dek) && Warm(id, version, dek)
    {
      ghost var before := Caches();
      L.LookupAfterSet(activeVersionCache.store, MAX_CACHED_DEKS, id, version, id);
      activeVersionCache.Set(id, version);
      SetVersionKeeps(crypto, table, before, id, version);
      SetVersionSynced(table, table, before, Caches(), id, version);
      assert Caches() == before.SetVersion(id, version);
      dek := UnwrapAndCache(id, version, wrapped);
    }

    /** The key of one version, active or retired; None (the source throws) exactly if it has no row. */
    method GetDekForVersion(tenant: Option<string>, version: nat) returns (dek: Option<Bytes>)
      requires Valid()
      modifies dekCache`store
      ensures Valid()
      ensures var id := ResolveTenantKeyId(tenant);
              && (dek.Some? <==> (id, version) in table)
              && (dek.Some? ==> UnwrapsTo(crypto, table, id, version, dek.value))
      ensures tenant.Some? ==> (dek.Some? <==> (tenant.value, version) in table)
      ensures tenant.None? ==> (dek.Some? <==> ("00000000-0000-0000-0000-000000000000", version) in table)
    {
      var id := ResolveTenantKeyId(tenant);
      ghost var before := Caches();
      var cached := dekCache.Get(CacheKey(id, version));
      assert DekOk(crypto, table, before, id, version);
      TouchDekKeeps(crypto, table, before, id, version);
      TouchedPointersSynced(table, before, before.TouchDek(id, version));
      assert Caches() == before.TouchDek(id, version);
      if cached.Some? {
        return cached;
      }
      if (id, version) !in table {
        return None;
      }
      var unwrapped := UnwrapAndCache(id, version, table[(id, version)].wrapped);
      dek := Some(unwrapped);
    }

    /** Retires the active version, if any, and makes its successor active; all other rows stay. */
    method RotateTenantKey(tenant: Option<string>, raw: Bytes, iv: Bytes) returns (dek: Bytes, version: nat)
      requires Valid() && |iv| == GCM_IV_LENGTH
      modifies this`table, dekCache`store, activeVersionCache`store
      ensures Valid() && dek == raw
      ensures Warm(if tenant.Some? then tenant.value else "00000000-0000-0000-0000-000000000000", version, dek)
      ensures var id := ResolveTenantKeyId(tenant);
              && IsActive(table, id, version) && UnwrapsTo(crypto, table, id, version, raw)
              && (NoneActive(old(table), id) ==>
                    version == 1 && table == old(table)[(id, 1) := KeyRow(crypto.Wrap(raw, iv), true)])
              && (!NoneActive(old(table), id) ==>
                    version >= 2 && IsActive(old(table), id, version - 1)
                    && var row := KeyRow(crypto.Wrap(raw, iv), true);
                       table == Retire(old(table), id, version - 1)[(id, version) := row])
              && Decode(table[(id, version)].wrapped)
                   == iv + crypto.aead.seal(crypto.kek, iv, raw).0 + crypto.aead.seal(crypto.kek, iv, raw).1
      ensures tenant.Some? ==> (tenant.value, version) in table && table[(tenant.value, version)].active
      ensures tenant.None? ==>
                var id := "00000000-0000-0000-0000-000000000000"; (id, version) in table && table[(id, version)].active
      ensures var own := if tenant.Some? then tenant.value else "00000000-0000-0000-0000-000000000000";
              forall k: (KeyId, nat) :: k.0 != own ==>
                (k in table <==> k in old(table)) && (k in table ==> table[k] == old(table)[k])
    {
      var id := ResolveTenantKeyId(tenant);
      ghost var before, start := table, Caches();
      var active := FindActiveRow(id);
      version := if active.Some? then active.value.0 + 1 else 1;
      crypto.aead.KeyRoundTrip(crypto.kek, iv, raw);
      crypto.aead.KeyLayout(crypto.kek, iv, raw);
      var row := KeyRow(crypto.Wrap(raw, iv), true);
      if active.Some? {
        assert RowOk(crypto, table, id, active.value.0);
        SuccessorKeeps(crypto, table, id, active.value.0, row);
        table := Retire(table, id, active.value.0);
      } else {
        ghost var n := ShapeOf(crypto, table, id);
        assert !IsActive(table, id, n);
        FirstInsertKeeps(crypto, table, id, row);
      }
      table := table[(id, version) := row];
      NewVersionCached(crypto, before, table, start, id, version, raw);
      dekCache.Set(CacheKey(id, version), raw);
      activeVersionCache.Set(id, version);
      assert Caches() == start.SetDek(id, version, raw).SetVersion(id, version);
      dek := raw;
    }

    /**
     * Seals under the active version; None (the source throws) exactly for versions beyond 65535.
     * A tenant's first value provisions its version 1; otherwise the table stays as it is.
     */
    method EncryptEmail(tenant: Option<string>, plain: Bytes, env: Env) returns (encoded: Option<string>)
      requires Valid() && env.Valid()
      modifies this`table, dekCache`store, activeVersionCache`store
      ensures Valid()
      ensures var id := ResolveTenantKeyId(tenant);
              && (encoded.Some? ==> Direct(crypto, table, id, encoded.value) == Opened(plain))
              && (encoded.Some? ==> IsActive(table, id, ParseEnvelope(encoded.value).value.0))
              && (encoded.None? <==> exists v: nat :: IsActive(table, id, v) && v > MAX_UINT16)
              && table == (if NoneActive(old(table), id)
                           then old(table)[(id, 1) := KeyRow(crypto.Wrap(env.raw, env.ivForDek), true)]
                           else old(table))
      ensures encoded.Some? ==>
                var own := if tenant.Some? then tenant.value else "00000000-0000-0000-0000-000000000000";
                var v := NamedVersion(encoded.value);
                (own, v) in table && table[(own, v)].active
      ensures var own := if tenant.Some? then tenant.value else "00000000-0000-0000-0000-000000000000";
              forall k: (KeyId, nat) :: k.0 != own ==>
                (k in table <==> k in old(table)) && (k in table ==> table[k] == old(table)[k])
      ensures encoded.Some? ==>
                exists dek: Bytes ::
                  var v, sealed := NamedVersion(encoded.value), crypto.aead.seal(dek, env.ivForEmail, plain);
                  && Decode(encoded.value) == [v / 256, v % 256] + (env.ivForEmail + sealed.0 + sealed.1)
                  && UnwrapsTo(crypto, table, if tenant.Some? then tenant.value
                                              else "00000000-0000-0000-0000-000000000000", v, dek)
    {
      var dek, version := GetActiveDek(tenant, env.raw, env.ivForDek);
      encoded := crypto.aead.EncryptWithDek(dek, version, plain, env.ivForEmail);
      crypto.aead.DekRoundTrip(dek, version, plain, env.ivForEmail);
      if encoded.Some? {
        SealedBytes(crypto.aead, dek, version, plain, env.ivForEmail);
      }
      ghost var n := ShapeOf(crypto, table, ResolveTenantKeyId(tenant));
    }

    /** Opens with the version the envelope names, as the table alone would. */
    method DecryptEmail(tenant: Option<string>, encoded: string) returns (outcome: Outcome)
      requires Valid()
      modifies dekCache`store
      ensures Valid() && outcome == Direct(crypto, table, ResolveTenantKeyId(tenant), encoded)
      ensures |Decode(encoded)| < 2 ==> outcome == Failed(MalformedEnvelope)
      ensures |Decode(encoded)| >= 2 ==>
                var id := if tenant.Some? then tenant.value else "00000000-0000-0000-0000-000000000000";
                var v := NamedVersion(encoded);
                && (outcome == Failed(NoKeyRow) <==> (id, v) !in table)
                && ((id, v) in table ==>
                      exists dek: Bytes :: UnwrapsTo(crypto, table, id, v, dek) &&
                        outcome == OpenedBytes(crypto.aead, dek, Decode(encoded)[2..]))
    {
      OpensBytes(crypto, table, ResolveTenantKeyId(tenant), encoded);
      var parsed := ParseEnvelope(encoded);
      if parsed.None? {
        return Failed(MalformedEnvelope);
      }
      var dek := GetDekForVersion(tenant, parsed.value.0);
      if dek.None? {
        return Failed(NoKeyRow);
      }
      outcome := Open(crypto, dek.value, encoded).outcome;
    }
  }

  /** Pointers that did not move stay exact. */
  lemma TouchedPointersSynced(table: KeyTable, r: Replica, u: Replica)
    requires Synced(table, r) && u.active == r.active
    ensures Synced(table, u)
  {
    forall i
      ensures PointsAtActive(table, u, i)
    {
      assert PointsAtActive(table, r, i);
    }
  }
}
