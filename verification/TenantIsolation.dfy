/** Tenants do not meet: whose rows a request reads and writes, in every run of every replica. */
module TenantIsolation {
  import opened Wrappers
  import opened Base64
  import opened Envelope
  import opened TenantKeys
  import opened TenantKeySafety
  import opened TenantKeyTheorems
  import opened TenantKeyDecryption
  import opened TenantKeyService

  /** Rows under this id, which no UUID of a tenant equals, are those of callers without a tenant. */
  const NO_TENANT: string := "00000000-0000-0000-0000-000000000000"

  // ---------------------------------------------------------------------------
  // Writes
  // ---------------------------------------------------------------------------

  /** The two tables agree on every row that is not of `id`. */
  ghost predicate SameElsewhere(t: KeyTable, u: KeyTable, id: string) {
    forall k: (KeyId, nat) {:trigger SameRow(t, u, k)} :: k.0 != id ==> SameRow(t, u, k)
  }

  predicate SameRow(t: KeyTable, u: KeyTable, k: (KeyId, nat)) {
    (k in u <==> k in t) && (k in t ==> u[k] == t[k])
  }

  lemma CommitWritesOwn(c: Crypto, s: State, o: nat, id: KeyId, active: Option<nat>, raw: Bytes, iv: Bytes)
    requires o in s.ops
    ensures SameElsewhere(s.table, CommitRotation(c, s, o, id, active, raw, iv).table, id)
  {
  }

  lemma InsertWritesOwn(s: State, o: nat, id: KeyId, raw: Bytes, wrapped: string)
    requires o in s.ops
    ensures SameElsewhere(s.table, InsertFirst(s, o, id, raw, wrapped).table, id)
  {
  }

  lemma AdvanceWritesOwn(c: Crypto, s: State, o: nat, env: Env)
    requires o in s.ops
    ensures SameElsewhere(s.table, Advance(c, s, o, env).table, s.ops[o].request.Id())
  {
    var id := s.ops[o].request.Id();
    match s.ops[o].pc
    case Inserting(raw, wrapped) => InsertWritesOwn(s, o, id, raw, wrapped);
    case RotateCommitting(active) => CommitWritesOwn(c, s, o, id, active, env.raw, env.ivForDek);
    case _ => OthersWriteNothing(c, s, o, env);
  }

  lemma OthersWriteNothing(c: Crypto, s: State, o: nat, env: Env)
    requires o in s.ops && !s.ops[o].pc.Inserting? && !s.ops[o].pc.RotateCommitting?
    ensures Advance(c, s, o, env).table == s.table
  {
  }

  /** A request of tenant t changes rows of t only, one without a tenant those of the default id only. */
  lemma RequestsWriteOwnRows(c: Crypto, s: State, o: nat, env: Env)
    requires o in s.ops
    ensures var tenant := s.ops[o].request.tenant;
            SameElsewhere(s.table, Next(c, s, Go(o, env)).table, if tenant.Some? then tenant.value else NO_TENANT)
  {
    AdvanceWritesOwn(c, s, o, env);
  }

  /** Some request of the run asks for this id. */
  predicate AsksFor(step: Step, id: string) {
    step.Begin? && (step.request.tenant == Some(id) || (step.request.tenant == None && id == NO_TENANT))
  }

  ghost predicate Asked(steps: seq<Step>, id: string) {
    exists i :: 0 <= i < |steps| && AsksFor(steps[i], id)
  }

  /** Every row, and every request, is of an id some request has asked for. */
  ghost predicate OnlyAsked(s: State, steps: seq<Step>) {
    && (forall k: (KeyId, nat) {:trigger k in s.table} :: k in s.table ==> Asked(steps, k.0))
    && (forall o {:trigger s.ops[o]} :: o in s.ops ==>
          Asked(steps, OwnId(s.ops[o].request)))
  }

  lemma AskedSnoc(steps: seq<Step>, step: Step, id: string)
    requires Asked(steps, id) || AsksFor(step, id)
    ensures Asked(steps + [step], id)
  {
    var all := steps + [step];
    if i :| 0 <= i < |steps| && AsksFor(steps[i], id) {
      assert AsksFor(all[i], id);
    } else {
      assert AsksFor(all[|steps|], id);
    }
  }

  /** The id of the rows a request is about. */
  function OwnId(request: Request): string {
    if request.tenant.Some? then request.tenant.value else NO_TENANT
  }

  lemma NextRowAsked(c: Crypto, s: State, steps: seq<Step>, step: Step, k: (KeyId, nat))
    requires OnlyAsked(s, steps) && k in Next(c, s, step).table
    ensures Asked(steps, k.0)
  {
    if step.Go? && step.op in s.ops {
      RequestsWriteOwnRows(c, s, step.op, step.env);
      if k.0 != OwnId(s.ops[step.op].request) {
        assert SameRow(s.table, Next(c, s, step).table, k);
      }
    }
  }

  lemma NextRequestAsked(c: Crypto, s: State, steps: seq<Step>, step: Step, o: nat)
    requires OnlyAsked(s, steps) && o in Next(c, s, step).ops
    ensures var id := OwnId(Next(c, s, step).ops[o].request); Asked(steps, id) || AsksFor(step, id)
  {
    if o in s.ops {
      RequestStays(c, s, step, o);
    } else if step.Go? && step.op in s.ops {
      AdvanceMovesOne(c, s, step.op, step.env, o);
    }
  }

  lemma NextOnlyAsked(c: Crypto, s: State, steps: seq<Step>, step: Step)
    requires OnlyAsked(s, steps)
    ensures OnlyAsked(Next(c, s, step), steps + [step])
  {
    var u := Next(c, s, step);
    forall o | o in u.ops
      ensures Asked(steps + [step], OwnId(u.ops[o].request))
    {
      NextRequestAsked(c, s, steps, step, o);
      AskedSnoc(steps, step, OwnId(u.ops[o].request));
    }
    forall k: (KeyId, nat) | k in u.table
      ensures Asked(steps + [step], k.0)
    {
      NextRowAsked(c, s, steps, step, k);
      AskedSnoc(steps, step, k.0);
    }
  }

  /** In every run: a tenant has rows only if one of its own requests made them. */
  lemma {:induction false} RowsAreOfTheirTenant(c: Crypto, steps: seq<Step>)
    ensures OnlyAsked(Run(c, START, steps), steps)
  {
    if steps != [] {
      var n := |steps| - 1;
      RowsAreOfTheirTenant(c, steps[..n]);
      NextOnlyAsked(c, Run(c, START, steps[..n]), steps[..n], steps[n]);
      assert steps[..n] + [steps[n]] == steps;
    }
  }

  // ---------------------------------------------------------------------------
  // Reads
  // ---------------------------------------------------------------------------

  /** `encoded` is p, sealed with the key in row (id, v) of the table, v being the version it names. */
  ghost predicate SealedInRow(c: Crypto, table: KeyTable, id: string, encoded: string, plain: Bytes) {
    exists dek: Bytes, iv: Bytes ::
      && |iv| == 12 && SealedBy(c, encoded, plain, dek, iv)
      && UnwrapsTo(c, table, id, NamedVersion(encoded), dek)
  }

  ghost predicate SealedBy(c: Crypto, encoded: string, plain: Bytes, dek: Bytes, iv: Bytes) {
    var v := NamedVersion(encoded);
    Decode(encoded) == [v / 256, v % 256] + (iv + c.aead.seal(dek, iv, plain).0 + c.aead.seal(dek, iv, plain).1)
  }

  /** On every replica and in every run: a value is sealed with a key of its own tenant's row. */
  lemma SealedUnderOwnRow(c: Crypto, steps: seq<Step>, e: nat, encoded: string)
    requires c.Sound() && e in Run(c, START, steps).ops
    requires var op := Run(c, START, steps).ops[e]; op.request.EncryptEmail? && op.pc == Finished(Sealed(encoded))
    ensures var s := Run(c, START, steps);
            var tenant := s.ops[e].request.tenant;
            SealedInRow(c, s.table, if tenant.Some? then tenant.value else NO_TENANT, encoded, s.ops[e].request.plain)
  {
    RunIsSafe(c, steps);
    var s := Run(c, START, steps);
    assert OpIn(c, s, e);
    var id, plain := s.ops[e].request.Id(), s.ops[e].request.plain;
    var version, dek, iv :| SealedWith(c, s.table, id, plain, encoded, version, dek, iv);
    SealedWithIsInRow(c, s.table, id, plain, encoded, version, dek, iv);
  }

  lemma SealedWithIsInRow(c: Crypto, table: KeyTable, id: string, plain: Bytes, encoded: string, version: nat,
                          dek: Bytes, iv: Bytes)
    requires c.Sound() && SealedWith(c, table, id, plain, encoded, version, dek, iv)
    ensures SealedInRow(c, table, id, encoded, plain)
  {
    c.aead.DekRoundTrip(dek, version, plain, iv);
    SealedBytes(c.aead, dek, version, plain, iv);
    SealedByBytes(c, encoded, plain, version, dek, iv);
  }

  lemma SealedByBytes(c: Crypto, encoded: string, plain: Bytes, version: nat, dek: Bytes, iv: Bytes)
    requires NamedVersion(encoded) == version
    requires version <= 65535
    requires Decode(encoded)
          == [version / 256, version % 256] + (iv + c.aead.seal(dek, iv, plain).0 + c.aead.seal(dek, iv, plain).1)
    ensures SealedBy(c, encoded, plain, dek, iv)
  {
  }

  /** What opening says by row (id, v) alone: no row, or the AEAD's answer under that row's key. */
  ghost predicate OpenedInRow(c: Crypto, table: KeyTable, id: string, encoded: string, outcome: Outcome) {
    if |Decode(encoded)| < 2 then outcome == Failed(MalformedEnvelope)
    else if (id, NamedVersion(encoded)) !in table then outcome == Failed(NoKeyRow)
    else
      exists dek: Bytes :: UnwrapsTo(c, table, id, NamedVersion(encoded), dek) &&
        outcome == OpenedBytes(c.aead, dek, Decode(encoded)[2..])
  }

  /**
   * On every replica and in every run: whoever sealed a value, a request to open it is answered
   * from a row of its own tenant alone, as it was at some moment while the request was running.
   */
  lemma OpenedFromOwnRow(c: Crypto, steps: seq<Step>, o: nat, outcome: Outcome) returns (k: nat)
    requires c.Sound() && o in Run(c, START, steps).ops
    requires var op := Run(c, START, steps).ops[o]; op.request.DecryptEmail? && op.pc == Finished(outcome)
    ensures k < |steps| && o in Run(c, START, steps[..k]).ops && !Run(c, START, steps[..k]).ops[o].pc.Finished?
    ensures var request := Run(c, START, steps).ops[o].request;
            OpenedInRow(c, Run(c, START, steps[..k]).table,
                        if request.tenant.Some? then request.tenant.value else NO_TENANT, request.encoded, outcome)
  {
    k := DecryptionIsDirect(c, steps, o, outcome);
    RunIsSafe(c, steps[..k]);
    var request := Run(c, START, steps).ops[o].request;
    OpensBytes(c, Run(c, START, steps[..k]).table, request.Id(), request.encoded);
  }

  /**
   * In particular a value is lost on a tenant that has never asked for anything but to open values:
   * it has no row, and every answer it gets is that there is no key.
   */
  lemma StrangersHaveNoKey(c: Crypto, steps: seq<Step>, o: nat, outcome: Outcome, t: string)
    requires c.Sound() && o in Run(c, START, steps).ops && t != NO_TENANT
    requires var op := Run(c, START, steps).ops[o];
             op.request.DecryptEmail? && op.request.tenant == Some(t) && op.pc == Finished(outcome) &&
               |Decode(op.request.encoded)| >= 2
    requires forall v: nat :: (t, v) !in Run(c, START, steps).table
    ensures outcome == Failed(NoKeyRow)
  {
    var k := OpenedFromOwnRow(c, steps, o, outcome);
    RunIsSafe(c, steps[..k]);
    LaterTable(c, steps, k, t, NamedVersion(Run(c, START, steps).ops[o].request.encoded));
  }

  lemma LaterTable(c: Crypto, steps: seq<Step>, k: nat, id: string, v: nat)
    requires c.Sound() && k <= |steps|
    ensures (id, v) in Run(c, START, steps[..k]).table ==> (id, v) in Run(c, START, steps).table
    decreases |steps| - k
  {
    RunIsSafe(c, steps[..k]);
    if k < |steps| {
      var s := Run(c, START, steps[..k]);
      NextKeeps(c, s, steps[k]);
      assert steps[..k + 1][..k] == steps[..k];
      assert RowStays(s.table, Next(c, s, steps[k]).table, id, v);
      LaterTable(c, steps, k + 1, id, v);
    } else {
      assert steps[..k] == steps;
    }
  }
}
