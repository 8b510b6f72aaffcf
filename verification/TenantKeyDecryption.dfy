/** What decryptions answer, on every replica and in every run of the tenant-key protocol. */
module TenantKeyDecryption {
  import opened Base64
  import opened Envelope
  import opened TenantKeys
  import opened TenantKeySafety
  import opened TenantKeyTheorems

  lemma RunIsSafe(c: Crypto, steps: seq<Step>)
    requires c.Sound()
    ensures Inv(c, Run(c, START, steps))
  {
    StartIsSafe(c);
    RunKeeps(c, START, steps);
  }

  // ---------------------------------------------------------------------------
  // Caches are transparent
  // ---------------------------------------------------------------------------

  /** The request looked up its key's row and found none. */
  ghost predicate Missed(s: State, o: nat) {
    && o in s.ops && s.ops[o].request.DecryptEmail?
    && (s.ops[o].pc == Finished(Failed(NoKeyRow)) || (s.ops[o].pc.FoundVersion? && s.ops[o].pc.stored.None?))
  }

  /** The request is about to look its key's row up, and there is none. */
  ghost predicate WillMiss(s: State, o: nat, request: Request) {
    && o in s.ops && s.ops[o].request == request && request.DecryptEmail? && s.ops[o].pc.FindingVersion?
    && ParseEnvelope(request.encoded).Some? && ParseEnvelope(request.encoded).value.0 == s.ops[o].pc.version
    && (request.Id(), s.ops[o].pc.version) !in s.table
  }

  lemma StepMisses(c: Crypto, s: State, step: Step, o: nat)
    requires Inv(c, s) && Missed(Next(c, s, step), o) && !Missed(s, o)
    ensures WillMiss(s, o, Next(c, s, step).ops[o].request)
  {
    assert OpIn(c, s, o);
    if step.Go? && step.op != o && step.op in s.ops {
      AdvanceMovesOne(c, s, step.op, step.env, o);
    }
  }

  /** No step changes what a request asks for, or a finished request. */
  lemma RequestStays(c: Crypto, s: State, step: Step, o: nat)
    requires o in s.ops
    ensures o in Next(c, s, step).ops && Next(c, s, step).ops[o].request == s.ops[o].request
    ensures s.ops[o].pc.Finished? ==> Next(c, s, step).ops[o] == s.ops[o]
  {
    if step.Go? && step.op in s.ops {
      if step.op != o {
        AdvanceMovesOne(c, s, step.op, step.env, o);
      } else {
        OwnRequestStays(c, s, o, step.env);
      }
    }
  }

  lemma OwnRequestStays(c: Crypto, s: State, o: nat, env: Env)
    requires o in s.ops
    ensures var u := Advance(c, s, o, env);
            o in u.ops && u.ops[o].request == s.ops[o].request && (s.ops[o].pc.Finished? ==> u.ops[o] == s.ops[o])
  {
    AdvanceMoves(c, s, o, env);
  }

  /** A request that found no row looked for it at a moment when there was none. */
  lemma {:induction false} MissWasReal(c: Crypto, steps: seq<Step>, o: nat) returns (k: nat)
    requires c.Sound() && Missed(Run(c, START, steps), o)
    ensures k < |steps| && WillMiss(Run(c, START, steps[..k]), o, Run(c, START, steps).ops[o].request)
  {
    var n := |steps| - 1;
    var before := Run(c, START, steps[..n]);
    RunIsSafe(c, steps[..n]);
    if Missed(before, o) {
      k := MissWasReal(c, steps[..n], o);
      RequestStays(c, before, steps[n], o);
      assert steps[..n][..k] == steps[..k];
    } else {
      k := n;
      StepMisses(c, before, steps[n], o);
    }
  }

  /** The request has begun and is not done, and `outcome` is what the table alone says. */
  ghost predicate DirectNow(c: Crypto, s: State, o: nat, request: Request, outcome: Outcome) {
    && o in s.ops && s.ops[o].request == request && request.DecryptEmail? && !s.ops[o].pc.Finished?
    && outcome == Direct(c, s.table, request.Id(), request.encoded)
  }

  lemma FinishingStep(c: Crypto, s: State, step: Step, o: nat, outcome: Outcome)
    requires Inv(c, s) && c.Sound()
    requires var u := Next(c, s, step); o in u.ops && u.ops[o].request.DecryptEmail? && u.ops[o].pc == Finished(outcome)
    requires !(o in s.ops && s.ops[o].pc.Finished?) && outcome != Failed(NoKeyRow)
    ensures DirectNow(c, s, o, Next(c, s, step).ops[o].request, outcome)
  {
    var u := Next(c, s, step);
    NextKeeps(c, s, step);
    assert OpIn(c, s, o) && OpIn(c, u, o);
    if step.Go? && step.op in s.ops {
      if step.op != o {
        AdvanceMovesOne(c, s, step.op, step.env, o);
      } else {
        OwnRequestStays(c, s, o, step.env);
        ReadsOnly(c, s, o, step.env);
      }
    }
  }

  /** Decryptions do not write the table. */
  lemma ReadsOnly(c: Crypto, s: State, o: nat, env: Env)
    requires o in s.ops && s.ops[o].request.DecryptEmail? && OpOk(c, s.table, s.ops[o])
    ensures Advance(c, s, o, env).table == s.table
  {
  }

  /**
   * Whatever the caches held and whoever interleaved, a decryption answers what the table alone
   * said, errors included, at some moment while it was running.
   */
  lemma {:induction false} DecryptionIsDirect(c: Crypto, steps: seq<Step>, o: nat, outcome: Outcome) returns (k: nat)
    requires c.Sound() && o in Run(c, START, steps).ops
    requires var op := Run(c, START, steps).ops[o]; op.request.DecryptEmail? && op.pc == Finished(outcome)
    ensures k < |steps| && DirectNow(c, Run(c, START, steps[..k]), o, Run(c, START, steps).ops[o].request, outcome)
  {
    if outcome == Failed(NoKeyRow) {
      k := MissWasReal(c, steps, o);
    } else {
      var n := |steps| - 1;
      var before := Run(c, START, steps[..n]);
      RunIsSafe(c, steps[..n]);
      if o in before.ops && before.ops[o].pc.Finished? {
        RequestStays(c, before, steps[n], o);
        k := DecryptionIsDirect(c, steps[..n], o, outcome);
        assert steps[..n][..k] == steps[..k];
      } else {
        k := n;
        FinishingStep(c, before, steps[n], o, outcome);
      }
    }
  }

  // ---------------------------------------------------------------------------
  // Every stored email stays decryptable
  // ---------------------------------------------------------------------------

  /** The table alone opens what was sealed under one of its rows. */
  lemma DirectOpens(c: Crypto, table: KeyTable, id: KeyId, plain: Bytes, encoded: string)
    requires c.Sound() && SealedUnder(c, table, id, plain, encoded)
    ensures Direct(c, table, id, encoded) == Opened(plain)
    ensures ParseEnvelope(encoded).Some? && (id, ParseEnvelope(encoded).value.0) in table
  {
    var version, dek, iv :| SealedWith(c, table, id, plain, encoded, version, dek, iv);
    c.aead.DekRoundTrip(dek, version, plain, iv);
  }

  /** A request to open `encoded` has not missed, and will not miss, the key's row. */
  ghost predicate NoMiss(s: State, o: nat, id: KeyId, encoded: string) {
    o in s.ops && s.ops[o].request.DecryptEmail? && s.ops[o].request.Id() == id &&
      s.ops[o].request.encoded == encoded ==>
      && s.ops[o].pc != Finished(Failed(NoKeyRow))
      && (s.ops[o].pc.FoundVersion? ==> s.ops[o].pc.stored.Some?)
  }

  lemma NextKeepsNoMiss(c: Crypto, s: State, step: Step, o: nat, plain: Bytes, id: KeyId, encoded: string)
    requires Inv(c, s) && c.Sound() && NoMiss(s, o, id, encoded) && SealedUnder(c, s.table, id, plain, encoded)
    ensures NoMiss(Next(c, s, step), o, id, encoded)
  {
    DirectOpens(c, s.table, id, plain, encoded);
    assert OpIn(c, s, o);
    if step.Go? && step.op in s.ops {
      if step.op != o {
        AdvanceMovesOne(c, s, step.op, step.env, o);
      } else {
        NextKeeps(c, s, step);
        assert OpIn(c, Next(c, s, step), o);
        OwnStepKeepsNoMiss(c, s, o, step.env, id, encoded);
      }
    }
  }

  lemma OwnStepKeepsNoMiss(c: Crypto, s: State, o: nat, env: Env, id: KeyId, encoded: string)
    requires o in s.ops && OpOk(c, s.table, s.ops[o]) && NoMiss(s, o, id, encoded)
    requires ParseEnvelope(encoded).Some? && (id, ParseEnvelope(encoded).value.0) in s.table
    ensures NoMiss(Advance(c, s, o, env), o, id, encoded)
  {
  }

  lemma {:induction false} RunKeepsNoMiss(c: Crypto, s: State, steps: seq<Step>, o: nat, plain: Bytes, id: KeyId,
                                          encoded: string)
    requires Inv(c, s) && c.Sound() && o !in s.ops && SealedUnder(c, s.table, id, plain, encoded)
    ensures NoMiss(Run(c, s, steps), o, id, encoded)
  {
    if steps != [] {
      var before := Run(c, s, steps[..|steps| - 1]);
      RunKeepsNoMiss(c, s, steps[..|steps| - 1], o, plain, id, encoded);
      RunKeeps(c, s, steps[..|steps| - 1]);
      SealedGrows(c, s.table, before.table, id, plain, encoded);
      NextKeepsNoMiss(c, before, steps[|steps| - 1], o, plain, id, encoded);
    }
  }

  /**
   * A ciphertext of p for tenant t, made on any replica, opens to p for t on every replica in every
   * later state, after any run of provisions, rotations, evictions and restarts.
   */
  lemma EveryStoredEmailStaysDecryptable(c: Crypto, before: seq<Step>, e: nat, encoded: string, after: seq<Step>,
                                         d: nat, outcome: Outcome)
    requires c.Sound() && e in Run(c, START, before).ops && d !in Run(c, START, before).ops
    requires var op := Run(c, START, before).ops[e]; op.request.EncryptEmail? && op.pc == Finished(Sealed(encoded))
    requires var later := Run(c, Run(c, START, before), after);
             && d in later.ops && later.ops[d].pc == Finished(outcome)
             && later.ops[d].request == DecryptEmail(Run(c, START, before).ops[e].request.tenant, encoded)
    ensures outcome == Opened(Run(c, START, before).ops[e].request.plain)
  {
    StartIsSafe(c);
    RunKeeps(c, START, before);
    var s := Run(c, START, before);
    assert OpIn(c, s, e);
    var id, plain := s.ops[e].request.Id(), s.ops[e].request.plain;
    RunKeeps(c, s, after);
    var later := Run(c, s, after);
    RunKeepsNoMiss(c, s, after, d, plain, id, encoded);
    SealedGrows(c, s.table, later.table, id, plain, encoded);
    DirectOpens(c, later.table, id, plain, encoded);
    assert OpIn(c, later, d);
  }

  // ---------------------------------------------------------------------------
  // Decryptions finish
  // ---------------------------------------------------------------------------

  /** How many of its own steps a decryption still has to take. */
  function Remaining(pc: Pc): nat {
    match pc
    case Finished(_) => 0
    case FoundVersion(_, _) => 1
    case FindingVersion(_) => 2
    case _ => 3
  }

  predicate OwnStep(step: Step, d: nat) {
    step.Go? && step.op == d && step.env.Valid()
  }

  function OwnSteps(steps: seq<Step>, d: nat): nat {
    if steps == [] then 0 else OwnSteps(steps[..|steps| - 1], d) + if OwnStep(steps[|steps| - 1], d) then 1 else 0
  }

  /** The request decrypts and its process has not restarted since it began. */
  ghost predicate Current(s: State, d: nat, r: nat) {
    d in s.ops && s.ops[d].request.DecryptEmail? && s.ops[d].replica == r && s.ops[d].epoch == ReplicaOf(s, r).epoch
  }

  lemma OwnStepProgresses(c: Crypto, s: State, d: nat, r: nat, env: Env)
    requires Inv(c, s) && env.Valid() && Current(s, d, r)
    ensures var u := Next(c, s, Go(d, env));
            Current(u, d, r) && (s.ops[d].pc.Finished? || Remaining(u.ops[d].pc) < Remaining(s.ops[d].pc))
  {
    assert OpIn(c, s, d);
    OwnRequestStays(c, s, d, env);
    EpochStays(c, s, d, env, r);
  }

  /** No request's step restarts a process or moves a request to another one. */
  ghost predicate SameProcess(s: State, u: State, o: nat, r: nat)
    requires o in s.ops
  {
    && ReplicaOf(u, r).epoch == ReplicaOf(s, r).epoch
    && o in u.ops && u.ops[o].replica == s.ops[o].replica && u.ops[o].epoch == s.ops[o].epoch
  }

  lemma EpochStays(c: Crypto, s: State, o: nat, env: Env, r: nat)
    requires o in s.ops
    ensures SameProcess(s, Advance(c, s, o, env), o, r)
  {
    AdvanceMoves(c, s, o, env);
  }

  lemma OthersLeaveCurrent(c: Crypto, s: State, step: Step, d: nat, r: nat)
    requires Inv(c, s) && Current(s, d, r) && step != Restart(r) && !(step.Go? && step.op == d)
    ensures var u := Next(c, s, step); Current(u, d, r) && u.ops[d].pc == s.ops[d].pc
  {
    if step.Go? && step.op in s.ops {
      AdvanceMovesOne(c, s, step.op, step.env, d);
      EpochStays(c, s, step.op, step.env, r);
    }
  }

  /** A decryption whose process does not restart is done after at most three steps of its own. */
  lemma {:induction false} DecryptionFinishes(c: Crypto, s: State, steps: seq<Step>, d: nat, r: nat)
    requires Inv(c, s) && c.Sound() && Current(s, d, r) && Restart(r) !in steps
    ensures var u := Run(c, s, steps);
            Current(u, d, r) && (u.ops[d].pc.Finished? || Remaining(u.ops[d].pc) + OwnSteps(steps, d) <= 3)
  {
    if steps != [] {
      var init, step := steps[..|steps| - 1], steps[|steps| - 1];
      DecryptionFinishes(c, s, init, d, r);
      RunKeeps(c, s, init);
      var before := Run(c, s, init);
      if OwnStep(step, d) {
        OwnStepProgresses(c, before, d, r, step.env);
      } else if !(step.Go? && step.op == d) {
        OthersLeaveCurrent(c, before, step, d, r);
      }
    }
  }

  /**
   * So on every replica, in every later state: a request to decrypt a stored email, given three
   * steps of its own and no restart of its process, has opened it.
   */
  lemma StoredEmailIsOpened(c: Crypto, before: seq<Step>, e: nat, encoded: string, d: nat, r: nat, after: seq<Step>)
    requires c.Sound() && e in Run(c, START, before).ops && d !in Run(c, START, before).ops
    requires var op := Run(c, START, before).ops[e]; op.request.EncryptEmail? && op.pc == Finished(Sealed(encoded))
    requires Restart(r) !in after && OwnSteps(after, d) >= 3
    ensures var s := Run(c, START, before);
            var later := Run(c, Next(c, s, Begin(d, r, DecryptEmail(s.ops[e].request.tenant, encoded))), after);
            d in later.ops && later.ops[d].pc == Finished(Opened(s.ops[e].request.plain))
  {
    var s := Run(c, START, before);
    RunIsSafe(c, before);
    var begin := Begin(d, r, DecryptEmail(s.ops[e].request.tenant, encoded));
    var begun := Next(c, s, begin);
    NextKeeps(c, s, begin);
    DecryptionFinishes(c, begun, after, d, r);
    RunPrepend(c, s, begin, after);
    RequestsStay(c, begun, after, d);
    EveryStoredEmailStaysDecryptable(c, before, e, encoded, [begin] + after, d, Run(c, begun, after).ops[d].pc.outcome);
  }

  lemma {:induction false} RequestsStay(c: Crypto, s: State, steps: seq<Step>, o: nat)
    requires o in s.ops
    ensures o in Run(c, s, steps).ops && Run(c, s, steps).ops[o].request == s.ops[o].request
  {
    if steps != [] {
      RequestsStay(c, s, steps[..|steps| - 1], o);
      RequestStays(c, Run(c, s, steps[..|steps| - 1]), steps[|steps| - 1], o);
    }
  }

  lemma {:induction false} RunPrepend(c: Crypto, s: State, step: Step, steps: seq<Step>)
    ensures Run(c, s, [step] + steps) == Run(c, Next(c, s, step), steps)
  {
    var all := [step] + steps;
    if steps == [] {
      assert all[..0] == [] && all[0] == step;
    } else {
      var n := |steps| - 1;
      RunPrepend(c, s, step, steps[..n]);
      assert all[..n + 1] == [step] + steps[..n] && all[n + 1] == steps[n];
    }
  }
}
