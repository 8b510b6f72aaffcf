/** Every tenant-key request is answered: lost races, cold caches and retired versions included. */
module TenantKeyProgress {
  import opened Wrappers
  import opened Base64
  import opened Envelope
  import opened TenantKeys
  import opened TenantKeySafety
  import opened TenantKeyTheorems
  import opened TenantKeyDecryption

  /** How many of its own steps a request has at most left. */
  function StepsLeft(op: Op): nat {
    match op.pc
    case Starting => 7
    case FindingActive => 6
    case FoundActive(_) => 5
    case Inserting(_, _) => 4
    case Inserted(_, _) => 3
    case FindingAgain => 2
    case FoundAgain(_) => 1
    case FindingVersion(_) => 2
    case FoundVersion(_, _) => 1
    case RotateSelecting => 2
    case RotateCommitting(_) => 1
    case Finished(_) => 0
  }

  /** The step is this request's, and `pick` names a row its SELECT, if it makes one, may return. */
  ghost predicate Effective(s: State, step: Step, o: nat) {
    && step.Go? && step.op == o && step.env.Valid()
    && (o in s.ops ==> FindActive(s.table, s.ops[o].request.Id(), step.env.pick).Some?)
  }

  ghost function EffectiveSteps(c: Crypto, s: State, steps: seq<Step>, o: nat): nat {
    if steps == [] then 0
    else
      var n := |steps| - 1;
      EffectiveSteps(c, s, steps[..n], o) + if Effective(Run(c, s, steps[..n]), steps[n], o) then 1 else 0
  }

  /** The request's process has not restarted since it began. */
  ghost predicate Alive(s: State, o: nat, r: nat) {
    o in s.ops && s.ops[o].replica == r && s.ops[o].epoch == ReplicaOf(s, r).epoch
  }

  ghost predicate Lessens(s: State, u: State, o: nat)
    requires o in s.ops
  {
    o in u.ops && (s.ops[o].pc.Finished? || StepsLeft(u.ops[o]) < StepsLeft(s.ops[o]))
  }

  /** The request is not at a SELECT of the active row that `pick` does not answer. */
  ghost predicate Answered(s: State, o: nat, env: Env)
    requires o in s.ops
  {
    var pc := s.ops[o].pc;
    pc.FindingActive? || pc.FindingAgain? || pc.RotateSelecting? ==>
      FindActive(s.table, s.ops[o].request.Id(), env.pick).Some?
  }

  lemma LookupMoves(c: Crypto, s: State, o: nat, env: Env)
    requires o in s.ops && s.ops[o].request.EncryptEmail? && Answered(s, o, env)
    requires var pc := s.ops[o].pc; pc.Starting? || pc.FindingActive? || pc.Inserting? || pc.FindingAgain?
    ensures Lessens(s, Advance(c, s, o, env), o)
  {
    var id, plain := s.ops[o].request.Id(), s.ops[o].request.plain;
    match s.ops[o].pc
    case Starting => assert Advance(c, s, o, env) == StartEncrypt(c, s, o, id, plain, env.ivForEmail);
    case FindingActive =>
    case Inserting(raw, wrapped) => assert Advance(c, s, o, env) == InsertFirst(s, o, id, raw, wrapped);
    case FindingAgain =>
  }

  lemma FoundMoves(c: Crypto, s: State, o: nat, env: Env)
    requires o in s.ops && s.ops[o].request.EncryptEmail? && (s.ops[o].pc.FoundActive? || s.ops[o].pc.FoundAgain?)
    ensures Lessens(s, Advance(c, s, o, env), o)
  {
    var id, plain, row := s.ops[o].request.Id(), s.ops[o].request.plain, s.ops[o].pc.row;
    if row.Some? {
      assert Advance(c, s, o, env) == UseActive(c, s, o, id, row.value.0, row.value.1, plain, env.ivForEmail);
      UseActiveFinishes(c, s, o, id, row.value.0, row.value.1, plain, env.ivForEmail);
    } else if s.ops[o].pc.FoundActive? {
      assert Advance(c, s, o, env) == At(s, o, Inserting(env.raw, c.Wrap(env.raw, env.ivForDek)));
    } else {
      assert Advance(c, s, o, env) == At(s, o, Finished(Failed(ProvisionFailed)));
    }
  }

  lemma UseActiveFinishes(c: Crypto, s: State, o: nat, id: KeyId, version: nat, wrapped: string, plain: Bytes,
                          iv: Bytes)
    requires o in s.ops
    ensures var u := UseActive(c, s, o, id, version, wrapped, plain, iv); o in u.ops && u.ops[o].pc.Finished?
  {
  }

  lemma InsertedMoves(c: Crypto, s: State, o: nat, env: Env)
    requires o in s.ops && s.ops[o].request.EncryptEmail? && s.ops[o].pc.Inserted?
    ensures Lessens(s, Advance(c, s, o, env), o)
  {
    var id, plain := s.ops[o].request.Id(), s.ops[o].request.plain;
    if s.ops[o].pc.won {
      assert Advance(c, s, o, env) == UseInserted(c, s, o, id, s.ops[o].pc.raw, plain, env.ivForEmail);
    }
  }

  lemma DecryptionMoves(c: Crypto, s: State, o: nat, env: Env)
    requires o in s.ops && s.ops[o].request.DecryptEmail?
    requires s.ops[o].pc.Starting? || s.ops[o].pc.FindingVersion? || s.ops[o].pc.FoundVersion?
    ensures Lessens(s, Advance(c, s, o, env), o)
  {
    var id, encoded := s.ops[o].request.Id(), s.ops[o].request.encoded;
    match s.ops[o].pc
    case Starting => assert Advance(c, s, o, env) == StartDecrypt(c, s, o, id, encoded);
    case FindingVersion(_) =>
    case FoundVersion(v, stored) => assert Advance(c, s, o, env) == UseVersion(c, s, o, id, v, stored, encoded);
  }

  lemma RotationMoves(c: Crypto, s: State, o: nat, env: Env)
    requires o in s.ops && s.ops[o].request.RotateKey? && Answered(s, o, env)
    requires s.ops[o].pc.Starting? || s.ops[o].pc.RotateSelecting? || s.ops[o].pc.RotateCommitting?
    ensures Lessens(s, Advance(c, s, o, env), o)
  {
    match s.ops[o].pc
    case Starting =>
    case RotateSelecting =>
    case RotateCommitting(active) =>
      assert Advance(c, s, o, env) == CommitRotation(c, s, o, s.ops[o].request.Id(), active, env.raw, env.ivForDek);
  }

  lemma OwnMoves(c: Crypto, s: State, o: nat, env: Env)
    requires o in s.ops && OpOk(c, s.table, s.ops[o]) && Answered(s, o, env) && !s.ops[o].pc.Finished?
    ensures Lessens(s, Advance(c, s, o, env), o)
  {
    match s.ops[o].request
    case DecryptEmail(_, _) => DecryptionMoves(c, s, o, env);
    case RotateKey(_) => RotationMoves(c, s, o, env);
    case EncryptEmail(_, _) =>
      if s.ops[o].pc.FoundActive? || s.ops[o].pc.FoundAgain? {
        FoundMoves(c, s, o, env);
      } else if s.ops[o].pc.Inserted? {
        InsertedMoves(c, s, o, env);
      } else {
        LookupMoves(c, s, o, env);
      }
  }

  lemma StepLessens(c: Crypto, s: State, step: Step, o: nat, r: nat)
    requires Inv(c, s) && Alive(s, o, r) && Effective(s, step, o)
    ensures Alive(Next(c, s, step), o, r) && Lessens(s, Next(c, s, step), o)
  {
    assert OpIn(c, s, o);
    AdvanceMoves(c, s, o, step.env);
    if !s.ops[o].pc.Finished? {
      OwnMoves(c, s, o, step.env);
    }
  }

  /** Any other step but a restart leaves the request no further from its end. */
  lemma StepKeeps(c: Crypto, s: State, step: Step, o: nat, r: nat)
    requires Inv(c, s) && c.Sound() && Alive(s, o, r) && step != Restart(r)
    ensures Alive(Next(c, s, step), o, r) && StepsLeft(Next(c, s, step).ops[o]) <= StepsLeft(s.ops[o])
  {
    if step.Go? && step.op in s.ops && step.op != o {
      AdvanceMovesOne(c, s, step.op, step.env, o);
      EpochStays(c, s, step.op, step.env, r);
    } else if step.Go? && step.op == o {
      assert OpIn(c, s, o);
      AdvanceMoves(c, s, o, step.env);
      StepOrStay(c, s, o, step.env);
    }
  }

  /** A SELECT that is not answered leaves the request where it is. */
  lemma StepOrStay(c: Crypto, s: State, o: nat, env: Env)
    requires o in s.ops && OpOk(c, s.table, s.ops[o])
    ensures o in Advance(c, s, o, env).ops && StepsLeft(Advance(c, s, o, env).ops[o]) <= StepsLeft(s.ops[o])
  {
    if s.ops[o].pc.Finished? || !Answered(s, o, env) {
      assert Advance(c, s, o, env) == s;
    } else {
      OwnMoves(c, s, o, env);
    }
  }

  /**
   * In every run, whatever everyone else does: a request whose process does not restart is answered
   * after at most seven steps of its own in which the database answers.
   */
  lemma {:induction false} RequestFinishes(c: Crypto, s: State, steps: seq<Step>, o: nat, r: nat)
    requires Inv(c, s) && c.Sound() && Alive(s, o, r) && Restart(r) !in steps
    ensures var u := Run(c, s, steps);
            Alive(u, o, r) && (u.ops[o].pc.Finished? || StepsLeft(u.ops[o]) + EffectiveSteps(c, s, steps, o) <= 7)
  {
    if steps != [] {
      var n := |steps| - 1;
      RequestFinishes(c, s, steps[..n], o, r);
      RunKeeps(c, s, steps[..n]);
      var before := Run(c, s, steps[..n]);
      if Effective(before, steps[n], o) {
        StepLessens(c, before, steps[n], o, r);
      }
      StepKeeps(c, before, steps[n], o, r);
    }
  }

  /** The row a SELECT may return always exists: it never leaves a request waiting for good. */
  lemma AlwaysAnAnswer(c: Crypto, steps: seq<Step>, id: KeyId) returns (pick: nat)
    requires c.Sound()
    ensures FindActive(Run(c, START, steps).table, id, pick).Some?
  {
    RunIsSafe(c, steps);
    pick := ShapeOf(c, Run(c, START, steps).table, id);
  }
}
