/**
 * The moments of a run: the state after each number of steps, and what a request's history says
 * about the state it saw then.
 */
module RefreshMoments {
  import opened Wrappers
  import opened RefreshTokenTable
  import opened RefreshProtocol
  import opened RefreshSafety
  import opened RefreshTheorems

  /** The state after the first `k` steps. */
  function Moment(now: int, ttl: nat, steps: seq<Step>, k: nat): State
    requires k <= |steps|
  {
    Run(Start(now, ttl), steps[..k])
  }

  lemma MomentNext(now: int, ttl: nat, steps: seq<Step>, k: nat)
    requires k < |steps|
    ensures Moment(now, ttl, steps, k + 1) == Next(Moment(now, ttl, steps, k), steps[k])
  {
    var shown := steps[..k + 1];
    assert shown[..k] == steps[..k] && shown[k] == steps[k] && |shown| - 1 == k;
    RunEnds(Start(now, ttl), shown);
  }

  lemma RunEnds(s: State, steps: seq<Step>)
    requires steps != []
    ensures Run(s, steps) == Next(Run(s, steps[..|steps| - 1]), steps[|steps| - 1])
  {
  }

  lemma LastMoment(now: int, ttl: nat, steps: seq<Step>)
    ensures Moment(now, ttl, steps, |steps|) == Run(Start(now, ttl), steps)
  {
    assert steps[..|steps|] == steps;
  }

  lemma EveryMoment(now: int, ttl: nat, steps: seq<Step>, k: nat)
    requires k <= |steps|
    ensures Inv(Moment(now, ttl, steps, k))
  {
    StartIsSafe(now, ttl);
    RunKeeps(Start(now, ttl), steps[..k]);
  }

  lemma LaterMoment(now: int, ttl: nat, steps: seq<Step>, j: nat, k: nat)
    requires j <= k <= |steps|
    ensures Later(Moment(now, ttl, steps, j), Moment(now, ttl, steps, k))
  {
    EveryMoment(now, ttl, steps, j);
    MomentFrom(now, ttl, steps, j, k);
    RunKeeps(Moment(now, ttl, steps, j), steps[j..k]);
  }

  lemma MomentFrom(now: int, ttl: nat, steps: seq<Step>, j: nat, k: nat)
    requires j <= k <= |steps|
    ensures Moment(now, ttl, steps, k) == Run(Moment(now, ttl, steps, j), steps[j..k])
  {
    assert steps[..j] + steps[j..k] == steps[..k];
    RunConcat(Start(now, ttl), steps[..j], steps[j..k]);
  }

  /** The clock counts the steps. */
  lemma {:induction false} ClockCounts(now: int, ttl: nat, steps: seq<Step>)
    ensures Run(Start(now, ttl), steps).clock == |steps|
  {
    if steps != [] {
      ClockCounts(now, ttl, steps[..|steps| - 1]);
    }
  }

  /** A row's mark is the number of steps that left it live. */
  lemma MarkMeaning(now: int, ttl: nat, steps: seq<Step>, i: nat, k: nat)
    requires k <= |steps| && i < |Moment(now, ttl, steps, k).rows|
    ensures var s := Run(Start(now, ttl), steps);
            !Moment(now, ttl, steps, k).rows[i].Live() <==> Marks(s, i) && s.marks[i].value < k
  {
    var past, s := Moment(now, ttl, steps, k), Moment(now, ttl, steps, |steps|);
    EveryMoment(now, ttl, steps, k);
    EveryMoment(now, ttl, steps, |steps|);
    LastMoment(now, ttl, steps);
    LaterMoment(now, ttl, steps, k, |steps|);
    ClockCounts(now, ttl, steps[..k]);
    assert MarkKept(past, s, i);
  }

  /** The same of a row in a later state. */
  lemma SameRowLater(now: int, ttl: nat, steps: seq<Step>, j: nat, k: nat, i: nat)
    requires j <= k <= |steps| && i < |Moment(now, ttl, steps, j).rows|
    ensures var t, u := Moment(now, ttl, steps, j).rows, Moment(now, ttl, steps, k).rows;
            |t| <= |u| && RowKept(t, u, i)
  {
    LaterMoment(now, ttl, steps, j, k);
  }

  // ---------------------------------------------------------------------------
  // Rows are born live
  // ---------------------------------------------------------------------------

  ghost predicate GrowsLive(t: Table, u: Table) {
    |t| <= |u| <= |t| + 1 && (|u| > |t| ==> u[|t|].Live())
  }

  lemma AdvanceGrowsLive(s: State, o: OpId, env: Env)
    requires o in s.ops
    ensures GrowsLive(s.rows, Advance(s, o, env).rows)
  {
    match s.ops[o].pc
    case LoginInserting => assert Advance(s, o, env) == if s.ops[o].request.Login? then InsertRoot(s, o, env) else s;
    case Inserting(id, row) => assert Advance(s, o, env) == InsertChild(s, o, id, row, env.minted);
    case FamilyUpdating(family, active, at) =>
    case Updating(_, _, _) =>
    case _ => OtherStepsKeepRows(s, o, env);
  }

  lemma NextGrowsLive(s: State, step: Step)
    ensures GrowsLive(s.rows, Next(s, step).rows)
  {
    if step.Go? && step.op in s.ops {
      AdvanceGrowsLive(s, step.op, step.env);
    }
  }

  lemma OtherStepsKeepRows(s: State, o: OpId, env: Env)
    requires o in s.ops
    requires var pc := s.ops[o].pc;
             !pc.LoginInserting? && !pc.Inserting? && !pc.FamilyUpdating? && !pc.Updating?
    ensures Advance(s, o, env).rows == s.rows
  {
    match s.ops[o].pc
    case Claiming =>
    case Polling(_) =>
    case Selecting =>
    case Checking(_) =>
    case FamilySelecting(_) =>
    case FamilyMirroring(_) =>
    case Mirroring(_, _) =>
    case FindingUser(_, _) =>
    case Completing(_) =>
    case Releasing(_) =>
    case Finished(_) =>
  }

  /** Every row was appended by some step, live. */
  lemma {:induction false} BornLive(now: int, ttl: nat, steps: seq<Step>, n: nat, d: nat) returns (k: nat)
    requires n <= |steps| && d < |Moment(now, ttl, steps, n).rows|
    ensures k < n && |Moment(now, ttl, steps, k).rows| <= d
    ensures var u := Moment(now, ttl, steps, k + 1); d < |u.rows| && u.rows[d].Live()
  {
    assert n > 0;
    if d < |Moment(now, ttl, steps, n - 1).rows| {
      k := BornLive(now, ttl, steps, n - 1, d);
    } else {
      k := n - 1;
      BornNow(now, ttl, steps, k, d);
    }
  }

  lemma BornNow(now: int, ttl: nat, steps: seq<Step>, k: nat, d: nat)
    requires k < |steps| && |Moment(now, ttl, steps, k).rows| <= d < |Moment(now, ttl, steps, k + 1).rows|
    ensures Moment(now, ttl, steps, k + 1).rows[d].Live()
  {
    MomentNext(now, ttl, steps, k);
    GrownLive(Moment(now, ttl, steps, k).rows, Moment(now, ttl, steps, k + 1).rows, d) by {
      NextGrowsLive(Moment(now, ttl, steps, k), steps[k]);
    }
  }

  lemma GrownLive(t: Table, u: Table, d: nat)
    requires GrowsLive(t, u) && |t| <= d < |u|
    ensures u[d].Live()
  {
  }

  // ---------------------------------------------------------------------------
  // What a rotation had read
  // ---------------------------------------------------------------------------

  /** The live row a refresh request has in hand. */
  function InHand(op: Op): Option<nat> {
    if !op.request.Refresh? then None
    else
      match op.pc
      case Checking(Some((id, row))) => if row.Live() then Some(id) else None
      case Updating(id, _, _) => Some(id)
      case Mirroring(id, _) => Some(id)
      case Inserting(id, _) => Some(id)
      case _ => None
  }

  /** This SELECT finds the token's row, and finds it live. */
  ghost predicate FindsLive(s: State, token: Token, id: nat) {
    FindToken(s.rows, token) == Some(id) && s.rows[id].Live()
  }

  /** A row in hand was in hand before, or has just been found. */
  ghost predicate HandFrom(s: State, u: State, o: OpId)
    requires o in u.ops
  {
    InHand(u.ops[o]).Some? ==>
      && o in s.ops && s.ops[o].request == u.ops[o].request
      && ((InHand(s.ops[o]) == InHand(u.ops[o]) && s.ops[o].readAt == u.ops[o].readAt)
          || (FindsLive(s, u.ops[o].request.token, InHand(u.ops[o]).value) && u.ops[o].readAt == s.clock))
  }

  lemma OwnHand(s: State, o: OpId, env: Env)
    requires o in s.ops
    ensures o in Advance(s, o, env).ops && HandFrom(s, Advance(s, o, env), o)
  {
    match s.ops[o].pc
    case Selecting =>
    case Checking(found) => assert Advance(s, o, env) == At(s, o, AfterCheck(s.ops[o], found, s.now));
    case Updating(id, row, at) => assert Advance(s, o, env) == Update(s, o, id, row, at);
    case Mirroring(id, row) => assert Advance(s, o, env) == Mirror(s, o, id, row);
    case Inserting(id, row) => assert Advance(s, o, env) == InsertChild(s, o, id, row, env.minted);
    case _ => IdleHand(s, o, env);
  }

  lemma IdleHand(s: State, o: OpId, env: Env)
    requires o in s.ops
    requires var pc := s.ops[o].pc;
             !pc.Selecting? && !pc.Checking? && !pc.Updating? && !pc.Mirroring? && !pc.Inserting?
    ensures var u := Advance(s, o, env); o in u.ops && InHand(u.ops[o]).None?
  {
    match s.ops[o].pc
    case FamilySelecting(family) => assert Advance(s, o, env) == FamilySelect(s, o, family);
    case FamilyUpdating(family, active, at) => assert Advance(s, o, env) == FamilyUpdate(s, o, family, active, at);
    case FamilyMirroring(rest) => assert Advance(s, o, env) == FamilyMirror(s, o, rest);
    case _ => ClaimHand(s, o, env);
  }

  lemma ClaimHand(s: State, o: OpId, env: Env)
    requires o in s.ops
    requires var pc := s.ops[o].pc;
             || pc.LoginInserting? || pc.Claiming? || pc.Polling? || pc.FindingUser? || pc.Completing? ||
             pc.Releasing? || pc.Finished?
    ensures var u := Advance(s, o, env); o in u.ops && InHand(u.ops[o]).None?
  {
  }

  lemma NextHand(s: State, step: Step, o: OpId)
    requires o in Next(s, step).ops
    ensures HandFrom(s, Next(s, step), o)
  {
    if step.Go? && step.op in s.ops {
      if step.op == o {
        OwnHand(s, o, step.env);
      } else {
        AdvanceMovesOne(s, step.op, step.env, o);
      }
    }
  }

  /** A refresh request with a row in hand found it live at the moment it read. */
  lemma {:induction false} HandWasLive(now: int, ttl: nat, steps: seq<Step>, o: OpId)
    requires var s := Run(Start(now, ttl), steps); o in s.ops && InHand(s.ops[o]).Some?
    ensures var op := Run(Start(now, ttl), steps).ops[o];
            op.readAt < |steps| &&
              FindsLive(Moment(now, ttl, steps, op.readAt), op.request.token, InHand(op).value)
  {
    var n := |steps| - 1;
    var before := Run(Start(now, ttl), steps[..n]);
    NextHand(before, steps[n], o);
    ClockCounts(now, ttl, steps[..n]);
    var op := Run(Start(now, ttl), steps).ops[o];
    var k := op.readAt;
    if k != n || !FindsLive(before, op.request.token, InHand(op).value) {
      HandWasLive(now, ttl, steps[..n], o);
      assert steps[..n][..k] == steps[..k];
    }
  }

  /** The request that inserted row c below row p. */
  ghost predicate Parented(s: State, c: nat, p: nat) {
    c in s.births && c < |s.rows| && s.births[c] in s.ops && s.rows[c].parent == Some(p)
  }

  lemma BirthStep(s: State, step: Step, c: nat)
    requires Inv(s) && c in Next(s, step).births && c !in s.births
    ensures step.Go? && step.op in s.ops && c == |s.rows| && Next(s, step).births[c] == step.op
    ensures var u := Next(s, step);
            s.ops[step.op].pc.Inserting? && s.ops[step.op].request.Refresh? && step.op in u.ops &&
              u.ops[step.op].readAt == s.ops[step.op].readAt && u.ops[step.op].request == s.ops[step.op].request &&
              c < |u.rows| && u.rows[c].parent == Some(s.ops[step.op].pc.id)
  {
    if step.Go? && step.op in s.ops {
      var o := step.op;
      assert OpOk(s, o);
      if s.ops[o].pc.Inserting? {
        assert Advance(s, o, step.env) == InsertChild(s, o, s.ops[o].pc.id, s.ops[o].pc.row, step.env.minted);
      } else {
        OtherStepsKeepBirths(s, o, step.env);
      }
    }
  }

  lemma OtherStepsKeepBirths(s: State, o: OpId, env: Env)
    requires o in s.ops && !s.ops[o].pc.Inserting?
    ensures Advance(s, o, env).births == s.births
  {
    var pc := s.ops[o].pc;
    match pc
    case LoginInserting =>
      assert Advance(s, o, env) == if s.ops[o].request.Login? then InsertRoot(s, o, env) else s;
    case Claiming =>
    case Polling(_) =>
    case Selecting =>
    case Checking(_) =>
    case FamilySelecting(_) =>
    case FamilyUpdating(_, _, _) =>
    case FamilyMirroring(_) =>
    case Updating(_, _, _) =>
    case Mirroring(_, _) =>
    case FindingUser(_, _) =>
    case Completing(_) =>
    case Releasing(_) =>
    case Finished(_) =>
  }

  /** A row inserted before this step keeps its parent and what its request had read. */
  lemma BirthStays(s: State, step: Step, c: nat, p: nat)
    requires Inv(s) && c in s.births && Parented(Next(s, step), c, p)
    ensures Parented(s, c, p)
    ensures var o, u := s.births[c], Next(s, step);
            u.births[c] == o && u.ops[o].request == s.ops[o].request && u.ops[o].readAt == s.ops[o].readAt
  {
    NextKeeps(s, step);
    assert BirthOk(s, c);
    var o, u := s.births[c], Next(s, step);
    assert BirthKept(s, u, c) && OpKept(s, u, o) && RowKept(s.rows, u.rows, c);
  }

  /** Whoever rotated row p into row c had found p live, by its token, at the moment it read. */
  lemma {:induction false} RotatedWasReadLive(now: int, ttl: nat, steps: seq<Step>, n: nat, c: nat, p: nat)
    requires n <= |steps| && Parented(Moment(now, ttl, steps, n), c, p)
    ensures var s := Moment(now, ttl, steps, n);
            var op := s.ops[s.births[c]];
            && op.request.Refresh? && op.readAt < n
            && FindsLive(Moment(now, ttl, steps, op.readAt), op.request.token, p)
  {
    assert n > 0;
    var before := Moment(now, ttl, steps, n - 1);
    EveryMoment(now, ttl, steps, n - 1);
    MomentNext(now, ttl, steps, n - 1);
    if c in before.births {
      BirthStays(before, steps[n - 1], c, p);
      RotatedWasReadLive(now, ttl, steps, n - 1, c, p);
    } else {
      BirthStep(before, steps[n - 1], c);
      InsertedWasReadLive(now, ttl, steps, n - 1, steps[n - 1].op);
    }
  }

  lemma InsertedWasReadLive(now: int, ttl: nat, steps: seq<Step>, n: nat, o: OpId)
    requires n <= |steps|
    requires var s := Moment(now, ttl, steps, n); o in s.ops && InHand(s.ops[o]).Some?
    ensures var op := Moment(now, ttl, steps, n).ops[o];
            && op.readAt < n
            && FindsLive(Moment(now, ttl, steps, op.readAt), op.request.token, InHand(op).value)
  {
    HandWasLive(now, ttl, steps[..n], o);
    var k := Moment(now, ttl, steps, n).ops[o].readAt;
    assert steps[..n][..k] == steps[..k];
  }

  // ---------------------------------------------------------------------------
  // What a reuse answer had seen
  // ---------------------------------------------------------------------------

  /** The request has found, or left, the family of its token without a live row. */
  predicate Ended(pc: Pc) {
    pc.FamilyMirroring? || pc == Releasing(Reuse) || pc == Finished(Denied(Reuse))
  }

  /** It has just done so, or had done so before. */
  ghost predicate EndedFrom(s: State, u: State, o: OpId, family: Family)
    requires o in u.ops
  {
    && o in s.ops && s.ops[o].request == u.ops[o].request && Presents(s, s.ops[o], family)
    && (if Ended(s.ops[o].pc) then s.ops[o].wroteAt == u.ops[o].wroteAt
        else u.ops[o].wroteAt == s.clock && Dead(u.rows, family))
  }

  lemma FamilySelectEnds(s: State, o: OpId, family: Family)
    requires o in s.ops && s.ops[o].pc == FamilySelecting(family) && Presents(s, s.ops[o], family)
    requires Ended(FamilySelect(s, o, family).ops[o].pc)
    ensures EndedFrom(s, FamilySelect(s, o, family), o, family)
  {
    NothingSelected(s.rows, family);
  }

  lemma FamilyUpdateEnds(s: State, o: OpId, family: Family, active: seq<Row>, at: int)
    requires o in s.ops && s.ops[o].pc == FamilyUpdating(family, active, at) && Presents(s, s.ops[o], family)
    ensures EndedFrom(s, FamilyUpdate(s, o, family, active, at), o, family)
  {
  }

  lemma OwnEnd(s: State, o: OpId, env: Env) returns (family: Family)
    requires Inv(s) && o in s.ops && o in Advance(s, o, env).ops && Ended(Advance(s, o, env).ops[o].pc)
    ensures EndedFrom(s, Advance(s, o, env), o, family)
  {
    if Ended(s.ops[o].pc) {
      family := EndedFamily(s, o);
      EndStays(s, o, env);
    } else if s.ops[o].pc.FamilySelecting? || s.ops[o].pc.FamilyUpdating? {
      family := s.ops[o].pc.family;
      FamilyEnds(s, o, env);
    } else {
      NoEndYet(s, o, env);
    }
  }

  lemma FamilyEnds(s: State, o: OpId, env: Env)
    requires Inv(s) && o in s.ops && (s.ops[o].pc.FamilySelecting? || s.ops[o].pc.FamilyUpdating?)
    requires o in Advance(s, o, env).ops && Ended(Advance(s, o, env).ops[o].pc)
    ensures EndedFrom(s, Advance(s, o, env), o, s.ops[o].pc.family)
  {
    assert OpOk(s, o);
    match s.ops[o].pc
    case FamilySelecting(family) =>
      assert Advance(s, o, env) == FamilySelect(s, o, family);
      FamilySelectEnds(s, o, family);
    case FamilyUpdating(family, active, at) =>
      assert Advance(s, o, env) == FamilyUpdate(s, o, family, active, at);
      FamilyUpdateEnds(s, o, family, active, at);
  }

  lemma EndStays(s: State, o: OpId, env: Env)
    requires o in s.ops && Ended(s.ops[o].pc) && o in Advance(s, o, env).ops
    ensures Advance(s, o, env).ops[o].wroteAt == s.ops[o].wroteAt
    ensures Advance(s, o, env).ops[o].request == s.ops[o].request
  {
  }

  lemma EndedFamily(s: State, o: OpId) returns (family: Family)
    requires Inv(s) && o in s.ops && Ended(s.ops[o].pc)
    ensures Presents(s, s.ops[o], family)
  {
    assert OpOk(s, o);
    family := s.rows[FindToken(s.rows, s.ops[o].request.token).value].family;
  }

  lemma NoEndYet(s: State, o: OpId, env: Env)
    requires o in s.ops
    requires var pc := s.ops[o].pc; !pc.FamilySelecting? && !pc.FamilyUpdating? && !Ended(pc)
    ensures var u := Advance(s, o, env); o in u.ops && !Ended(u.ops[o].pc)
  {
    match s.ops[o].pc
    case LoginInserting =>
    case Claiming =>
    case Polling(_) =>
    case Selecting =>
    case Checking(_) =>
    case _ => NoEndLater(s, o, env);
  }

  lemma NoEndLater(s: State, o: OpId, env: Env)
    requires o in s.ops
    requires var pc := s.ops[o].pc;
             !Ended(pc) &&
               (pc.Updating? || pc.Mirroring? || pc.Inserting? || pc.FindingUser? || pc.Completing? || pc.Releasing? ||
                 pc.Finished?)
    ensures var u := Advance(s, o, env); o in u.ops && !Ended(u.ops[o].pc)
  {
    match s.ops[o].pc
    case Updating(id, row, at) => assert Advance(s, o, env) == Update(s, o, id, row, at);
    case Mirroring(id, row) => assert Advance(s, o, env) == Mirror(s, o, id, row);
    case Inserting(id, row) => assert Advance(s, o, env) == InsertChild(s, o, id, row, env.minted);
    case FindingUser(user, minted) => assert Advance(s, o, env) == FindUser(s, o, user, minted, env);
    case Completing(_) =>
    case Releasing(_) =>
    case Finished(_) =>
  }

  lemma NextEnd(s: State, step: Step, o: OpId) returns (family: Family)
    requires Inv(s) && o in Next(s, step).ops && Ended(Next(s, step).ops[o].pc)
    ensures EndedFrom(s, Next(s, step), o, family)
  {
    if step.Go? && step.op == o && o in s.ops {
      family := OwnEnd(s, o, step.env);
    } else {
      if step.Go? && step.op in s.ops {
        AdvanceMovesOne(s, step.op, step.env, o);
      }
      family := EndedFamily(s, o);
    }
  }

  lemma PresentsOne(s: State, op: Op, family: Family, other: Family)
    requires Presents(s, op, family) && Presents(s, op, other)
    ensures family == other
  {
  }

  lemma EndedNow(s: State, step: Step, o: OpId, family: Family)
    requires Inv(s)
    requires var u := Next(s, step); o in u.ops && Ended(u.ops[o].pc) && Presents(u, u.ops[o], family)
    ensures EndedFrom(s, Next(s, step), o, family)
  {
    var u := Next(s, step);
    NextKeeps(s, step);
    var f := NextEnd(s, step, o);
    LaterPresents(s, u, s.ops[o], f);
    PresentsOne(u, u.ops[o], family, f);
  }

  /** At step `wroteAt` a request that ended its token's family found it dead, or left it so. */
  lemma {:induction false} EndWasSeen(now: int, ttl: nat, steps: seq<Step>, n: nat, o: OpId, family: Family)
    requires n <= |steps|
    requires var s := Moment(now, ttl, steps, n);
             o in s.ops && Ended(s.ops[o].pc) && Presents(s, s.ops[o], family)
    ensures var op := Moment(now, ttl, steps, n).ops[o];
            && op.wroteAt < n
            && Dead(Moment(now, ttl, steps, op.wroteAt + 1).rows, family)
            && Presents(Moment(now, ttl, steps, op.wroteAt + 1), op, family)
  {
    assert n > 0;
    EndStep(now, ttl, steps, n - 1, o, family);
    if Ended(Moment(now, ttl, steps, n - 1).ops[o].pc) {
      EndWasSeen(now, ttl, steps, n - 1, o, family);
    }
  }

  /** Either the end was already seen one step earlier, or this step saw it. */
  lemma EndStep(now: int, ttl: nat, steps: seq<Step>, k: nat, o: OpId, family: Family)
    requires k < |steps|
    requires var u := Moment(now, ttl, steps, k + 1);
             o in u.ops && Ended(u.ops[o].pc) && Presents(u, u.ops[o], family)
    ensures var s, u := Moment(now, ttl, steps, k), Moment(now, ttl, steps, k + 1);
            && EndedFrom(s, u, o, family) && s.clock == k
  {
    MomentNext(now, ttl, steps, k);
    EveryMoment(now, ttl, steps, k);
    ClockCounts(now, ttl, steps[..k]);
    EndedNow(Moment(now, ttl, steps, k), steps[k], o, family);
  }
}
