/** What every run of the protocol keeps, whatever the interleaving, the lapses and the crashes. */
module RefreshSafety {
  import opened Wrappers
  import opened Time
  import opened RefreshTokenTable
  import opened RefreshProtocol
  import H = RefreshHandlers

  // ---------------------------------------------------------------------------
  // The invariant
  // ---------------------------------------------------------------------------

  ghost predicate Points(t: Table, id: nat, row: Row) {
    id < |t| && t[id].SameIdentity(row)
  }

  ghost predicate Marks(s: State, id: nat) {
    id < |s.marks| && s.marks[id].Some?
  }

  /** A refresh request read this row live, before anything revoked it. */
  ghost predicate ReadLive(s: State, op: Op, id: nat) {
    Marks(s, id) ==> op.readAt < s.marks[id].value
  }

  /** It has since written the row, which was revoked then at the latest. */
  ghost predicate Wrote(s: State, op: Op, id: nat) {
    Marks(s, id) && op.readAt < s.marks[id].value <= op.wroteAt
  }

  /** `minted` is the token of the row request `o` inserted. */
  ghost predicate BornOf(s: State, o: OpId, minted: Token) {
    var c := FindToken(s.rows, minted);
    c.Some? && c.value in s.births && s.births[c.value] == o
  }

  /** A root of the family that was revoked at that moment or before. */
  ghost predicate DeadRoot(s: State, r: nat, family: Family, moment: nat) {
    && r < |s.rows| && s.rows[r].family == family && s.rows[r].parent.None?
    && Marks(s, r) && s.marks[r].value <= moment
  }

  /** The presented token's row is in the table, in this family. */
  ghost predicate Presents(s: State, op: Op, family: Family) {
    && op.request.Refresh? && FindToken(s.rows, op.request.token).Some?
    && s.rows[FindToken(s.rows, op.request.token).value].family == family
  }

  /** The root of the presented token's family was revoked at `wroteAt` or before. */
  ghost predicate SawDead(s: State, op: Op) {
    && op.request.Refresh? && FindToken(s.rows, op.request.token).Some?
    && exists r :: DeadRoot(s, r, s.rows[FindToken(s.rows, op.request.token).value].family, op.wroteAt)
  }

  predicate Past(pc: Pc) { pc.FindingUser? || pc.Completing? || pc.Finished? }

  /** Where a pair cached under key `k` for a presented token comes from. */
  ghost predicate Provenance(s: State, k: Key, cached: Cached) {
    exists o :: o in s.ops
      && s.ops[o].request == Refresh(cached.presented, Some(k))
      && s.ops[o].pc == Finished(Issued(cached.pair))
      && BornOf(s, o, cached.pair.refresh)
  }

  ghost predicate OpOk(s: State, o: OpId)
    requires o in s.ops
  {
    var op := s.ops[o];
    match op.pc
    case Checking(Some((id, row))) =>
      && Points(s.rows, id, row)
      && op.readAt < s.clock
      && (op.request.Refresh? || op.request.LogoutToken? ==> row.token == op.request.token)
      && (op.request.Refresh? && row.Live() ==> ReadLive(s, op, id))
    case Updating(id, row, at) =>
      && Points(s.rows, id, row)
      && op.readAt < s.clock
      && (op.request.Refresh? || op.request.LogoutToken? ==> row.token == op.request.token)
      && (op.request.Refresh? ==> ReadLive(s, op, id))
    case Mirroring(id, row) =>
      && Points(s.rows, id, row)
      && (op.request.Refresh? ==> row.token == op.request.token && Wrote(s, op, id))
    case Inserting(id, row) =>
      && Points(s.rows, id, row)
      && op.request.Refresh? && row.token == op.request.token && Wrote(s, op, id)
    case FindingUser(_, minted) => op.request.Refresh? && BornOf(s, o, minted)
    case Completing(pair) => op.request.Refresh? && BornOf(s, o, pair.refresh)
    case Finished(Issued(pair)) => op.request.Refresh? ==> BornOf(s, o, pair.refresh)
    case FamilySelecting(family) => Presents(s, op, family)
    case FamilyUpdating(family, _, _) => Presents(s, op, family)
    case FamilyMirroring(_) => SawDead(s, op)
    case Releasing(Reuse) => SawDead(s, op)
    case Finished(Denied(Reuse)) => SawDead(s, op)
    case Finished(Replayed(pair)) => Keyed(op) && Provenance(s, KeyOf(op), Cached(pair, op.request.token))
    case _ => true
  }

  /** Each child row was inserted by one refresh request that had read and then revoked its parent. */
  ghost predicate BirthOk(s: State, c: nat) {
    && c in s.births && c < |s.rows| && s.births[c] in s.ops
    && s.rows[c].parent.Some?
    && var p, op := s.rows[c].parent.value, s.ops[s.births[c]];
       p < |s.rows| && op.request.Refresh? && op.request.token == s.rows[p].token && Wrote(s, op, p) && Past(op.pc)
  }

  ghost predicate SlotOk(s: State, k: Key) {
    k in s.slots && s.slots[k].value.Complete? ==> Provenance(s, k, s.slots[k].value.cached)
  }

  ghost predicate MarksOk(s: State) {
    forall i: nat {:trigger Marks(s, i)} ::
      && (Marks(s, i) <==> i < |s.rows| && !s.rows[i].Live())
      && (Marks(s, i) ==> s.marks[i].value < s.clock)
  }

  ghost predicate OneBirth(s: State, c: nat, d: nat) {
    c in s.births && d in s.births && s.births[c] == s.births[d] ==> c == d
  }

  ghost predicate BirthsOk(s: State) {
    && (forall c {:trigger BirthOk(s, c)} :: c in s.births ==> BirthOk(s, c))
    && (forall c: nat {:trigger c in s.births} :: c < |s.rows| && s.rows[c].parent.Some? ==> c in s.births)
    && (forall c, d {:trigger OneBirth(s, c, d)} :: OneBirth(s, c, d))
  }

  ghost predicate Inv(s: State) {
    && Forest(s.rows)
    && MarksOk(s)
    && (forall o {:trigger OpOk(s, o)} :: o in s.ops ==> OpOk(s, o))
    && BirthsOk(s)
    && (forall k :: SlotOk(s, k))
  }

  // ---------------------------------------------------------------------------
  // What later states keep of earlier ones
  // ---------------------------------------------------------------------------

  ghost predicate OpLater(a: Op, b: Op) {
    && a.request == b.request
    && (Past(a.pc) ==> Past(b.pc) && a.readAt == b.readAt && a.wroteAt == b.wroteAt)
    && (a.pc.Finished? ==> a == b)
  }

  ghost predicate OpKept(s: State, u: State, o: OpId) {
    o in s.ops ==> o in u.ops && OpLater(s.ops[o], u.ops[o])
  }

  ghost predicate MarkKept(s: State, u: State, i: nat) {
    && (Marks(s, i) ==> Marks(u, i) && u.marks[i] == s.marks[i])
    && (Marks(u, i) && !Marks(s, i) ==> s.clock <= u.marks[i].value)
  }

  ghost predicate BirthKept(s: State, u: State, c: nat) {
    c in s.births ==> c in u.births && u.births[c] == s.births[c]
  }

  ghost predicate Later(s: State, u: State) {
    && Extends(s.rows, u.rows)
    && s.clock <= u.clock
    && (forall i {:trigger MarkKept(s, u, i)} :: MarkKept(s, u, i))
    && (forall c {:trigger BirthKept(s, u, c)} :: BirthKept(s, u, c))
    && (forall o {:trigger OpKept(s, u, o)} :: OpKept(s, u, o))
  }

  lemma LaterFinds(t: Table, u: Table, token: Token)
    requires Extends(t, u) && Forest(u) && FindToken(t, token).Some?
    ensures FindToken(u, token) == FindToken(t, token)
  {
    var i := FindToken(t, token).value;
    assert RowKept(t, u, i);
    H.FindsRow(u, i);
  }

  lemma LaterBorn(s: State, u: State, o: OpId, minted: Token)
    requires Later(s, u) && Forest(u.rows) && BornOf(s, o, minted)
    ensures BornOf(u, o, minted)
  {
    LaterFinds(s.rows, u.rows, minted);
    assert BirthKept(s, u, FindToken(s.rows, minted).value);
  }

  lemma LaterProvenance(s: State, u: State, k: Key, cached: Cached)
    requires Later(s, u) && Forest(u.rows) && Provenance(s, k, cached)
    ensures Provenance(u, k, cached)
  {
    var o :| o in s.ops && s.ops[o].request == Refresh(cached.presented, Some(k))
      && s.ops[o].pc == Finished(Issued(cached.pair)) && BornOf(s, o, cached.pair.refresh);
    LaterBorn(s, u, o, cached.pair.refresh);
    assert OpKept(s, u, o);
  }

  lemma LaterPresents(s: State, u: State, op: Op, family: Family)
    requires Later(s, u) && Forest(u.rows) && Presents(s, op, family)
    ensures Presents(u, op, family)
  {
    LaterFinds(s.rows, u.rows, op.request.token);
    assert RowKept(s.rows, u.rows, FindToken(s.rows, op.request.token).value);
  }

  lemma LaterSawDead(s: State, u: State, op: Op)
    requires Later(s, u) && Forest(u.rows) && SawDead(s, op)
    ensures SawDead(u, op)
  {
    var family := s.rows[FindToken(s.rows, op.request.token).value].family;
    LaterPresents(s, u, op, family);
    var r :| DeadRoot(s, r, family, op.wroteAt);
    assert RowKept(s.rows, u.rows, r) && MarkKept(s, u, r);
    assert DeadRoot(u, r, family, op.wroteAt);
  }

  lemma LaterOp(s: State, u: State, o: OpId)
    requires Later(s, u) && Forest(u.rows) && o in s.ops && o in u.ops && OpOk(s, o) && u.ops[o] == s.ops[o]
    ensures OpOk(u, o)
  {
    var op := s.ops[o];
    match op.pc
    case Checking(Some((id, row))) => assert RowKept(s.rows, u.rows, id) && MarkKept(s, u, id);
    case Updating(id, row, at) => assert RowKept(s.rows, u.rows, id) && MarkKept(s, u, id);
    case Mirroring(id, row) => assert RowKept(s.rows, u.rows, id) && MarkKept(s, u, id);
    case Inserting(id, row) => assert RowKept(s.rows, u.rows, id) && MarkKept(s, u, id);
    case FindingUser(_, minted) => LaterBorn(s, u, o, minted);
    case Completing(pair) => LaterBorn(s, u, o, pair.refresh);
    case Finished(Issued(pair)) =>
      if op.request.Refresh? {
        LaterBorn(s, u, o, pair.refresh);
      }
    case FamilySelecting(family) => LaterPresents(s, u, op, family);
    case FamilyUpdating(family, _, _) => LaterPresents(s, u, op, family);
    case FamilyMirroring(_) => LaterSawDead(s, u, op);
    case Releasing(Reuse) => LaterSawDead(s, u, op);
    case Finished(Denied(Reuse)) => LaterSawDead(s, u, op);
    case Finished(Replayed(pair)) => LaterProvenance(s, u, KeyOf(op), Cached(pair, op.request.token));
    case _ =>
  }

  lemma LaterBirth(s: State, u: State, c: nat)
    requires Later(s, u) && BirthOk(s, c)
    ensures BirthOk(u, c)
  {
    var p := s.rows[c].parent.value;
    assert RowKept(s.rows, u.rows, c) && RowKept(s.rows, u.rows, p);
    assert BirthKept(s, u, c) && MarkKept(s, u, p) && OpKept(s, u, s.births[c]);
  }

  // ---------------------------------------------------------------------------
  // One step
  // ---------------------------------------------------------------------------

  /** Only request `o` moved. */
  ghost predicate OnlyMoves(s: State, u: State, o: OpId) {
    && (forall q :: q in s.ops ==> q in u.ops && (q != o ==> u.ops[q] == s.ops[q]))
    && (forall q :: q in u.ops ==> q == o || q in s.ops)
    && (o in s.ops ==> OpLater(s.ops[o], u.ops[o]))
  }

  /** Births are recorded for exactly the child rows a step appends. */
  ghost predicate BirthsGrow(s: State, u: State, o: OpId) {
    || (u.births == s.births && (|u.rows| > |s.rows| ==> |u.rows| == |s.rows| + 1 && u.rows[|s.rows|].parent.None?))
    || (|u.rows| == |s.rows| + 1 && u.births == s.births[|s.rows| := o] && o in s.ops && !Past(s.ops[o].pc))
  }

  lemma StepIsLater(s: State, u: State, o: OpId)
    requires MarksOk(s) && BirthsOk(s) && Extends(s.rows, u.rows) && OnlyMoves(s, u, o) && BirthsGrow(s, u, o)
    requires u.clock == s.clock + 1 && u.marks == Marked(s.marks, u.rows, s.clock)
    ensures Later(s, u) && MarksOk(u)
  {
    forall i: nat
      ensures MarkKept(s, u, i)
      ensures (Marks(u, i) <==> i < |u.rows| && !u.rows[i].Live()) && (Marks(u, i) ==> u.marks[i].value < u.clock)
    {
      if Marks(s, i) {
        assert RowKept(s.rows, u.rows, i);
      }
    }
    forall c
      ensures BirthKept(s, u, c)
    {
      if c in s.births {
        assert BirthOk(s, c);
      }
    }
  }

  lemma StepKeepsBirths(s: State, u: State, o: OpId)
    requires BirthsOk(s) && Later(s, u) && BirthsGrow(s, u, o)
    requires |u.rows| == |s.rows| + 1 && u.births != s.births ==> BirthOk(u, |s.rows|)
    ensures BirthsOk(u)
  {
    forall c | c in u.births
      ensures BirthOk(u, c)
    {
      if c in s.births {
        assert BirthOk(s, c);
        LaterBirth(s, u, c);
      }
    }
    forall c: nat | c < |u.rows| && u.rows[c].parent.Some?
      ensures c in u.births
    {
      if c < |s.rows| {
        assert RowKept(s.rows, u.rows, c) && BirthKept(s, u, c);
      }
    }
    forall c, d
      ensures OneBirth(u, c, d)
    {
      assert OneBirth(s, c, d) && BirthKept(s, u, c) && BirthKept(s, u, d);
      assert c in s.births ==> BirthOk(s, c);
      assert d in s.births ==> BirthOk(s, d);
    }
  }

  lemma StepKeepsInv(s: State, u: State, o: OpId)
    requires Inv(s) && Forest(u.rows) && Extends(s.rows, u.rows) && OnlyMoves(s, u, o) && BirthsGrow(s, u, o)
    requires u.clock == s.clock + 1 && u.marks == Marked(s.marks, u.rows, s.clock)
    requires Later(s, u) && o in u.ops ==> OpOk(u, o)
    requires Later(s, u) && u.births != s.births ==> BirthOk(u, |s.rows|)
    requires forall k :: k in u.slots && !(k in s.slots && u.slots[k].value == s.slots[k].value) ==> Later(s, u) ==>
               SlotOk(u, k)
    ensures Inv(u) && Later(s, u)
  {
    StepIsLater(s, u, o);
    StepKeepsBirths(s, u, o);
    forall q | q in u.ops
      ensures OpOk(u, q)
    {
      if q != o {
        LaterOp(s, u, q);
      }
    }
    forall k
      ensures SlotOk(u, k)
    {
      if k in u.slots && k in s.slots && u.slots[k].value == s.slots[k].value {
        assert SlotOk(s, k);
        if s.slots[k].value.Complete? {
          LaterProvenance(s, u, k, s.slots[k].value.cached);
        }
      }
    }
  }

  /** A step that only moves request `o` to another program point. */
  lemma MoveKeeps(s: State, o: OpId, op: Op)
    requires Inv(s) && o in s.ops && OpLater(s.ops[o], op)
    requires var u := Stamp(s, s.(ops := s.ops[o := op])); Later(s, u) ==> OpOk(u, o)
    ensures var u := Stamp(s, s.(ops := s.ops[o := op])); Inv(u) && Later(s, u)
  {
    StepKeepsInv(s, Stamp(s, s.(ops := s.ops[o := op])), o);
  }

  lemma ClaimKeeps(s: State, o: OpId, k: Key)
    requires Inv(s) && o in s.ops && s.ops[o].pc.Claiming?
    ensures var u := Stamp(s, Claim(s, o, k)); Inv(u) && Later(s, u)
  {
    if SlotOf(s, k).Some? {
      MoveKeeps(s, o, s.ops[o].(pc := Polling(0)));
    } else {
      var u := Stamp(s, Claim(s, o, k));
      assert forall j :: j in u.slots && j != k ==> j in s.slots && u.slots[j] == s.slots[j];
      StepKeepsInv(s, u, o);
    }
  }

  lemma PollKeeps(s: State, o: OpId, n: nat)
    requires Inv(s) && o in s.ops && s.ops[o].pc == Polling(n) && Keyed(s.ops[o])
    ensures var u := Stamp(s, At(s, o, AfterPoll(SlotOf(s, KeyOf(s.ops[o])), n, s.ops[o].request.token)));
            Inv(u) && Later(s, u)
  {
    var op := s.ops[o];
    var k := KeyOf(op);
    var pc := AfterPoll(SlotOf(s, k), n, op.request.token);
    var u := Stamp(s, At(s, o, pc));
    assert SlotOk(s, k);
    if pc.Finished? && Later(s, u) {
      LaterProvenance(s, u, k, s.slots[k].value.cached);
      assert s.slots[k].value.cached == Cached(pc.outcome.pair, op.request.token);
    }
    MoveKeeps(s, o, op.(pc := pc));
  }

  lemma SelectKeeps(s: State, o: OpId, pick: nat)
    requires Inv(s) && o in s.ops && s.ops[o].pc.Selecting?
    ensures var u := Stamp(s, s.(ops := s.ops[o := Select(s, s.ops[o], pick)])); Inv(u) && Later(s, u)
  {
    MoveKeeps(s, o, Select(s, s.ops[o], pick));
  }

  lemma CheckKeeps(s: State, o: OpId, found: Option<(nat, Row)>)
    requires Inv(s) && o in s.ops && s.ops[o].pc == Checking(found)
    ensures var u := Stamp(s, At(s, o, AfterCheck(s.ops[o], found, s.now))); Inv(u) && Later(s, u)
  {
    assert OpOk(s, o);
    if found.Some? {
      H.FindsRow(s.rows, found.value.0);
    }
    MoveKeeps(s, o, s.ops[o].(pc := AfterCheck(s.ops[o], found, s.now)));
  }

  /** A dead family's root is dead, and was so by now. */
  lemma DeadFamilyHasDeadRoot(s: State, op: Op, family: Family, moment: nat)
    requires Forest(s.rows) && MarksOk(s) && Presents(s, op, family) && Dead(s.rows, family)
    requires s.clock <= moment + 1 && op.wroteAt == moment
    ensures SawDead(s, op)
  {
    var r := Root(s.rows, FindToken(s.rows, op.request.token).value);
    assert Marks(s, r);
    assert DeadRoot(s, r, family, moment);
  }

  lemma FamilySelectKeeps(s: State, o: OpId, family: Family)
    requires Inv(s) && o in s.ops && s.ops[o].pc == FamilySelecting(family)
    ensures var u := Stamp(s, FamilySelect(s, o, family)); Inv(u) && Later(s, u)
  {
    assert OpOk(s, o);
    var active := SelectLive(s.rows, family);
    if active == [] {
      assert forall i :: 0 <= i < |s.rows| && s.rows[i].family == family && s.rows[i].Live() ==> s.rows[i] in active;
      var op := s.ops[o].(wroteAt := s.clock, pc := Failing(s.ops[o], Reuse));
      DeadFamilyHasDeadRoot(s, op, family, s.clock);
      var u := Stamp(s, s.(ops := s.ops[o := op]));
      if Later(s, u) {
        LaterSawDead(s, u, op);
      }
      MoveKeeps(s, o, op);
    } else {
      MoveKeeps(s, o, s.ops[o].(pc := FamilyUpdating(family, active, s.now)));
    }
  }

  lemma FamilyUpdateKeeps(s: State, o: OpId, family: Family, active: seq<Row>, at: int)
    requires Inv(s) && o in s.ops && s.ops[o].pc == FamilyUpdating(family, active, at)
    ensures var u := Stamp(s, FamilyUpdate(s, o, family, active, at)); Inv(u) && Later(s, u)
  {
    assert OpOk(s, o);
    UpdateFamilyKeepsForest(s.rows, family, at, ReuseDetected);
    var u := Stamp(s, FamilyUpdate(s, o, family, active, at));
    StepIsLater(s, u, o);
    LaterPresents(s, u, s.ops[o], family);
    DeadFamilyHasDeadRoot(u, u.ops[o], family, s.clock);
    StepKeepsInv(s, u, o);
  }

  lemma FamilyMirrorKeeps(s: State, o: OpId, rest: seq<Row>)
    requires Inv(s) && o in s.ops && s.ops[o].pc == FamilyMirroring(rest)
    ensures var u := Stamp(s, FamilyMirror(s, o, rest)); Inv(u) && Later(s, u)
  {
    assert OpOk(s, o);
    if rest == [] {
      StillSawDead(s, o, s.mirror, Failing(s.ops[o], Reuse));
      assert s.(mirror := s.mirror) == s;
    } else {
      StillSawDead(s, o, H.MirrorRevocation(s.mirror, rest[0].token, rest[0].expiresAt, s.now),
        FamilyMirroring(rest[1..]));
    }
  }

  lemma StillSawDead(s: State, o: OpId, mirror: map<Token, int>, pc: Pc)
    requires Inv(s) && o in s.ops && !Past(s.ops[o].pc) && SawDead(s, s.ops[o])
    requires pc.FamilyMirroring? || pc == Releasing(Reuse) || pc == Finished(Denied(Reuse))
    ensures var u := Stamp(s, At(s.(mirror := mirror), o, pc)); Inv(u) && Later(s, u)
  {
    var u := Stamp(s, At(s.(mirror := mirror), o, pc));
    if Later(s, u) {
      LaterSawDead(s, u, s.ops[o]);
      assert SawDead(u, u.ops[o]);
    }
    MirrorWriteKeeps(s, o, mirror, pc);
  }

  /** A step that writes the Redis mirror and moves on. */
  lemma MirrorWriteKeeps(s: State, o: OpId, mirror: map<Token, int>, pc: Pc)
    requires Inv(s) && o in s.ops && !Past(s.ops[o].pc)
    requires var u := Stamp(s, At(s.(mirror := mirror), o, pc)); Later(s, u) ==> OpOk(u, o)
    ensures var u := Stamp(s, At(s.(mirror := mirror), o, pc)); Inv(u) && Later(s, u)
  {
    StepKeepsInv(s, Stamp(s, At(s.(mirror := mirror), o, pc)), o);
  }

  lemma UpdateKeeps(s: State, o: OpId, id: nat, row: Row, at: int)
    requires Inv(s) && o in s.ops && s.ops[o].pc == Updating(id, row, at)
    ensures var u := Stamp(s, Update(s, o, id, row, at)); Inv(u) && Later(s, u)
  {
    var u := Stamp(s, Update(s, o, id, row, at));
    assert OpOk(s, o);
    UpdateByIdKeepsForest(s.rows, id, at, if s.ops[o].request.Refresh? then Rotation else Logout);
    assert RowKept(s.rows, u.rows, id) && Marks(u, id);
    assert Marks(s, id) ==> s.marks[id].value < s.clock;
    StepKeepsInv(s, u, o);
  }

  lemma MirrorKeeps(s: State, o: OpId, id: nat, row: Row)
    requires Inv(s) && o in s.ops && s.ops[o].pc == Mirroring(id, row)
    ensures var u := Stamp(s, Mirror(s, o, id, row)); Inv(u) && Later(s, u)
  {
    assert OpOk(s, o);
    MirrorWriteKeeps(s, o, H.MirrorRevocation(s.mirror, row.token, row.expiresAt, s.now),
                     if s.ops[o].request.Refresh? then Inserting(id, row) else Finished(LoggedOut));
  }

  lemma AppendChildKeeps(s: State, o: OpId, id: nat, row: Row, child: Row)
    requires Inv(s) && o in s.ops && s.ops[o].pc == Inserting(id, row) && OpOk(s, o)
    requires child.Live() && child.user == row.user && child.family == row.family && child.parent == Some(id)
    requires FindToken(s.rows, child.token).None?
    ensures var grown := s.(rows := s.rows + [child], births := s.births[|s.rows| := o]);
            var u := Stamp(s, At(grown, o, FindingUser(row.user, child.token)));
            Inv(u) && Later(s, u)
  {
    var grown := s.(rows := s.rows + [child], births := s.births[|s.rows| := o]);
    var u := Stamp(s, At(grown, o, FindingUser(row.user, child.token)));
    InsertKeepsForest(s.rows, child);
    H.FindsRow(u.rows, |s.rows|);
    assert Later(s, u) ==> BirthOk(u, |s.rows|);
    StepKeepsInv(s, u, o);
  }

  lemma InsertChildKeeps(s: State, o: OpId, id: nat, row: Row, minted: Token)
    requires Inv(s) && o in s.ops && s.ops[o].pc == Inserting(id, row)
    ensures var u := Stamp(s, InsertChild(s, o, id, row, minted)); Inv(u) && Later(s, u)
  {
    assert OpOk(s, o);
    if FindToken(s.rows, minted).Some? {
      MoveKeeps(s, o, s.ops[o].(pc := Finished(Crashed)));
    } else {
      var child := Row(row.user, minted, row.family, s.now, SecondsFromNow(s.now, s.ttl), None, Some(id));
      AppendChildKeeps(s, o, id, row, child);
    }
  }

  lemma AppendRootKeeps(s: State, o: OpId, row: Row, pair: Pair)
    requires Inv(s) && o in s.ops && s.ops[o].pc.LoginInserting? && s.ops[o].request.Login?
    requires row.Live() && row.parent.None? && FindToken(s.rows, row.token).None? && H.FreshFamily(s.rows, row.family)
    ensures var u := Stamp(s, At(s.(rows := s.rows + [row]), o, Finished(Issued(pair)))); Inv(u) && Later(s, u)
  {
    InsertKeepsForest(s.rows, row);
    StepKeepsInv(s, Stamp(s, At(s.(rows := s.rows + [row]), o, Finished(Issued(pair)))), o);
  }

  lemma InsertRootKeeps(s: State, o: OpId, env: Env)
    requires Inv(s) && o in s.ops && s.ops[o].pc.LoginInserting? && s.ops[o].request.Login?
    ensures var u := Stamp(s, InsertRoot(s, o, env)); Inv(u) && Later(s, u)
  {
    var user := s.ops[o].request.user;
    if !H.FreshFamily(s.rows, env.family) {
      StutterKeeps(s);
    } else if FindToken(s.rows, env.minted).Some? {
      MoveKeeps(s, o, s.ops[o].(pc := Finished(Crashed)));
    } else {
      var row := Row(user, env.minted, env.family, s.now, SecondsFromNow(s.now, s.ttl), None, None);
      AppendRootKeeps(s, o, row, Pair(user, env.access, env.minted));
    }
  }

  lemma FindUserKeeps(s: State, o: OpId, user: User, minted: Token, env: Env)
    requires Inv(s) && o in s.ops && s.ops[o].pc == FindingUser(user, minted)
    ensures var u := Stamp(s, FindUser(s, o, user, minted, env)); Inv(u) && Later(s, u)
  {
    assert OpOk(s, o);
    var u := Stamp(s, FindUser(s, o, user, minted, env));
    assert u == Stamp(s, s.(ops := s.ops[o := u.ops[o]]));
    MoveKeeps(s, o, u.ops[o]);
  }

  lemma CompleteKeeps(s: State, o: OpId, pair: Pair)
    requires Inv(s) && o in s.ops && s.ops[o].pc == Completing(pair) && Keyed(s.ops[o])
    ensures var u := Stamp(s, CompleteClaim(s, o, pair)); Inv(u) && Later(s, u)
  {
    var u := Stamp(s, CompleteClaim(s, o, pair));
    assert OpOk(s, o);
    assert BornOf(u, o, pair.refresh);
    assert SlotOk(u, KeyOf(s.ops[o]));
    StepKeepsInv(s, u, o);
  }

  lemma ReleaseKeeps(s: State, o: OpId, why: Why)
    requires Inv(s) && o in s.ops && s.ops[o].pc == Releasing(why) && Keyed(s.ops[o])
    ensures var u := Stamp(s, ReleaseClaim(s, o, why)); Inv(u) && Later(s, u)
  {
    assert OpOk(s, o);
    var u := Stamp(s, ReleaseClaim(s, o, why));
    if Later(s, u) && why.Reuse? {
      LaterSawDead(s, u, s.ops[o]);
      assert SawDead(u, u.ops[o]);
    }
    StepKeepsInv(s, u, o);
  }

  lemma BeginKeeps(s: State, o: OpId, request: Request)
    requires Inv(s) && o !in s.ops
    ensures var u := Stamp(s, s.(ops := s.ops[o := Op(request, false, FirstPc(request), 0, 0, [])]));
            Inv(u) && Later(s, u)
  {
    StepKeepsInv(s, Stamp(s, s.(ops := s.ops[o := Op(request, false, FirstPc(request), 0, 0, [])])), o);
  }

  lemma IdleKeeps(s: State, ms: nat)
    requires Inv(s)
    ensures var u := Stamp(s, s.(now := s.now + ms)); Inv(u) && Later(s, u)
  {
    var u := Stamp(s, s.(now := s.now + ms));
    if Later(s, u) && 0 in s.ops {
      LaterOp(s, u, 0);
    }
    StepKeepsInv(s, u, 0);
  }

  /** A step that finds its request in no state to go on changes nothing. */
  lemma StutterKeeps(s: State)
    requires Inv(s)
    ensures Inv(Stamp(s, s)) && Later(s, Stamp(s, s))
  {
    IdleKeeps(s, 0);
    assert s.(now := s.now + 0) == s;
  }

  lemma ClaimPhaseKeeps(s: State, o: OpId, env: Env)
    requires Inv(s) && o in s.ops
    requires var pc := s.ops[o].pc;
             || pc.LoginInserting? || pc.Claiming? || pc.Polling? || pc.Completing?
             || pc.Releasing? || pc.Finished?
    ensures var u := Stamp(s, Advance(s, o, env)); Inv(u) && Later(s, u)
  {
    var op := s.ops[o];
    if (op.pc.LoginInserting? && !op.request.Login?) || (!op.pc.LoginInserting? && !Keyed(op)) || op.pc.Finished? {
      StutterKeeps(s);
    } else {
      match op.pc
      case LoginInserting => InsertRootKeeps(s, o, env);
      case Claiming => ClaimKeeps(s, o, KeyOf(op));
      case Polling(n) => PollKeeps(s, o, n);
      case Completing(pair) => CompleteKeeps(s, o, pair);
      case Releasing(why) => ReleaseKeeps(s, o, why);
    }
  }

  lemma FamilyPhaseKeeps(s: State, o: OpId, env: Env)
    requires Inv(s) && o in s.ops
    requires var pc := s.ops[o].pc; pc.FamilySelecting? || pc.FamilyUpdating? || pc.FamilyMirroring?
    ensures var u := Stamp(s, Advance(s, o, env)); Inv(u) && Later(s, u)
  {
    var op := s.ops[o];
    match op.pc
    case FamilySelecting(family) => FamilySelectKeeps(s, o, family);
    case FamilyUpdating(family, active, at) => FamilyUpdateKeeps(s, o, family, active, at);
    case FamilyMirroring(rest) => FamilyMirrorKeeps(s, o, rest);
  }

  lemma ReadPhaseKeeps(s: State, o: OpId, env: Env)
    requires Inv(s) && o in s.ops
    requires var pc := s.ops[o].pc; pc.Selecting? || pc.Checking? || pc.FindingUser?
    ensures var u := Stamp(s, Advance(s, o, env)); Inv(u) && Later(s, u)
  {
    match s.ops[o].pc
    case Selecting => SelectKeeps(s, o, env.pick);
    case Checking(found) => CheckKeeps(s, o, found);
    case FindingUser(user, minted) => FindUserKeeps(s, o, user, minted, env);
  }

  lemma WritePhaseKeeps(s: State, o: OpId, env: Env)
    requires Inv(s) && o in s.ops
    requires var pc := s.ops[o].pc; pc.Updating? || pc.Mirroring? || pc.Inserting?
    ensures var u := Stamp(s, Advance(s, o, env)); Inv(u) && Later(s, u)
  {
    match s.ops[o].pc
    case Updating(id, row, at) => UpdateKeeps(s, o, id, row, at);
    case Mirroring(id, row) => MirrorKeeps(s, o, id, row);
    case Inserting(id, row) => InsertChildKeeps(s, o, id, row, env.minted);
  }

  lemma AdvanceKeeps(s: State, o: OpId, env: Env)
    requires Inv(s) && o in s.ops
    ensures var u := Stamp(s, Advance(s, o, env)); Inv(u) && Later(s, u)
  {
    var pc := s.ops[o].pc;
    if pc.FamilySelecting? || pc.FamilyUpdating? || pc.FamilyMirroring? {
      FamilyPhaseKeeps(s, o, env);
    } else if pc.Selecting? || pc.Checking? || pc.FindingUser? {
      ReadPhaseKeeps(s, o, env);
    } else if pc.Updating? || pc.Mirroring? || pc.Inserting? {
      WritePhaseKeeps(s, o, env);
    } else {
      ClaimPhaseKeeps(s, o, env);
    }
  }

  lemma NextKeeps(s: State, step: Step)
    requires Inv(s)
    ensures Inv(Next(s, step)) && Later(s, Next(s, step))
  {
    match step
    case Tick(ms) => IdleKeeps(s, ms);
    case Begin(o, request) => if o in s.ops { StutterKeeps(s); } else { BeginKeeps(s, o, request); }
    case Go(o, env) => if o in s.ops { AdvanceKeeps(s, o, env); } else { StutterKeeps(s); }
    case Crash(o) =>
      if o in s.ops && !s.ops[o].pc.Finished? {
        MoveKeeps(s, o, s.ops[o].(pc := Finished(Crashed)));
      } else {
        StutterKeeps(s);
      }
  }

  /** A step of request `o` at one time leaves request `q` as it was. */
  ghost predicate Bystands(s: State, u: State, o: OpId, q: OpId) {
    u.now == s.now && (q in u.ops <==> q in s.ops) && (q in s.ops && q != o ==> u.ops[q] == s.ops[q])
  }

  lemma ReadMovesOne(s: State, o: OpId, env: Env, q: OpId)
    requires o in s.ops
    requires var pc := s.ops[o].pc; pc.Claiming? || pc.Polling? || pc.Selecting? || pc.Checking? || pc.FamilySelecting?
    ensures Bystands(s, Advance(s, o, env), o, q)
  {
    match s.ops[o].pc
    case Claiming =>
    case Polling(_) =>
    case Selecting =>
    case Checking(_) =>
    case FamilySelecting(_) =>
  }

  lemma WriteMovesOne(s: State, o: OpId, env: Env, q: OpId)
    requires o in s.ops
    requires var pc := s.ops[o].pc;
             || pc.LoginInserting? || pc.FamilyUpdating? || pc.FamilyMirroring?
             || pc.Updating? || pc.Mirroring? || pc.Inserting?
    ensures Bystands(s, Advance(s, o, env), o, q)
  {
    match s.ops[o].pc
    case LoginInserting =>
    case FamilyUpdating(_, _, _) =>
    case FamilyMirroring(_) =>
    case Updating(_, _, _) =>
    case Mirroring(_, _) =>
    case Inserting(_, _) =>
  }

  lemma AdvanceMovesOne(s: State, o: OpId, env: Env, q: OpId)
    requires o in s.ops
    ensures Bystands(s, Advance(s, o, env), o, q)
  {
    match s.ops[o].pc
    case FindingUser(_, _) =>
    case Completing(_) =>
    case Releasing(_) =>
    case Finished(_) =>
    case Claiming => ReadMovesOne(s, o, env, q);
    case Polling(_) => ReadMovesOne(s, o, env, q);
    case Selecting => ReadMovesOne(s, o, env, q);
    case Checking(_) => ReadMovesOne(s, o, env, q);
    case FamilySelecting(_) => ReadMovesOne(s, o, env, q);
    case _ => WriteMovesOne(s, o, env, q);
  }

  lemma LaterTransitive(s: State, u: State, v: State)
    requires Later(s, u) && Later(u, v)
    ensures Later(s, v)
  {
    ExtendsTransitive(s.rows, u.rows, v.rows);
    forall x
      ensures OpKept(s, v, x) && BirthKept(s, v, x) && MarkKept(s, v, x)
    {
      assert OpKept(s, u, x) && BirthKept(s, u, x) && MarkKept(s, u, x);
      assert OpKept(u, v, x) && BirthKept(u, v, x) && MarkKept(u, v, x);
    }
  }

  lemma {:induction false} RunKeeps(s: State, steps: seq<Step>)
    requires Inv(s)
    ensures Inv(Run(s, steps)) && Later(s, Run(s, steps))
  {
    if steps != [] {
      var before := Run(s, steps[..|steps| - 1]);
      RunKeeps(s, steps[..|steps| - 1]);
      NextKeeps(before, steps[|steps| - 1]);
      LaterTransitive(s, before, Run(s, steps));
    }
  }
}
