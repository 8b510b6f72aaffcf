/**
 * The Redis mirror of revocations while requests interleave: whose keys are written, whose are
 * still to come, and exactly which revoked rows never get one.
 */
module RefreshMirror {
  import opened Wrappers
  import opened Time
  import opened RefreshTokenTable
  import opened RefreshProtocol
  import opened RefreshSafety
  import opened RefreshTheorems
  import H = RefreshHandlers

  // ---------------------------------------------------------------------------
  // The invariant
  // ---------------------------------------------------------------------------

  /** The request has revoked the token's row and taken its key upon itself. */
  ghost predicate Undertook(s: State, o: OpId, token: Token) {
    o in s.ops && exists row :: row in s.ops[o].duty && row.token == token
  }

  /** The request has yet to SET the row's key. */
  predicate Owes(pc: Pc, row: Row) {
    match pc
    case Mirroring(_, r) => r == row
    case FamilyMirroring(rest) => row in rest
    case _ => false
  }

  /** `row` was read from the table. */
  ghost predicate Known(t: Table, row: Row) {
    exists i :: 0 <= i < |t| && t[i].SameIdentity(row)
  }

  /** ... and its row in the table has been revoked. */
  ghost predicate Gone(t: Table, row: Row) {
    exists i :: 0 <= i < |t| && t[i].SameIdentity(row) && !t[i].Live()
  }

  /** The row's key was written, or the row has expired. */
  predicate Settled(s: State, row: Row) {
    row.token in s.mirror || row.expiresAt <= s.now
  }

  ghost predicate RowDone(s: State, op: Op, row: Row) {
    Gone(s.rows, row) && (Settled(s, row) || Owes(op.pc, row) || op.pc == Finished(Crashed))
  }

  ghost predicate DutyOk(s: State, op: Op) {
    forall row {:trigger RowDone(s, op, row)} :: row in op.duty ==> RowDone(s, op, row)
  }

  ghost predicate KnownIn(t: Table, family: Family, row: Row) {
    row.family == family && Known(t, row)
  }

  predicate Swept(pc: Pc) { pc.FamilyMirroring? || pc.Releasing? || pc.Finished? }

  ghost predicate PcOk(s: State, op: Op) {
    match op.pc
    case FamilyUpdating(family, active, _) =>
      op.duty == [] && forall row {:trigger KnownIn(s.rows, family, row)} :: row in active ==>
        KnownIn(s.rows, family, row)
    case Mirroring(_, row) => row in op.duty
    case FamilyMirroring(rest) => forall row :: row in rest ==> row in op.duty
    case Inserting(_, _) => true
    case FindingUser(_, _) => true
    case Completing(_) => true
    case Releasing(_) => true
    case Finished(_) => true
    case _ => op.duty == []
  }

  ghost predicate OpFine(s: State, o: OpId) {
    o in s.ops ==> DutyOk(s, s.ops[o]) && PcOk(s, s.ops[o])
  }

  /** A key stands for a revoked row that some request undertook, and outlives it by less than a second. */
  ghost predicate KeyOk(s: State, token: Token) {
    token in s.mirror ==>
      && (exists o :: Undertook(s, o, token))
      && FindToken(s.rows, token).Some?
      && var row := s.rows[FindToken(s.rows, token).value];
         !row.Live() && row.expiresAt <= s.mirror[token] < row.expiresAt + MS_PER_SECOND
  }

  /** The request revoked the row with its whole family, without having selected it. */
  ghost predicate SweptAway(s: State, o: OpId, i: nat) {
    && o in s.ops && i < |s.rows| && Marks(s, i)
    && Swept(s.ops[o].pc) && s.ops[o].wroteAt == s.marks[i].value
    && Presents(s, s.ops[o], s.rows[i].family)
    && forall row :: row in s.ops[o].duty ==> row.token != s.rows[i].token
  }

  ghost predicate RevokerOf(s: State, o: OpId, i: nat) {
    i < |s.rows| && (Undertook(s, o, s.rows[i].token) || SweptAway(s, o, i))
  }

  ghost predicate RowFine(s: State, i: nat) {
    Marks(s, i) ==> exists o :: RevokerOf(s, o, i)
  }

  ghost predicate MirrorInv(s: State) {
    && (forall o {:trigger OpFine(s, o)} :: OpFine(s, o))
    && (forall token {:trigger KeyOk(s, token)} :: KeyOk(s, token))
    && (forall i: nat {:trigger RowFine(s, i)} :: RowFine(s, i))
  }

  // ---------------------------------------------------------------------------
  // What later states keep
  // ---------------------------------------------------------------------------

  /** A request's duty is set once, with the row or the family it revokes. */
  predicate DutyKept(a: Op, b: Op) {
    && (a.duty != [] ==> b.duty == a.duty)
    && (Swept(a.pc) ==> Swept(b.pc) && b.duty == a.duty && b.wroteAt == a.wroteAt)
  }

  predicate MirrorGrows(s: State, u: State) {
    forall token :: token in s.mirror ==> token in u.mirror
  }

  lemma GoneLater(t: Table, u: Table, row: Row)
    requires Extends(t, u)
    ensures Gone(t, row) ==> Gone(u, row)
    ensures Known(t, row) ==> Known(u, row)
  {
    if i :| 0 <= i < |t| && t[i].SameIdentity(row) && !t[i].Live() {
      assert RowKept(t, u, i);
    }
    if i :| 0 <= i < |t| && t[i].SameIdentity(row) {
      assert RowKept(t, u, i);
    }
  }

  lemma OpFineLater(s: State, u: State, o: OpId)
    requires Later(s, u) && MirrorGrows(s, u) && s.now <= u.now && OpFine(s, o)
    requires o in s.ops && o in u.ops && u.ops[o] == s.ops[o]
    ensures OpFine(u, o)
  {
    var op := s.ops[o];
    forall row | row in op.duty
      ensures RowDone(u, op, row)
    {
      assert RowDone(s, op, row);
      GoneLater(s.rows, u.rows, row);
    }
    if op.pc.FamilyUpdating? {
      forall row | row in op.pc.active
        ensures KnownIn(u.rows, op.pc.family, row)
      {
        assert KnownIn(s.rows, op.pc.family, row);
        GoneLater(s.rows, u.rows, row);
      }
    }
  }

  lemma UndertookLater(s: State, u: State, o: OpId, token: Token)
    requires Undertook(s, o, token) && o in u.ops && DutyKept(s.ops[o], u.ops[o])
    ensures Undertook(u, o, token)
  {
  }

  lemma SweptLater(s: State, u: State, o: OpId, i: nat)
    requires SweptAway(s, o, i) && Later(s, u) && Forest(u.rows) && o in u.ops && DutyKept(s.ops[o], u.ops[o])
    ensures SweptAway(u, o, i)
  {
    assert OpKept(s, u, o) && MarkKept(s, u, i) && RowKept(s.rows, u.rows, i);
    LaterPresents(s, u, s.ops[o], s.rows[i].family);
  }

  lemma KeyLater(s: State, u: State, token: Token)
    requires Later(s, u) && Forest(u.rows) && KeyOk(s, token) && token in s.mirror && token in u.mirror
    requires u.mirror[token] == s.mirror[token]
    requires forall o :: o in s.ops ==> o in u.ops && DutyKept(s.ops[o], u.ops[o])
    ensures KeyOk(u, token)
  {
    var o :| Undertook(s, o, token);
    UndertookLater(s, u, o, token);
    LaterFinds(s.rows, u.rows, token);
    assert RowKept(s.rows, u.rows, FindToken(s.rows, token).value);
  }

  lemma RowLater(s: State, u: State, i: nat)
    requires Later(s, u) && Forest(u.rows) && RowFine(s, i) && Marks(s, i) && MarksOk(s)
    requires forall o :: o in s.ops ==> o in u.ops && DutyKept(s.ops[o], u.ops[o])
    ensures RowFine(u, i)
  {
    var o :| RevokerOf(s, o, i);
    assert RowKept(s.rows, u.rows, i);
    if SweptAway(s, o, i) {
      SweptLater(s, u, o, i);
    } else {
      UndertookLater(s, u, o, s.rows[i].token);
    }
    assert RevokerOf(u, o, i);
  }

  // ---------------------------------------------------------------------------
  // One step
  // ---------------------------------------------------------------------------

  ghost predicate OpStays(s: State, u: State, o: OpId, q: OpId) {
    && (q in s.ops ==> q in u.ops && DutyKept(s.ops[q], u.ops[q]))
    && (q in u.ops && q != o ==> q in s.ops && u.ops[q] == s.ops[q])
  }

  ghost predicate KeyStays(s: State, u: State, token: Token) {
    && (token in s.mirror ==> token in u.mirror)
    && (token in u.mirror ==> (token in s.mirror && u.mirror[token] == s.mirror[token]) || KeyOk(u, token))
  }

  lemma StepKeeps(s: State, u: State, o: OpId)
    requires MarksOk(s) && MirrorInv(s) && Forest(u.rows) && Later(s, u) && s.now <= u.now
    requires forall q {:trigger OpStays(s, u, o, q)} :: OpStays(s, u, o, q)
    requires OpFine(u, o)
    requires forall token {:trigger KeyStays(s, u, token)} :: KeyStays(s, u, token)
    requires forall i: nat {:trigger RowFine(u, i)} :: Marks(u, i) && !Marks(s, i) ==> RowFine(u, i)
    ensures MirrorInv(u)
  {
    forall token | token in s.mirror
      ensures token in u.mirror
    {
      assert KeyStays(s, u, token);
    }
    forall q | q in s.ops
      ensures q in u.ops && DutyKept(s.ops[q], u.ops[q])
    {
      assert OpStays(s, u, o, q);
    }
    forall q
      ensures OpFine(u, q)
    {
      assert OpStays(s, u, o, q) && OpFine(s, q);
      if q != o && q in u.ops {
        OpFineLater(s, u, q);
      }
    }
    forall token
      ensures KeyOk(u, token)
    {
      assert KeyStays(s, u, token) && KeyOk(s, token);
      if token in u.mirror && !KeyOk(u, token) {
        KeyLater(s, u, token);
      }
    }
    forall i: nat
      ensures RowFine(u, i)
    {
      if Marks(s, i) {
        assert RowFine(s, i);
        RowLater(s, u, i);
      }
    }
  }

  /** Another request's step leaves request q alone. */
  lemma AdvanceStays(s: State, o: OpId, env: Env, q: OpId)
    requires o in s.ops && OpFine(s, o)
    ensures OpStays(s, Stamp(s, Advance(s, o, env)), o, q)
  {
    AdvanceMovesOne(s, o, env, q);
    if q == o {
      OwnDutyKept(s, o, env);
    }
  }

  lemma OwnDutyKept(s: State, o: OpId, env: Env)
    requires o in s.ops && OpFine(s, o)
    ensures o in Advance(s, o, env).ops && DutyKept(s.ops[o], Advance(s, o, env).ops[o])
  {
    match s.ops[o].pc
    case LoginInserting =>
    case Claiming => EarlyDutyKept(s, o, env);
    case Polling(_) => EarlyDutyKept(s, o, env);
    case Selecting => EarlyDutyKept(s, o, env);
    case Checking(_) => EarlyDutyKept(s, o, env);
    case FamilySelecting(_) => RevokingDutyKept(s, o, env);
    case FamilyUpdating(_, _, _) => RevokingDutyKept(s, o, env);
    case FamilyMirroring(_) => RevokingDutyKept(s, o, env);
    case Updating(_, _, _) => RevokingDutyKept(s, o, env);
    case _ =>
  }

  lemma EarlyDutyKept(s: State, o: OpId, env: Env)
    requires o in s.ops && OpFine(s, o)
    requires var pc := s.ops[o].pc; pc.Claiming? || pc.Polling? || pc.Selecting? || pc.Checking?
    ensures o in Advance(s, o, env).ops && DutyKept(s.ops[o], Advance(s, o, env).ops[o])
  {
    match s.ops[o].pc
    case Claiming =>
    case Polling(_) =>
    case Selecting =>
    case Checking(_) =>
  }

  lemma RevokingDutyKept(s: State, o: OpId, env: Env)
    requires o in s.ops && OpFine(s, o)
    requires var pc := s.ops[o].pc; pc.FamilySelecting? || pc.FamilyUpdating? || pc.FamilyMirroring? || pc.Updating?
    ensures o in Advance(s, o, env).ops && DutyKept(s.ops[o], Advance(s, o, env).ops[o])
  {
    match s.ops[o].pc
    case FamilySelecting(_) =>
    case FamilyUpdating(_, _, _) =>
    case FamilyMirroring(_) =>
    case Updating(_, _, _) =>
  }

  predicate Quiet(pc: Pc) {
    !pc.FamilyUpdating? && !pc.FamilyMirroring? && !pc.Updating? && !pc.Mirroring?
  }

  /** A step that neither revokes a row nor writes a key. */
  ghost predicate StoresQuiet(s: State, u: State) {
    && u.mirror == s.mirror && u.now == s.now && |s.rows| <= |u.rows| && u.rows[..|s.rows|] == s.rows
    && forall i :: |s.rows| <= i < |u.rows| ==> u.rows[i].Live()
  }

  lemma EarlyKeepsStores(s: State, o: OpId, env: Env)
    requires o in s.ops
    requires var pc := s.ops[o].pc; pc.Claiming? || pc.Polling? || pc.Selecting? || pc.Checking? || pc.FamilySelecting?
    ensures StoresQuiet(s, Advance(s, o, env))
  {
    match s.ops[o].pc
    case Claiming =>
    case Polling(_) =>
    case Selecting =>
    case Checking(_) =>
    case FamilySelecting(_) =>
  }

  lemma LateKeepsStores(s: State, o: OpId, env: Env)
    requires o in s.ops
    requires var pc := s.ops[o].pc; pc.FindingUser? || pc.Completing? || pc.Releasing? || pc.Finished?
    ensures StoresQuiet(s, Advance(s, o, env))
  {
    match s.ops[o].pc
    case FindingUser(_, _) =>
    case Completing(_) =>
    case Releasing(_) =>
    case Finished(_) =>
  }

  lemma InsertKeepsStores(s: State, o: OpId, env: Env)
    requires o in s.ops && (s.ops[o].pc.LoginInserting? || s.ops[o].pc.Inserting?)
    ensures StoresQuiet(s, Advance(s, o, env))
  {
    match s.ops[o].pc
    case LoginInserting =>
    case Inserting(_, _) =>
  }

  lemma QuietKeepsStores(s: State, o: OpId, env: Env)
    requires o in s.ops && Quiet(s.ops[o].pc)
    ensures StoresQuiet(s, Advance(s, o, env))
  {
    var pc := s.ops[o].pc;
    if pc.LoginInserting? || pc.Inserting? {
      InsertKeepsStores(s, o, env);
    } else if pc.FindingUser? || pc.Completing? || pc.Releasing? || pc.Finished? {
      LateKeepsStores(s, o, env);
    } else {
      EarlyKeepsStores(s, o, env);
    }
  }

  lemma SelectedAreKnown(t: Table, family: Family)
    ensures forall row :: row in SelectLive(t, family) ==> KnownIn(t, family, row)
  {
    forall row | row in SelectLive(t, family)
      ensures KnownIn(t, family, row)
    {
      var i :| 0 <= i < |t| && t[i] == row;
      assert t[i].SameIdentity(row);
    }
  }

  lemma QuietKeepsOp(s: State, o: OpId, env: Env)
    requires o in s.ops && Quiet(s.ops[o].pc) && OpFine(s, o)
    requires Later(s, Stamp(s, Advance(s, o, env)))
    ensures OpFine(Stamp(s, Advance(s, o, env)), o)
  {
    var u := Stamp(s, Advance(s, o, env));
    QuietKeepsStores(s, o, env);
    QuietMove(s, o, env);
    forall row | row in u.ops[o].duty
      ensures RowDone(u, u.ops[o], row)
    {
      assert RowDone(s, s.ops[o], row);
      GoneLater(s.rows, u.rows, row);
    }
  }

  lemma QuietMove(s: State, o: OpId, env: Env)
    requires o in s.ops && Quiet(s.ops[o].pc) && OpFine(s, o)
    ensures var u := Advance(s, o, env);
            o in u.ops && PcOk(u, u.ops[o]) && u.ops[o].duty == s.ops[o].duty
  {
    match s.ops[o].pc
    case Claiming => EarlyMove(s, o, env);
    case Polling(_) => EarlyMove(s, o, env);
    case Selecting => EarlyMove(s, o, env);
    case Checking(_) => EarlyMove(s, o, env);
    case FamilySelecting(family) => SelectedAreKnown(s.rows, family);
    case _ => LateMove(s, o, env);
  }

  lemma LateMove(s: State, o: OpId, env: Env)
    requires o in s.ops && OpFine(s, o)
    requires var pc := s.ops[o].pc;
             pc.LoginInserting? || pc.Inserting? || pc.FindingUser? || pc.Completing? || pc.Releasing? || pc.Finished?
    ensures var u := Advance(s, o, env);
            o in u.ops && PcOk(u, u.ops[o]) && u.ops[o].duty == s.ops[o].duty
  {
    match s.ops[o].pc
    case LoginInserting => InsertMove(s, o, env);
    case Inserting(_, _) => InsertMove(s, o, env);
    case FindingUser(_, _) =>
    case Completing(_) =>
    case Releasing(_) =>
    case Finished(_) =>
  }

  lemma InsertMove(s: State, o: OpId, env: Env)
    requires o in s.ops && OpFine(s, o) && (s.ops[o].pc.LoginInserting? || s.ops[o].pc.Inserting?)
    ensures var u := Advance(s, o, env);
            o in u.ops && PcOk(u, u.ops[o]) && u.ops[o].duty == s.ops[o].duty
  {
    match s.ops[o].pc
    case LoginInserting =>
    case Inserting(_, _) =>
  }

  lemma EarlyMove(s: State, o: OpId, env: Env)
    requires o in s.ops && OpFine(s, o)
    requires var pc := s.ops[o].pc; pc.Claiming? || pc.Polling? || pc.Selecting? || pc.Checking?
    ensures var u := Advance(s, o, env);
            o in u.ops && PcOk(u, u.ops[o]) && u.ops[o].duty == s.ops[o].duty
  {
    match s.ops[o].pc
    case Claiming =>
    case Polling(_) =>
    case Selecting =>
    case Checking(_) =>
  }

  lemma QuietKeeps(s: State, o: OpId, env: Env)
    requires Inv(s) && MirrorInv(s) && o in s.ops && Quiet(s.ops[o].pc)
    ensures MirrorInv(Next(s, Go(o, env)))
  {
    var u := Next(s, Go(o, env));
    NextKeeps(s, Go(o, env));
    assert OpFine(s, o);
    QuietKeepsStores(s, o, env);
    QuietKeepsOp(s, o, env);
    forall q
      ensures OpStays(s, u, o, q)
    {
      AdvanceStays(s, o, env, q);
    }
    assert forall token :: KeyStays(s, u, token);
    forall i: nat | Marks(u, i)
      ensures Marks(s, i)
    {
      assert i < |s.rows| ==> u.rows[i] == s.rows[i];
    }
    StepKeeps(s, u, o);
  }

  lemma UpdateKeeps(s: State, o: OpId, env: Env)
    requires Inv(s) && MirrorInv(s) && o in s.ops && s.ops[o].pc.Updating?
    ensures MirrorInv(Next(s, Go(o, env)))
  {
    var u := Next(s, Go(o, env));
    var id, row := s.ops[o].pc.id, s.ops[o].pc.row;
    NextKeeps(s, Go(o, env));
    assert OpFine(s, o) && RefreshSafety.OpOk(s, o);
    assert u.rows[id].SameIdentity(row) && !u.rows[id].Live();
    assert RowDone(u, u.ops[o], row);
    forall q
      ensures OpStays(s, u, o, q)
    {
      AdvanceStays(s, o, env, q);
    }
    assert forall token :: KeyStays(s, u, token);
    forall i: nat | Marks(u, i) && !Marks(s, i)
      ensures RowFine(u, i)
    {
      assert row in u.ops[o].duty;
      assert Undertook(u, o, u.rows[id].token);
      assert i == id;
      assert RevokerOf(u, o, i);
    }
    StepKeeps(s, u, o);
  }

  lemma FamilyUpdateKeepsRows(s: State, o: OpId, family: Family, active: seq<Row>, at: int)
    requires Inv(s) && o in s.ops && s.ops[o].pc == FamilyUpdating(family, active, at) && OpFine(s, o)
    ensures var u := Stamp(s, FamilyUpdate(s, o, family, active, at));
            forall i: nat :: Marks(u, i) && !Marks(s, i) ==> RowFine(u, i)
  {
    var u := Stamp(s, FamilyUpdate(s, o, family, active, at));
    FamilyUpdateKeeps(s, o, family, active, at);
    assert RefreshSafety.OpOk(s, o);
    LaterPresents(s, u, s.ops[o], family);
    forall i: nat | Marks(u, i) && !Marks(s, i)
      ensures RowFine(u, i)
    {
      assert u.rows[i].family == family && u.marks[i].value == s.clock;
      if row :| row in active && row.token == u.rows[i].token {
        assert Undertook(u, o, u.rows[i].token);
      } else {
        assert SweptAway(u, o, i);
      }
      assert RevokerOf(u, o, i);
    }
  }

  lemma FamilyUpdateStep(s: State, o: OpId, env: Env)
    requires Inv(s) && MirrorInv(s) && o in s.ops && s.ops[o].pc.FamilyUpdating?
    ensures MirrorInv(Next(s, Go(o, env)))
  {
    var u := Next(s, Go(o, env));
    var family, active, at := s.ops[o].pc.family, s.ops[o].pc.active, s.ops[o].pc.at;
    NextKeeps(s, Go(o, env));
    assert OpFine(s, o);
    FamilyUpdateKeepsRows(s, o, family, active, at);
    forall row | row in active
      ensures RowDone(u, u.ops[o], row)
    {
      assert KnownIn(s.rows, family, row);
      var i :| 0 <= i < |s.rows| && s.rows[i].SameIdentity(row);
      assert u.rows[i].SameIdentity(row) && !u.rows[i].Live();
    }
    forall q
      ensures OpStays(s, u, o, q)
    {
      AdvanceStays(s, o, env, q);
    }
    assert forall token :: KeyStays(s, u, token);
    StepKeeps(s, u, o);
  }

  /** A SET for a row the request undertook. */
  lemma SetKeeps(s: State, u: State, o: OpId, row: Row)
    requires Inv(s) && MirrorInv(s) && Inv(u) && Later(s, u) && o in s.ops && o in u.ops && row in s.ops[o].duty
    requires u.rows == s.rows && u.now == s.now &&
             u.mirror == H.MirrorRevocation(s.mirror, row.token, row.expiresAt, s.now)
    requires u.ops[o].duty == s.ops[o].duty && PcOk(u, u.ops[o])
    requires forall r :: Owes(s.ops[o].pc, r) ==> r == row || Owes(u.ops[o].pc, r)
    requires !s.ops[o].pc.Finished?
    requires forall q {:trigger OpStays(s, u, o, q)} :: OpStays(s, u, o, q)
    ensures MirrorInv(u)
  {
    assert OpFine(s, o);
    assert RowDone(s, s.ops[o], row);
    var i :| 0 <= i < |s.rows| && s.rows[i].SameIdentity(row) && !s.rows[i].Live();
    H.FindsRow(s.rows, i);
    assert Undertook(u, o, row.token);
    if s.now < row.expiresAt {
      TtlOvershoot(s.now, row.expiresAt);
    }
    assert KeyOk(s, row.token);
    forall token
      ensures KeyStays(s, u, token)
    {
    }
    forall r | r in u.ops[o].duty
      ensures RowDone(u, u.ops[o], r)
    {
      assert RowDone(s, s.ops[o], r);
    }
    assert forall j: nat :: Marks(u, j) ==> Marks(s, j) by {
      assert MarksOk(u) && MarksOk(s);
    }
    StepKeeps(s, u, o);
  }

  /** A step that writes no store. */
  lemma StoresKept(s: State, u: State, o: OpId)
    requires Inv(s) && MirrorInv(s) && Inv(u) && Later(s, u) && s.now <= u.now && u.mirror == s.mirror &&
             u.rows == s.rows
    requires forall q {:trigger OpStays(s, u, o, q)} :: OpStays(s, u, o, q)
    requires OpFine(u, o)
    ensures MirrorInv(u)
  {
    assert forall token :: KeyStays(s, u, token);
    assert forall j: nat :: Marks(u, j) ==> Marks(s, j) by {
      assert MarksOk(u) && MarksOk(s);
    }
    StepKeeps(s, u, o);
  }

  /** All keys of a family are written. */
  lemma SetsDone(s: State, u: State, o: OpId)
    requires Inv(s) && MirrorInv(s) && Inv(u) && Later(s, u) && o in s.ops && s.ops[o].pc == FamilyMirroring([]) &&
             o in u.ops
    requires u.rows == s.rows && u.now == s.now && u.mirror == s.mirror
    requires u.ops[o].duty == s.ops[o].duty && PcOk(u, u.ops[o])
    requires forall q {:trigger OpStays(s, u, o, q)} :: OpStays(s, u, o, q)
    ensures MirrorInv(u)
  {
    assert OpFine(s, o);
    forall row | row in u.ops[o].duty
      ensures RowDone(u, u.ops[o], row)
    {
      assert RowDone(s, s.ops[o], row);
    }
    StoresKept(s, u, o);
  }

  lemma MirrorStep(s: State, o: OpId, env: Env)
    requires Inv(s) && MirrorInv(s) && o in s.ops && (s.ops[o].pc.Mirroring? || s.ops[o].pc.FamilyMirroring?)
    ensures MirrorInv(Next(s, Go(o, env)))
  {
    var u := Next(s, Go(o, env));
    NextKeeps(s, Go(o, env));
    assert OpFine(s, o);
    forall q
      ensures OpStays(s, u, o, q)
    {
      AdvanceStays(s, o, env, q);
    }
    SetStep(s, u, o, env);
  }

  lemma SetStep(s: State, u: State, o: OpId, env: Env)
    requires Inv(s) && MirrorInv(s) && Inv(u) && Later(s, u) && o in s.ops && OpFine(s, o) && u == Next(s, Go(o, env))
    requires s.ops[o].pc.Mirroring? || s.ops[o].pc.FamilyMirroring?
    requires forall q {:trigger OpStays(s, u, o, q)} :: OpStays(s, u, o, q)
    ensures MirrorInv(u)
  {
    match s.ops[o].pc
    case Mirroring(id, row) =>
      assert Advance(s, o, env) == Mirror(s, o, id, row);
      SetKeeps(s, u, o, row);
    case FamilyMirroring(rest) =>
      assert Advance(s, o, env) == FamilyMirror(s, o, rest);
      FamilySetStep(s, u, o, rest);
  }

  lemma FamilySetStep(s: State, u: State, o: OpId, rest: seq<Row>)
    requires Inv(s) && MirrorInv(s) && Inv(u) && Later(s, u) && o in s.ops && OpFine(s, o)
    requires s.ops[o].pc == FamilyMirroring(rest) && u == Stamp(s, FamilyMirror(s, o, rest))
    requires forall q {:trigger OpStays(s, u, o, q)} :: OpStays(s, u, o, q)
    ensures MirrorInv(u)
  {
    if rest == [] {
      SetsDone(s, u, o);
    } else {
      assert rest == [rest[0]] + rest[1..];
      SetKeeps(s, u, o, rest[0]);
    }
  }

  lemma TickStep(s: State, ms: nat)
    requires Inv(s) && MirrorInv(s)
    ensures MirrorInv(Next(s, Tick(ms)))
  {
    var u := Next(s, Tick(ms));
    NextKeeps(s, Tick(ms));
    assert OpFine(s, 0);
    if 0 in s.ops {
      OpFineLater(s, u, 0);
    }
    assert forall q :: OpStays(s, u, 0, q);
    StoresKept(s, u, 0);
  }

  lemma BeginStep(s: State, o: OpId, request: Request)
    requires Inv(s) && MirrorInv(s) && o !in s.ops
    ensures MirrorInv(Next(s, Begin(o, request)))
  {
    var u := Next(s, Begin(o, request));
    NextKeeps(s, Begin(o, request));
    assert forall q :: OpStays(s, u, o, q);
    StoresKept(s, u, o);
  }

  lemma CrashStep(s: State, o: OpId)
    requires Inv(s) && MirrorInv(s) && o in s.ops && !s.ops[o].pc.Finished?
    ensures MirrorInv(Next(s, Step.Crash(o)))
  {
    var u := Next(s, Step.Crash(o));
    NextKeeps(s, Step.Crash(o));
    assert OpFine(s, o);
    forall row | row in s.ops[o].duty
      ensures RowDone(u, u.ops[o], row)
    {
      assert RowDone(s, s.ops[o], row);
    }
    assert forall q :: OpStays(s, u, o, q);
    StoresKept(s, u, o);
  }

  lemma IdleStep(s: State, step: Step)
    requires Inv(s) && MirrorInv(s) && !step.Go?
    ensures MirrorInv(Next(s, step))
  {
    match step
    case Tick(ms) => TickStep(s, ms);
    case Begin(o, request) =>
      if o in s.ops {
        TickStep(s, 0);
        assert Next(s, step) == Next(s, Tick(0));
      } else {
        BeginStep(s, o, request);
      }
    case Crash(o) =>
      if o in s.ops && !s.ops[o].pc.Finished? {
        CrashStep(s, o);
      } else {
        TickStep(s, 0);
        assert Next(s, step) == Next(s, Tick(0));
      }
  }

  lemma MirrorNextKeeps(s: State, step: Step)
    requires Inv(s) && MirrorInv(s)
    ensures MirrorInv(Next(s, step))
  {
    if !step.Go? {
      IdleStep(s, step);
    } else if step.op !in s.ops {
      TickStep(s, 0);
      assert Next(s, step) == Next(s, Tick(0));
    } else if Quiet(s.ops[step.op].pc) {
      QuietKeeps(s, step.op, step.env);
    } else if s.ops[step.op].pc.Updating? {
      UpdateKeeps(s, step.op, step.env);
    } else if s.ops[step.op].pc.FamilyUpdating? {
      FamilyUpdateStep(s, step.op, step.env);
    } else {
      MirrorStep(s, step.op, step.env);
    }
  }

  lemma {:induction false} MirrorRunKeeps(now: int, ttl: nat, steps: seq<Step>)
    ensures Inv(Run(Start(now, ttl), steps)) && MirrorInv(Run(Start(now, ttl), steps))
  {
    StartIsSafe(now, ttl);
    if steps != [] {
      MirrorRunKeeps(now, ttl, steps[..|steps| - 1]);
      NextKeeps(Run(Start(now, ttl), steps[..|steps| - 1]), steps[|steps| - 1]);
      MirrorNextKeeps(Run(Start(now, ttl), steps[..|steps| - 1]), steps[|steps| - 1]);
    }
  }

  // ---------------------------------------------------------------------------
  // Theorems
  // ---------------------------------------------------------------------------

  /** At every moment of every run a key stands for a revoked row, and lapses within a second of its expiry. */
  lemma KeysStandForRevokedRows(now: int, ttl: nat, steps: seq<Step>, i: nat)
    requires i < |Run(Start(now, ttl), steps).rows|
    ensures var s := Run(Start(now, ttl), steps);
            s.rows[i].token in s.mirror ==>
              !s.rows[i].Live() &&
                s.rows[i].expiresAt <= s.mirror[s.rows[i].token] < s.rows[i].expiresAt + MS_PER_SECOND
  {
    MirrorRunKeeps(now, ttl, steps);
    var s := Run(Start(now, ttl), steps);
    assert KeyOk(s, s.rows[i].token);
    H.FindsRow(s.rows, i);
  }

  ghost predicate AllAnswered(s: State) {
    forall o :: o in s.ops ==> s.ops[o].pc.Finished? && s.ops[o].pc != Finished(Crashed)
  }

  /**
   * Once every request is answered, an unexpired row has its key if and only if some request
   * undertook it; a revoked row without one was swept away with its family by a request that had
   * selected the family's rows before this one was there.
   */
  lemma MirrorOnceAnswered(now: int, ttl: nat, steps: seq<Step>, i: nat)
    requires var s := Run(Start(now, ttl), steps); AllAnswered(s) && i < |s.rows| && s.now < s.rows[i].expiresAt
    ensures var s := Run(Start(now, ttl), steps);
            && (H.Mirrored(s.mirror, s.rows[i].token, s.now) <==> exists o :: Undertook(s, o, s.rows[i].token))
            && (!s.rows[i].Live() && !H.Mirrored(s.mirror, s.rows[i].token, s.now) ==> exists o :: SweptAway(s, o, i))
  {
    MirrorRunKeeps(now, ttl, steps);
    var s := Run(Start(now, ttl), steps);
    assert KeyOk(s, s.rows[i].token) && RowFine(s, i);
    H.FindsRow(s.rows, i);
    if o :| Undertook(s, o, s.rows[i].token) {
      UndertakenIsWritten(s, o, i);
    }
    if !s.rows[i].Live() && !H.Mirrored(s.mirror, s.rows[i].token, s.now) {
      assert Marks(s, i);
      var o :| RevokerOf(s, o, i);
    }
  }

  lemma UndertakenIsWritten(s: State, o: OpId, i: nat)
    requires Inv(s) && MirrorInv(s) && AllAnswered(s)
    requires i < |s.rows| && s.now < s.rows[i].expiresAt && Undertook(s, o, s.rows[i].token)
    ensures H.Mirrored(s.mirror, s.rows[i].token, s.now)
  {
    assert OpFine(s, o);
    var row :| row in s.ops[o].duty && row.token == s.rows[i].token;
    assert RowDone(s, s.ops[o], row);
    var j :| 0 <= j < |s.rows| && s.rows[j].SameIdentity(row) && !s.rows[j].Live();
    H.FindsRow(s.rows, i);
    H.FindsRow(s.rows, j);
    assert KeyOk(s, s.rows[i].token);
  }

  // ---------------------------------------------------------------------------
  // A key that is never written
  // ---------------------------------------------------------------------------

  lemma KeylessRotation(s: State, o: OpId, env: Env, id: nat)
    requires o in s.ops && s.ops[o].pc.Selecting? && !s.ops[o].owns && id < |s.rows|
    requires s.ops[o].request == Refresh(s.rows[id].token, None) && FindToken(s.rows, s.rows[id].token) == Some(id)
    requires s.rows[id].Live() && s.now < s.rows[id].expiresAt && env.userExists && FindToken(s.rows, env.minted).None?
    ensures var u, row := Solo(s, o, env, 6), s.rows[id];
            && u.rows == UpdateById(s.rows, id, s.now, Rotation)
                 + [Row(row.user, env.minted, row.family, s.now, SecondsFromNow(s.now, s.ttl), None, Some(id))]
            && o in u.ops && u.ops == s.ops[o := u.ops[o]] && u.ops[o].duty == [row]
            && u.ops[o].pc.Finished? && u.ops[o].pc.outcome.Issued? && u.now == s.now && u.ttl == s.ttl
  {
    ReadsAsHandler(s, o, env);
    SoloAdds(s, o, env, 2, 4);
    RotationFinishes(Solo(s, o, env, 2), o, env, id, s.rows[id]);
  }

  lemma RotationFinishes(s: State, o: OpId, env: Env, id: nat, row: Row)
    requires o in s.ops && s.ops[o].pc == Updating(id, row, s.now) && s.ops[o].request.Refresh? && !s.ops[o].owns
    requires Points(s.rows, id, row) && env.userExists && FindToken(s.rows, env.minted).None?
    ensures var u := Solo(s, o, env, 4);
            && u.rows == UpdateById(s.rows, id, s.now, Rotation)
                 + [Row(row.user, env.minted, row.family, s.now, SecondsFromNow(s.now, s.ttl), None, Some(id))]
            && o in u.ops && u.ops == s.ops[o := u.ops[o]] && u.ops[o].duty == [row]
            && u.ops[o].pc.Finished? && u.ops[o].pc.outcome.Issued? && u.now == s.now && u.ttl == s.ttl
  {
    RotationGoesThrough(s, o, env, id, row, s.now);
    RotationDuty(s, o, env, id, row, s.now);
    SoloAdds(s, o, env, 3, 1);
    var inserted := Solo(s, o, env, 3);
    assert Solo(inserted, o, env, 1) == Next(inserted, Go(o, env));
  }

  lemma RotationDuty(s: State, o: OpId, env: Env, id: nat, row: Row, at: int)
    requires o in s.ops && s.ops[o].pc == Updating(id, row, at) && s.ops[o].request.Refresh? && id < |s.rows|
    requires FindToken(s.rows, env.minted).None?
    ensures var u := Solo(s, o, env, 3); o in u.ops && u.ops[o].duty == [row]
  {
    var s1 := Next(s, Go(o, env));
    var s2 := Next(s1, Go(o, env));
    FindSameTokens(s.rows, s2.rows, env.minted);
    assert s2.ops[o].pc == Inserting(id, row) && s2.ops[o].duty == [row];
    assert Solo(s2, o, env, 1) == Next(s2, Go(o, env));
    assert Solo(s1, o, env, 2) == Solo(s2, o, env, 1);
  }

  /** Request 2 selects the family while its last row is the live one. */
  lemma ReuseSelects(s: State, env: Env, row: Row) returns (steps: seq<Step>)
    requires |s.rows| == 2 && !s.rows[0].Live() && s.rows[1] == row && row.Live() && s.rows[0].family == row.family
    requires s.rows[0].token != row.token
    requires 2 in s.ops && s.ops[2].pc.Selecting? && !s.ops[2].owns
    requires s.ops[2].request == Refresh(s.rows[0].token, None)
    ensures var u := Run(s, steps);
            && u.rows == s.rows && u.now == s.now && u.ttl == s.ttl && 2 in u.ops && u.ops == s.ops[2 := u.ops[2]]
            && u.ops[2].pc == FamilyUpdating(row.family, [row], s.now) && !u.ops[2].owns
  {
    ReadsAsHandler(s, 2, env);
    SoloIsRun(s, 2, env, 2);
    FindSecond(s.rows);
    var selects := seq(2, _ => Go(2, env));
    var rest := FamilySelects(Run(s, selects), env, row);
    RunConcat(s, selects, rest);
    steps := selects + rest;
  }

  lemma FamilySelects(s: State, env: Env, row: Row) returns (steps: seq<Step>)
    requires |s.rows| == 2 && !s.rows[0].Live() && s.rows[1] == row && row.Live()
    requires 2 in s.ops && s.ops[2].pc == FamilySelecting(row.family) && !s.ops[2].owns
    ensures var u := Run(s, steps);
            && u.rows == s.rows && u.now == s.now && u.ttl == s.ttl && 2 in u.ops && u.ops == s.ops[2 := u.ops[2]]
            && u.ops[2].pc == FamilyUpdating(row.family, [row], s.now) && !u.ops[2].owns
  {
    SelectSecond(s.rows, row.family);
    steps := [Go(2, env)];
    RunOf(s, steps, [s, Next(s, Go(2, env))]);
  }

  lemma FindSecond(t: Table)
    requires |t| == 2 && t[0].token != t[1].token
    ensures FindToken(t, t[0].token) == Some(0) && FindToken(t, t[1].token) == Some(1)
  {
    assert t[..1][0] == t[0];
  }

  lemma SelectSecond(t: Table, family: Family)
    requires |t| == 2 && !t[0].Live() && t[1].Live() && t[1].family == family
    ensures SelectLive(t, family) == [t[1]]
  {
    assert t[..1][..0] == [] && t[..1][0] == t[0];
    assert SelectLive(t[..1], family) == [];
  }

  /** Request 2 revokes the family, with a third row its SELECT did not see, and SETs the key of the second. */
  lemma ReuseSweeps(s: State, env: Env, family: Family, row: Row) returns (steps: seq<Step>)
    requires |s.rows| == 3 && s.rows[2].family == family && s.rows[2].Live()
    requires 2 in s.ops && s.ops[2].pc == FamilyUpdating(family, [row], s.now) && !s.ops[2].owns
    ensures var u := Run(s, steps);
            && |u.rows| == 3 && u.rows[2].SameIdentity(s.rows[2]) && !u.rows[2].Live() && u.now == s.now
            && 2 in u.ops && u.ops == s.ops[2 := u.ops[2]] && u.ops[2].pc == Finished(Denied(Reuse)) &&
               u.ops[2].duty == [row]
  {
    steps := [Go(2, env), Go(2, env), Go(2, env)];
    var s1 := Next(s, Go(2, env));
    assert s1.ops[2].pc == FamilyMirroring([row]);
    var s2 := Next(s1, Go(2, env));
    assert s2.ops[2].pc == FamilyMirroring([]);
    var s3 := Next(s2, Go(2, env));
    RunOf(s, steps, [s, s1, s2, s3]);
  }

  /** Three refreshes of a family stand ready: 1 and 2 present its first token, 3 the token of the next row. */
  ghost predicate Ready(s: State, row: Row, next: Token) {
    && s.rows == [row] && row.Live() && row.token != next && s.now < row.expiresAt && s.ttl > 0
    && s.ops.Keys == {0, 1, 2, 3} && s.ops[0].duty == [] && s.ops[0].pc.Finished? && s.ops[0].pc != Finished(Crashed)
    && s.ops[1] == s.ops[2] == Op(Refresh(row.token, None), false, Selecting, 0, 0, [])
    && s.ops[3] == Op(Refresh(next, None), false, Selecting, 0, 0, [])
  }

  /** A revoked, unexpired row whose key no request will ever write. */
  ghost predicate KeyMissing(s: State, i: nat) {
    && AllAnswered(s) && i < |s.rows| && !s.rows[i].Live() && s.now < s.rows[i].expiresAt
    && !H.Mirrored(s.mirror, s.rows[i].token, s.now)
  }

  lemma KeylessRotationRun(s: State, o: OpId, env: Env, id: nat) returns (steps: seq<Step>)
    requires o in s.ops && s.ops[o].pc.Selecting? && !s.ops[o].owns && id < |s.rows|
    requires s.ops[o].request == Refresh(s.rows[id].token, None) && FindToken(s.rows, s.rows[id].token) == Some(id)
    requires s.rows[id].Live() && s.now < s.rows[id].expiresAt && env.userExists && FindToken(s.rows, env.minted).None?
    ensures var u, row := Run(s, steps), s.rows[id];
            && u.rows == UpdateById(s.rows, id, s.now, Rotation)
                 + [Row(row.user, env.minted, row.family, s.now, SecondsFromNow(s.now, s.ttl), None, Some(id))]
            && o in u.ops && u.ops == s.ops[o := u.ops[o]] && u.ops[o].duty == [row]
            && u.ops[o].pc.Finished? && u.ops[o].pc.outcome.Issued? && u.now == s.now && u.ttl == s.ttl
  {
    KeylessRotation(s, o, env, id);
    SoloIsRun(s, o, env, 6);
    steps := seq(6, _ => Go(o, env));
  }

  /** Request 1 has rotated the first row into `second`, which request 2 has just selected with its family. */
  ghost predicate Midway(s: State, row: Row, second: Row) {
    && |s.rows| == 2 && s.rows[0].token == row.token != second.token && s.rows[1] == second && second.Live()
    && second.family == row.family && s.now < second.expiresAt && s.ttl > 0
    && s.ops.Keys == {0, 1, 2, 3} && s.ops[0].duty == [] && s.ops[1].duty == [row]
    && s.ops[0].pc.Finished? && s.ops[0].pc != Finished(Crashed) && s.ops[1].pc.Finished? &&
       s.ops[1].pc != Finished(Crashed)
    && s.ops[2].pc == FamilyUpdating(row.family, [second], s.now) && !s.ops[2].owns
    && s.ops[3] == Op(Refresh(second.token, None), false, Selecting, 0, 0, [])
  }

  lemma RotateThenSelect(s: State, row: Row, next: Token) returns (steps: seq<Step>, second: Row)
    requires Ready(s, row, next)
    ensures Midway(Run(s, steps), row, second) && second.token == next
  {
    var env := Env(next, 0, 0, true, 0);
    assert FindToken(s.rows, row.token) == Some(0);
    var first := KeylessRotationRun(s, 1, env, 0);
    second := Row(row.user, next, row.family, s.now, SecondsFromNow(s.now, s.ttl), None, Some(0));
    var rest := ReuseSelects(Run(s, first), env, second);
    RunConcat(s, first, rest);
    steps := first + rest;
  }

  lemma SlipAndSweep(s: State, row: Row, second: Row, last: Token) returns (steps: seq<Step>)
    requires Midway(s, row, second) && last != row.token && last != second.token
    ensures var u := Run(s, steps);
            && |u.rows| == 3 && u.rows[2].token == last && !u.rows[2].Live() && u.now < u.rows[2].expiresAt
            && u.ops.Keys == {0, 1, 2, 3} && AllAnswered(u)
            && u.ops[0].duty == [] && u.ops[1].duty == [row] && u.ops[2].duty == u.ops[3].duty == [second]
  {
    var env := Env(last, 0, 0, true, 0);
    FindSecond(s.rows);
    assert FindToken(s.rows, last).None?;
    var third := KeylessRotationRun(s, 3, env, 1);
    var slipped := Run(s, third);
    var sweep := ReuseSweeps(slipped, env, row.family, second);
    RunConcat(s, third, sweep);
    steps := third + sweep;
  }

  lemma RotationSlipsBetween(s: State, row: Row, next: Token, last: Token) returns (steps: seq<Step>)
    requires Ready(s, row, next) && last != row.token && last != next
    ensures var u := Run(s, steps);
            && |u.rows| == 3 && u.rows[2].token == last && !u.rows[2].Live() && u.now < u.rows[2].expiresAt &&
               AllAnswered(u)
            && forall o :: !Undertook(u, o, last)
  {
    var first, second := RotateThenSelect(s, row, next);
    var rest := SlipAndSweep(Run(s, first), row, second, last);
    RunConcat(s, first, rest);
    steps := first + rest;
  }

  /** From a fresh start, with every request answered and none crashed, a revoked row can lack its key. */
  lemma KeyCanBeMissing(now: int, ttl: nat) returns (steps: seq<Step>)
    requires ttl > 0
    ensures exists i :: KeyMissing(Run(Start(now, ttl), steps), i)
  {
    var ready, row := MadeReady(now, ttl);
    var rest := RotationSlipsBetween(Run(Start(now, ttl), ready), row, 8, 9);
    RunConcat(Start(now, ttl), ready, rest);
    steps := ready + rest;
    MirrorOnceAnswered(now, ttl, steps, 2);
    assert KeyMissing(Run(Start(now, ttl), steps), 2);
  }

  /** One login, and three refreshes that have begun. */
  lemma MadeReady(now: int, ttl: nat) returns (steps: seq<Step>, row: Row)
    requires ttl > 0
    ensures Ready(Run(Start(now, ttl), steps), row, 8) && row.token == 7
  {
    var login := LoginRun(now, ttl);
    var s := Run(Start(now, ttl), login);
    row := s.rows[0];
    var begins := ThreeBegin(s);
    RunConcat(Start(now, ttl), login, begins);
    steps := login + begins;
  }

  lemma BeginOne(s: State, o: OpId, token: Token) returns (steps: seq<Step>)
    requires o !in s.ops
    ensures var u := Run(s, steps);
            && u.rows == s.rows && u.now == s.now && u.ttl == s.ttl
            && u.ops == s.ops[o := Op(Refresh(token, None), false, Selecting, 0, 0, [])]
  {
    steps := [Begin(o, Refresh(token, None))];
    RunOf(s, steps, [s, Next(s, steps[0])]);
  }

  lemma ThreeBegin(s: State) returns (steps: seq<Step>)
    requires s.ops.Keys == {0}
    ensures var u := Run(s, steps);
            && u.rows == s.rows && u.now == s.now && u.ttl == s.ttl && u.ops.Keys == {0, 1, 2, 3} &&
               u.ops[0] == s.ops[0]
            && u.ops[1] == u.ops[2] == Op(Refresh(7, None), false, Selecting, 0, 0, [])
            && u.ops[3] == Op(Refresh(8, None), false, Selecting, 0, 0, [])
  {
    var first := BeginOne(s, 1, 7);
    var second := BeginOne(Run(s, first), 2, 7);
    RunConcat(s, first, second);
    var third := BeginOne(Run(s, first + second), 3, 8);
    RunConcat(s, first + second, third);
    steps := first + second + third;
  }
}
