/**
 * Whose session it is: in every run, of indivisible handlers and of interleaved requests, the rows
 * of a family belong to the user whose login opened it, and every answer names that user.
 */
module RefreshOwnership {
  import opened Wrappers
  import opened RefreshTokenTable
  import opened RefreshProtocol
  import opened RefreshSafety
  import opened RefreshTheorems
  import H = RefreshHandlers

  // ---------------------------------------------------------------------------
  // Indivisible handlers
  // ---------------------------------------------------------------------------

  /** Some login of this user opened the family. */
  ghost predicate Opened(steps: seq<H.Step>, user: User, family: Family) {
    exists i :: 0 <= i < |steps| && steps[i].LoginStep? && steps[i].user == user && steps[i].family == family
  }

  /** ... and this row was issued for exactly `ttl` seconds. */
  ghost predicate RowOwned(steps: seq<H.Step>, ttl: nat, row: Row) {
    Opened(steps, row.user, row.family) && row.expiresAt == row.issuedAt + ttl * 1000
  }

  ghost predicate AllOwned(s: H.State, ttl: nat, steps: seq<H.Step>) {
    s.ttl == ttl && forall i {:trigger s.store.rows[i]} :: 0 <= i < |s.store.rows| ==>
      RowOwned(steps, ttl, s.store.rows[i])
  }

  lemma OpenedSnoc(steps: seq<H.Step>, step: H.Step, user: User, family: Family)
    requires Opened(steps, user, family) || (step.LoginStep? && step.user == user && step.family == family)
    ensures Opened(steps + [step], user, family)
  {
    var all := steps + [step];
    if i :| 0 <= i < |steps| && steps[i].LoginStep? && steps[i].user == user && steps[i].family == family {
      assert all[i] == steps[i];
    } else {
      assert all[|steps|] == step;
    }
  }

  /** Where each row of the table after a step comes from: an old one, a login, or a row of its family. */
  ghost predicate RowFrom(t: Table, u: Table, ttl: nat, step: H.Step, i: nat)
    requires i < |u|
  {
    || (i < |t| && t[i].SameIdentity(u[i]))
    || (u[i].expiresAt == u[i].issuedAt + ttl * 1000
        && ((step.LoginStep? && u[i].user == step.user && u[i].family == step.family && u[i].token == step.token)
            || exists p :: 0 <= p < |t| && t[p].user == u[i].user && t[p].family == u[i].family))
  }

  lemma RotationRows(s: H.State, token: Token, minted: Token, i: nat)
    requires i < |H.Next(s, H.RotateStep(token, minted)).store.rows|
    ensures RowFrom(s.store.rows, H.Next(s, H.RotateStep(token, minted)).store.rows, s.ttl,
              H.RotateStep(token, minted), i)
  {
    var t, found := s.store.rows, FindToken(s.store.rows, token);
    if found.Some? && t[found.value].Live() && s.now < t[found.value].expiresAt {
      var row := t[found.value];
      var revoked := H.RevokeRow(s.store, s.now, found.value, Rotation);
      var issued := H.Issue(revoked, s.now, s.ttl, row.user, minted, row.family, found);
      assert revoked.rows == UpdateById(t, found.value, s.now, Rotation);
      assert i >= |t| ==> t[found.value].user == row.user && t[found.value].family == row.family;
    }
  }

  lemma StepRows(s: H.State, step: H.Step, i: nat)
    requires i < |H.Next(s, step).store.rows|
    ensures RowFrom(s.store.rows, H.Next(s, step).store.rows, s.ttl, step, i)
  {
    match step
    case Tick(_) =>
    case LoginStep(_, _, _) =>
    case RotateStep(token, minted) => RotationRows(s, token, minted, i);
    case LogoutTokenStep(_) =>
    case LogoutUserStep(_, _) =>
  }

  lemma StepOwned(s: H.State, ttl: nat, steps: seq<H.Step>, step: H.Step)
    requires AllOwned(s, ttl, steps)
    ensures AllOwned(H.Next(s, step), ttl, steps + [step])
  {
    var t, u := s.store.rows, H.Next(s, step).store.rows;
    forall i | 0 <= i < |u|
      ensures RowOwned(steps + [step], ttl, u[i])
    {
      StepRows(s, step, i);
      if i < |t| && t[i].SameIdentity(u[i]) {
        assert RowOwned(steps, ttl, t[i]);
      } else if !(step.LoginStep? && u[i].user == step.user && u[i].family == step.family) {
        var p :| 0 <= p < |t| && t[p].user == u[i].user && t[p].family == u[i].family;
        assert RowOwned(steps, ttl, t[p]);
      }
      OpenedSnoc(steps, step, u[i].user, u[i].family);
    }
  }

  /** In every run every row belongs to the user whose login opened its family, for `ttl` seconds from its issue. */
  lemma {:induction false} EveryRowIsOwned(now: int, ttl: nat, steps: seq<H.Step>)
    ensures AllOwned(H.Run(H.Start(now, ttl), steps), ttl, steps)
  {
    if steps != [] {
      var n := |steps| - 1;
      EveryRowIsOwned(now, ttl, steps[..n]);
      StepOwned(H.Run(H.Start(now, ttl), steps[..n]), ttl, steps[..n], steps[n]);
      assert steps[..n] + [steps[n]] == steps;
    }
  }

  /** A rotation is answered with the token just minted and the user whose login opened the presented token's family. */
  lemma RotationNamesTheUser(now: int, ttl: nat, steps: seq<H.Step>, token: Token, minted: Token, user: User,
                             issued: Token)
    requires H.Answer(H.Run(H.Start(now, ttl), steps), token, minted) == H.Rotated(user, issued)
    ensures var rows := H.Run(H.Start(now, ttl), steps).store.rows;
            && issued == minted
            && exists i :: 0 <= i < |rows| && rows[i].token == token && rows[i].user == user &&
                 Opened(steps, user, rows[i].family)
  {
    var rows := H.Run(H.Start(now, ttl), steps).store.rows;
    EveryRowIsOwned(now, ttl, steps);
    var id := FindToken(rows, token).value;
    assert RowOwned(steps, ttl, rows[id]);
  }

  // ---------------------------------------------------------------------------
  // Interleaved requests
  // ---------------------------------------------------------------------------

  /** The token's row is in the table and belongs to this user. */
  ghost predicate Belongs(s: State, user: User, token: Token) {
    FindToken(s.rows, token).Some? && s.rows[FindToken(s.rows, token).value].user == user
  }

  /** Whatever a request answers, or is about to, names the user its token's row belongs to. */
  ghost predicate NamesRight(s: State, o: OpId)
    requires o in s.ops
  {
    match s.ops[o].pc
    case FindingUser(user, minted) => Belongs(s, user, minted)
    case Completing(pair) => Belongs(s, pair.user, pair.refresh)
    case Finished(Issued(pair)) =>
      Belongs(s, pair.user, pair.refresh) && (s.ops[o].request.Login? ==> pair.user == s.ops[o].request.user)
    case _ => true
  }

  /** The login that opened the family of root row r, answered with the row's token and user. */
  ghost predicate OpenedBy(s: State, r: nat, o: OpId)
    requires r < |s.rows|
  {
    && o in s.ops && s.ops[o].request == Login(s.rows[r].user)
    && s.ops[o].pc.Finished? && s.ops[o].pc.outcome.Issued?
    && s.ops[o].pc.outcome.pair.user == s.rows[r].user && s.ops[o].pc.outcome.pair.refresh == s.rows[r].token
  }

  ghost predicate RootOwned(s: State, r: nat)
    requires r < |s.rows|
  {
    s.rows[r].parent.None? ==> exists o :: OpenedBy(s, r, o)
  }

  ghost predicate Timely(s: State, ttl: nat, r: nat)
    requires r < |s.rows|
  {
    s.rows[r].expiresAt == s.rows[r].issuedAt + ttl * 1000
  }

  ghost predicate OwnInv(s: State, ttl: nat) {
    && s.ttl == ttl
    && (forall o {:trigger NamesRight(s, o)} :: o in s.ops ==> NamesRight(s, o))
    && (forall r {:trigger RootOwned(s, r)} :: 0 <= r < |s.rows| ==> RootOwned(s, r))
    && (forall r {:trigger Timely(s, ttl, r)} :: 0 <= r < |s.rows| ==> Timely(s, ttl, r))
  }

  lemma LaterBelongs(s: State, u: State, user: User, token: Token)
    requires Later(s, u) && Forest(u.rows) && Belongs(s, user, token)
    ensures Belongs(u, user, token)
  {
    LaterFinds(s.rows, u.rows, token);
    assert RowKept(s.rows, u.rows, FindToken(s.rows, token).value);
  }

  lemma LaterNames(s: State, u: State, o: OpId)
    requires Later(s, u) && Forest(u.rows) && o in s.ops && o in u.ops && u.ops[o] == s.ops[o] && NamesRight(s, o)
    ensures NamesRight(u, o)
  {
    match s.ops[o].pc
    case FindingUser(user, minted) => LaterBelongs(s, u, user, minted);
    case Completing(pair) => LaterBelongs(s, u, pair.user, pair.refresh);
    case Finished(Issued(pair)) => LaterBelongs(s, u, pair.user, pair.refresh);
    case _ =>
  }

  lemma LaterRoot(s: State, u: State, r: nat)
    requires Later(s, u) && r < |s.rows| <= |u.rows| && RootOwned(s, r)
    ensures RootOwned(u, r)
  {
    assert RowKept(s.rows, u.rows, r);
    if s.rows[r].parent.None? {
      var o :| OpenedBy(s, r, o);
      assert OpKept(s, u, o);
      assert OpenedBy(u, r, o);
    }
  }

  /** The row a step appends, if any: a login's own, or a child of its parent's user; issued for `ttl` seconds. */
  ghost predicate AppendsRight(s: State, u: State, o: OpId) {
    && |s.rows| <= |u.rows| <= |s.rows| + 1 && u.ttl == s.ttl
    && (|u.rows| > |s.rows| ==>
          var row := u.rows[|s.rows|];
          row.expiresAt == row.issuedAt + s.ttl * 1000 && (row.parent.None? ==> OpenedBy(u, |s.rows|, o)))
  }

  lemma RootAppends(s: State, o: OpId, env: Env)
    requires Inv(s) && o in s.ops && s.ops[o].pc.LoginInserting? && s.ops[o].request.Login?
    ensures var u := Next(s, Go(o, env)); o in u.ops && AppendsRight(s, u, o) && NamesRight(u, o)
  {
    var u := Next(s, Go(o, env));
    NextKeeps(s, Go(o, env));
    assert Advance(s, o, env) == InsertRoot(s, o, env);
    if |u.rows| > |s.rows| {
      assert u.rows[|s.rows|].token == env.minted;
      H.FindsRow(u.rows, |s.rows|);
    }
  }

  lemma ChildAppends(s: State, o: OpId, env: Env)
    requires Inv(s) && o in s.ops && s.ops[o].pc.Inserting?
    ensures var u := Next(s, Go(o, env)); o in u.ops && AppendsRight(s, u, o) && NamesRight(u, o)
  {
    var u := Next(s, Go(o, env));
    NextKeeps(s, Go(o, env));
    assert Advance(s, o, env) == InsertChild(s, o, s.ops[o].pc.id, s.ops[o].pc.row, env.minted);
    if |u.rows| > |s.rows| {
      assert u.rows[|s.rows|].token == env.minted && u.rows[|s.rows|].user == s.ops[o].pc.row.user;
      H.FindsRow(u.rows, |s.rows|);
    }
  }

  lemma AnswerNames(s: State, o: OpId, env: Env)
    requires Inv(s) && o in s.ops && NamesRight(s, o)
    requires var pc := s.ops[o].pc; pc.FindingUser? || pc.Completing? || pc.Releasing? || pc.Finished?
    ensures var u := Next(s, Go(o, env)); o in u.ops && AppendsRight(s, u, o) && NamesRight(u, o)
  {
    assert OpOk(s, o);
    match s.ops[o].pc
    case FindingUser(user, minted) => assert Advance(s, o, env) == FindUser(s, o, user, minted, env);
    case Completing(_) =>
    case Releasing(_) =>
    case Finished(_) =>
  }

  lemma ReadNames(s: State, o: OpId, env: Env)
    requires Inv(s) && o in s.ops
    requires var pc := s.ops[o].pc; pc.Selecting? || pc.Checking? || pc.FamilySelecting?
    ensures var u := Next(s, Go(o, env)); o in u.ops && AppendsRight(s, u, o) && NamesRight(u, o)
  {
    match s.ops[o].pc
    case Selecting =>
    case Checking(_) =>
    case FamilySelecting(family) => assert Advance(s, o, env) == FamilySelect(s, o, family);
  }

  lemma ClaimNames(s: State, o: OpId, env: Env)
    requires Inv(s) && o in s.ops && (s.ops[o].pc.Claiming? || s.ops[o].pc.Polling?)
    ensures var u := Next(s, Go(o, env)); o in u.ops && AppendsRight(s, u, o) && NamesRight(u, o)
  {
    match s.ops[o].pc
    case Claiming =>
    case Polling(_) =>
  }

  lemma WriteNames(s: State, o: OpId, env: Env)
    requires Inv(s) && o in s.ops
    requires var pc := s.ops[o].pc; pc.FamilyUpdating? || pc.FamilyMirroring? || pc.Updating? || pc.Mirroring?
    ensures var u := Next(s, Go(o, env)); o in u.ops && AppendsRight(s, u, o) && NamesRight(u, o)
  {
    match s.ops[o].pc
    case FamilyUpdating(family, active, at) => assert Advance(s, o, env) == FamilyUpdate(s, o, family, active, at);
    case FamilyMirroring(rest) => assert Advance(s, o, env) == FamilyMirror(s, o, rest);
    case Updating(id, row, at) => assert Advance(s, o, env) == Update(s, o, id, row, at);
    case Mirroring(id, row) => assert Advance(s, o, env) == Mirror(s, o, id, row);
  }

  lemma OwnStepNames(s: State, o: OpId, env: Env)
    requires Inv(s) && o in s.ops && NamesRight(s, o)
    ensures var u := Next(s, Go(o, env)); o in u.ops && AppendsRight(s, u, o) && NamesRight(u, o)
  {
    var pc := s.ops[o].pc;
    if pc.LoginInserting? {
      if s.ops[o].request.Login? {
        RootAppends(s, o, env);
      }
    } else if pc.Inserting? {
      ChildAppends(s, o, env);
    } else if pc.FamilyUpdating? || pc.FamilyMirroring? || pc.Updating? || pc.Mirroring? {
      WriteNames(s, o, env);
    } else if pc.FindingUser? || pc.Completing? || pc.Releasing? || pc.Finished? {
      AnswerNames(s, o, env);
    } else if pc.Claiming? || pc.Polling? {
      ClaimNames(s, o, env);
    } else {
      ReadNames(s, o, env);
    }
  }

  /** A step that is none of a request's own appends nothing, and what requests say stays right. */
  lemma OutsideStep(s: State, step: Step, q: OpId)
    requires Inv(s) && !(step.Go? && step.op in s.ops) && q in Next(s, step).ops
    requires q in s.ops ==> NamesRight(s, q)
    ensures var u := Next(s, step); u.rows == s.rows && u.ttl == s.ttl && NamesRight(u, q)
  {
  }

  lemma OthersName(s: State, o: OpId, env: Env, q: OpId)
    requires Inv(s) && o in s.ops && q in Next(s, Go(o, env)).ops && q != o && (q in s.ops ==> NamesRight(s, q))
    ensures NamesRight(Next(s, Go(o, env)), q)
  {
    NextKeeps(s, Go(o, env));
    AdvanceMovesOne(s, o, env, q);
    LaterNames(s, Next(s, Go(o, env)), q);
  }

  lemma RowsOwned(s: State, u: State, ttl: nat, o: OpId, r: nat)
    requires OwnInv(s, ttl) && Later(s, u) && AppendsRight(s, u, o) && r < |u.rows|
    ensures RootOwned(u, r) && Timely(u, ttl, r)
  {
    if r < |s.rows| {
      assert RootOwned(s, r) && Timely(s, ttl, r) && RowKept(s.rows, u.rows, r);
      LaterRoot(s, u, r);
    }
  }

  lemma NextOwned(s: State, step: Step, ttl: nat)
    requires Inv(s) && OwnInv(s, ttl)
    ensures OwnInv(Next(s, step), ttl)
  {
    var u := Next(s, step);
    NextKeeps(s, step);
    var o := if step.Go? && step.op in s.ops then step.op else 0;
    if step.Go? && step.op in s.ops {
      assert NamesRight(s, o);
      OwnStepNames(s, o, step.env);
    }
    forall q | q in u.ops
      ensures NamesRight(u, q)
    {
      assert q in s.ops ==> NamesRight(s, q);
      if !(step.Go? && step.op in s.ops) {
        OutsideStep(s, step, q);
      } else if q != o {
        OthersName(s, o, step.env, q);
      }
    }
    if !(step.Go? && step.op in s.ops) {
      OutsideRows(s, step);
    }
    forall r | 0 <= r < |u.rows|
      ensures RootOwned(u, r) && Timely(u, ttl, r)
    {
      RowsOwned(s, u, ttl, o, r);
    }
  }

  lemma OutsideRows(s: State, step: Step)
    requires !(step.Go? && step.op in s.ops)
    ensures Next(s, step).rows == s.rows && Next(s, step).ttl == s.ttl
  {
  }

  lemma {:induction false} RunOwned(now: int, ttl: nat, steps: seq<Step>)
    ensures Inv(Run(Start(now, ttl), steps)) && OwnInv(Run(Start(now, ttl), steps), ttl)
  {
    StartIsSafe(now, ttl);
    RunKeeps(Start(now, ttl), steps);
    if steps != [] {
      var n := |steps| - 1;
      RunOwned(now, ttl, steps[..n]);
      NextOwned(Run(Start(now, ttl), steps[..n]), steps[n], ttl);
    }
  }

  /** Row i is of the family that request o, a login of this user, opened. */
  ghost predicate OfLogin(s: State, i: nat, o: OpId, user: User)
    requires Forest(s.rows) && i < |s.rows|
  {
    && s.rows[i].user == user && o in s.ops && s.ops[o].request == Login(user)
    && OpenedBy(s, Root(s.rows, i), o)
  }

  /**
   * Under every interleaving: each row belongs to the user whose login opened its family, and that
   * login was answered with the family's first token; and each row lives `ttl` seconds from its issue.
   */
  lemma RowsAreOfTheirLogin(now: int, ttl: nat, steps: seq<Step>, i: nat)
    requires i < |Run(Start(now, ttl), steps).rows|
    ensures var s := Run(Start(now, ttl), steps);
            && Forest(s.rows) && s.rows[i].expiresAt == s.rows[i].issuedAt + ttl * 1000
            && exists o :: OfLogin(s, i, o, s.rows[i].user)
  {
    RunOwned(now, ttl, steps);
    var s := Run(Start(now, ttl), steps);
    var r := Root(s.rows, i);
    assert RootOwned(s, r) && Timely(s, ttl, i);
    var o :| OpenedBy(s, r, o);
    assert OfLogin(s, i, o, s.rows[i].user);
  }

  /** The row of a token some answer hands out, and the login behind it. */
  ghost predicate HandsOut(s: State, pair: Pair, i: nat, o: OpId)
    requires Forest(s.rows)
  {
    i < |s.rows| && s.rows[i].token == pair.refresh && OfLogin(s, i, o, pair.user)
  }

  /**
   * Under every interleaving, whoever is answered with a pair, by login, rotation or from the cache:
   * the pair names the user who logged in when the family of its refresh token was opened.
   */
  lemma AnswersNameTheUser(now: int, ttl: nat, steps: seq<Step>, q: OpId, pair: Pair)
    requires var s := Run(Start(now, ttl), steps);
             q in s.ops && (s.ops[q].pc == Finished(Issued(pair)) || s.ops[q].pc == Finished(Replayed(pair)))
    ensures var s := Run(Start(now, ttl), steps);
            && Forest(s.rows) && (exists i: nat, o: OpId :: HandsOut(s, pair, i, o))
            && (s.ops[q].request.Login? ==> pair.user == s.ops[q].request.user)
  {
    RunOwned(now, ttl, steps);
    var s := Run(Start(now, ttl), steps);
    assert OpOk(s, q) && NamesRight(s, q);
    if s.ops[q].pc == Finished(Replayed(pair)) {
      PairFromCache(s, q, pair);
    }
    assert Belongs(s, pair.user, pair.refresh);
    var i := FindToken(s.rows, pair.refresh).value;
    RowsAreOfTheirLogin(now, ttl, steps, i);
    var o :| OfLogin(s, i, o, s.rows[i].user);
    assert HandsOut(s, pair, i, o);
  }

  lemma PairFromCache(s: State, q: OpId, pair: Pair)
    requires Inv(s) && q in s.ops && s.ops[q].pc == Finished(Replayed(pair))
    requires forall o {:trigger NamesRight(s, o)} :: o in s.ops ==> NamesRight(s, o)
    ensures Belongs(s, pair.user, pair.refresh) && !s.ops[q].request.Login?
  {
    assert OpOk(s, q);
    var cached := Cached(pair, s.ops[q].request.token);
    var o :| o in s.ops && s.ops[o].request == Refresh(cached.presented, Some(KeyOf(s.ops[q])))
      && s.ops[o].pc == Finished(Issued(cached.pair)) && BornOf(s, o, cached.pair.refresh);
    assert NamesRight(s, o);
  }
}
