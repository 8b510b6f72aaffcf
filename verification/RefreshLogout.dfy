/** Exactly when a logout ends its session while other requests interleave. */
module RefreshLogout {
  import opened Wrappers
  import opened RefreshTokenTable
  import opened RefreshProtocol
  import opened RefreshSafety
  import opened RefreshTheorems
  import opened RefreshMoments
  import opened RefreshRaces
  import H = RefreshHandlers

  /** Step m is the UPDATE of a logout, with a token or without, of row `id`. */
  ghost predicate LogsOutAt(now: int, ttl: nat, steps: seq<Step>, m: nat, id: nat) {
    && m < |steps| && steps[m].Go?
    && var s, o := Moment(now, ttl, steps, m), steps[m].op;
       && o in s.ops && (s.ops[o].request.LogoutToken? || s.ops[o].request.LogoutUser?)
       && s.ops[o].pc.Updating? && s.ops[o].pc.id == id
  }

  lemma LogoutUpdates(now: int, ttl: nat, steps: seq<Step>, m: nat, id: nat)
    requires LogsOutAt(now, ttl, steps, m, id)
    ensures var t, u := Moment(now, ttl, steps, m).rows, Moment(now, ttl, steps, m + 1).rows;
            && id < |t| == |u| && !u[id].Live() && u[id].family == t[id].family
            && forall i :: 0 <= i < |t| && i != id ==> u[i] == t[i]
    ensures var s := Moment(now, ttl, steps, m);
            var request := s.ops[steps[m].op].request;
            request.LogoutToken? ==> FindToken(s.rows, request.token) == Some(id)
  {
    var s, o := Moment(now, ttl, steps, m), steps[m].op;
    EveryMoment(now, ttl, steps, m);
    MomentNext(now, ttl, steps, m);
    assert OpOk(s, o);
    var op := s.ops[o];
    assert Advance(s, o, steps[m].env) == Update(s, o, op.pc.id, op.pc.row, op.pc.at);
    H.FindsRow(s.rows, id);
  }

  /** Another row of the family was live when the logout wrote. */
  ghost predicate OtherLive(now: int, ttl: nat, steps: seq<Step>, m: nat, family: Family, id: nat)
    requires m <= |steps|
  {
    exists i: nat :: i != id && LiveIn(Moment(now, ttl, steps, m).rows, family, i)
  }

  lemma LogoutKills(now: int, ttl: nat, steps: seq<Step>, m: nat, id: nat, family: Family)
    requires LogsOutAt(now, ttl, steps, m, id)
    requires id < |Moment(now, ttl, steps, m).rows| && family == Moment(now, ttl, steps, m).rows[id].family
    ensures Dead(Moment(now, ttl, steps, m + 1).rows, family) <==> !OtherLive(now, ttl, steps, m, family, id)
    ensures Dead(Moment(now, ttl, steps, m + 1).rows, family) ==> Over(Moment(now, ttl, steps, m + 1).rows, family)
  {
    LogoutUpdates(now, ttl, steps, m, id);
    var t, u := Moment(now, ttl, steps, m).rows, Moment(now, ttl, steps, m + 1).rows;
    if i: nat :| i != id && LiveIn(t, family, i) {
      assert u[i] == t[i];
    }
    if !Dead(u, family) {
      var i := SomeLive(u, family);
      assert i != id && LiveIn(t, family, i);
    }
  }

  /**
   * A logout ends the session of the row it revokes from its UPDATE on, at every later moment, if
   * and only if no other row of the family was live then, and no refresh request that had read one
   * of its tokens live before that UPDATE inserts its new row after it.
   */
  lemma LogoutEndsTheSession(now: int, ttl: nat, steps: seq<Step>, m: nat, id: nat)
    requires LogsOutAt(now, ttl, steps, m, id)
    ensures var s := Moment(now, ttl, steps, m);
            var request := s.ops[steps[m].op].request;
            id < |s.rows| && (request.LogoutToken? ==> FindToken(s.rows, request.token) == Some(id))
    ensures var family := Moment(now, ttl, steps, m).rows[id].family;
            Revives(now, ttl, steps, m, family) <==>
              OtherLive(now, ttl, steps, m, family, id) || HasStraggler(now, ttl, steps, m, family)
  {
    LogoutUpdates(now, ttl, steps, m, id);
    var family := Moment(now, ttl, steps, m).rows[id].family;
    LogoutKills(now, ttl, steps, m, id, family);
    if OtherLive(now, ttl, steps, m, family, id) {
      assert AliveAt(now, ttl, steps, family, m + 1);
    } else {
      OverFamilyRevives(now, ttl, steps, m, family);
    }
  }

  // ---------------------------------------------------------------------------
  // A logout during a rotation
  // ---------------------------------------------------------------------------

  lemma BothBegin(s: State, row: Row) returns (steps: seq<Step>)
    requires s.rows == [row] && s.ops.Keys == {0}
    ensures var u := Run(s, steps);
            && u.rows == s.rows && u.now == s.now && 1 in u.ops && 2 in u.ops
            && u.ops[1] == Op(Refresh(row.token, None), false, Selecting, 0, 0, [])
            && u.ops[2] == Op(LogoutToken(row.token), false, Selecting, 0, 0, [])
  {
    steps := [Begin(1, Refresh(row.token, None)), Begin(2, LogoutToken(row.token))];
    RunOf(s, steps, [s, Next(s, steps[0]), Next(Next(s, steps[0]), steps[1])]);
  }

  /** A refresh request has read the one row live, and a logout of its token has begun. */
  lemma RefreshThenLogout(s: State, row: Row, env: Env) returns (steps: seq<Step>, at: int)
    requires s.rows == [row] && row.Live() && s.now < row.expiresAt && s.ops.Keys == {0}
    ensures var u := Run(s, steps);
            && u.rows == s.rows && u.now == s.now && 1 in u.ops && 2 in u.ops
            && u.ops[1].request == Refresh(row.token, None) && u.ops[1].pc == Updating(0, row, at)
            && u.ops[2] == Op(LogoutToken(row.token), false, Selecting, 0, 0, [])
  {
    at := s.now;
    var begins := BothBegin(s, row);
    var begun := Run(s, begins);
    assert FindToken(begun.rows, row.token) == Some(0);
    ReadsAsHandler(begun, 1, env);
    SoloIsRun(begun, 1, env, 2);
    var selects := seq(2, _ => Go(1, env));
    RunConcat(s, begins, selects);
    steps := begins + selects;
  }

  lemma LogoutReads(s: State, o: OpId, row: Row, env: Env)
    requires s.rows == [row] && row.Live() && o in s.ops
    requires s.ops[o] == Op(LogoutToken(row.token), false, Selecting, 0, 0, [])
    ensures var u := Next(Next(s, Go(o, env)), Go(o, env));
            && u.rows == s.rows && o in u.ops && u.ops == s.ops[o := u.ops[o]]
            && u.ops[o].request == LogoutToken(row.token) && u.ops[o].pc == Updating(0, row, s.now)
  {
    assert FindToken(s.rows, row.token) == Some(0);
    var u := Next(s, Go(o, env));
    assert u.ops[o].pc == Checking(Some((0, row)));
  }

  lemma LogoutWrites(s: State, o: OpId, row: Row, at: int, env: Env)
    requires s.rows == [row] && o in s.ops
    requires s.ops[o].request == LogoutToken(row.token) && s.ops[o].pc == Updating(0, row, at)
    ensures var u := Next(Next(s, Go(o, env)), Go(o, env));
            && u.rows == [row.Revoke(at, Logout)] && o in u.ops && u.ops == s.ops[o := u.ops[o]]
            && u.ops[o].request == LogoutToken(row.token) && u.ops[o].pc == Finished(LoggedOut)
  {
    var u := Next(s, Go(o, env));
    assert u.ops[o].pc == Mirroring(0, row) && u.rows == [row.Revoke(at, Logout)];
  }

  /** The logout runs alone, from its SELECT to its answer. */
  lemma LogoutAlone(s: State, o: OpId, row: Row, env: Env) returns (steps: seq<Step>)
    requires s.rows == [row] && row.Live() && o in s.ops
    requires s.ops[o] == Op(LogoutToken(row.token), false, Selecting, 0, 0, [])
    ensures var u := Run(s, steps);
            && u.rows == [row.Revoke(s.now, Logout)] && o in u.ops && u.ops == s.ops[o := u.ops[o]]
            && u.ops[o].request == LogoutToken(row.token) && u.ops[o].pc == Finished(LoggedOut)
  {
    var go := Go(o, env);
    var s1 := Next(s, go);
    var s2 := Next(s1, go);
    LogoutReads(s, o, row, env);
    LogoutWrites(s2, o, row, s.now, env);
    steps := [go, go, go, go];
    RunOf(s, steps, [s, s1, s2, Next(s2, go), Next(Next(s2, go), go)]);
  }

  lemma RotationAfterLogout(s: State, row: Row, at: int, env: Env) returns (steps: seq<Step>)
    requires |s.rows| == 1 && s.rows[0].SameIdentity(row) && !s.rows[0].Live() && row.token != env.minted &&
             1 in s.ops && 2 in s.ops
    requires s.ops[1].request == Refresh(row.token, None) && s.ops[1].pc == Updating(0, row, at)
    ensures var u := Run(s, steps);
            && 2 in u.ops && u.ops[2] == s.ops[2] && |u.rows| == 2 && LiveIn(u.rows, row.family, 1)
            && u.rows[0].SameIdentity(row) && !u.rows[0].Live()
  {
    assert Points(s.rows, 0, row) && FindToken(s.rows, env.minted).None?;
    RotationGoesThrough(s, 1, env, 0, row, at);
    SoloIsRun(s, 1, env, 3);
    steps := seq(3, _ => Go(1, env));
  }

  ghost predicate LoggedOutOf(s: State, o: OpId, token: Token) {
    o in s.ops && s.ops[o].request == LogoutToken(token) && s.ops[o].pc == Finished(LoggedOut)
  }

  /**
   * From a fresh start: a login, and its token refreshed and logged out at the same time. The logout
   * is answered, having revoked the token, and the session lives on under the refreshed one.
   */
  lemma LogoutCanLeaveALiveRow(now: int, ttl: nat) returns (steps: seq<Step>)
    requires ttl > 0
    ensures var s := Run(Start(now, ttl), steps);
            && s.rows != [] && !s.rows[0].Live() && !Dead(s.rows, s.rows[0].family)
            && exists o :: LoggedOutOf(s, o, s.rows[0].token)
  {
    var env := Env(8, 0, 0, true, 0);
    var login := LoginRun(now, ttl);
    var s := Run(Start(now, ttl), login);
    var row := s.rows[0];
    var read, at := RefreshThenLogout(s, row, env);
    var logout := LogoutAlone(Run(s, read), 2, row, env);
    RunConcat(s, read, logout);
    var rest := RotationAfterLogout(Run(s, read + logout), row, at, env);
    RunConcat(s, read + logout, rest);
    RunConcat(Start(now, ttl), login, read + logout + rest);
    steps := login + (read + logout + rest);
    assert LoggedOutOf(Run(Start(now, ttl), steps), 2, row.token);
  }
}
