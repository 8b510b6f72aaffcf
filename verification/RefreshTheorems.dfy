/** Theorems about every run of the refresh-token protocol, and its relation to atomic handlers. */
module RefreshTheorems {
  import opened Wrappers
  import opened Time
  import opened RefreshTokenTable
  import opened RefreshProtocol
  import opened RefreshSafety
  import H = RefreshHandlers

  lemma StartIsSafe(now: int, ttl: nat)
    ensures Inv(Start(now, ttl))
  {
    var s := Start(now, ttl);
    assert forall c, d :: OneBirth(s, c, d);
  }

  // ---------------------------------------------------------------------------
  // Lineage
  // ---------------------------------------------------------------------------

  /**
   * In every state of every run a family's rows form one tree, a live row is a leaf of it, and
   * whatever is revoked is revoked in every later state.
   */
  lemma LineageForest(now: int, ttl: nat, steps: seq<Step>, more: seq<Step>)
    ensures var s := Run(Start(now, ttl), steps);
            var later := Run(s, more);
            && Forest(s.rows)
            && (forall i, j :: 0 <= i < |s.rows| && 0 <= j < |s.rows| && s.rows[i].family == s.rows[j].family ==>
                  Root(s.rows, i) == Root(s.rows, j) && s.rows[i].user == s.rows[j].user)
            && (forall i, j :: 0 <= i < |s.rows| && 0 <= j < |s.rows| && s.rows[i].parent == Some(j) ==>
                 !s.rows[j].Live())
            && |s.rows| <= |later.rows|
            && (forall i :: 0 <= i < |s.rows| ==>
                  s.rows[i].SameIdentity(later.rows[i]) && (!s.rows[i].Live() ==> !later.rows[i].Live()))
  {
    var s := Run(Start(now, ttl), steps);
    StartIsSafe(now, ttl);
    RunKeeps(Start(now, ttl), steps);
    RunKeeps(s, more);
    forall i, j | 0 <= i < |s.rows| && 0 <= j < |s.rows| && s.rows[i].family == s.rows[j].family
      ensures Root(s.rows, i) == Root(s.rows, j) && s.rows[i].user == s.rows[j].user
    {
      FamilyIsOneTree(s.rows, i, j);
    }
    forall i, j | 0 <= i < |s.rows| && 0 <= j < |s.rows| && s.rows[i].parent == Some(j)
      ensures !s.rows[j].Live()
    {
      assert Placed(s.rows, i);
    }
    forall i | 0 <= i < |s.rows|
      ensures s.rows[i].SameIdentity(Run(s, more).rows[i]) && (!s.rows[i].Live() ==> !Run(s, more).rows[i].Live())
    {
      assert RowKept(s.rows, Run(s, more).rows, i);
    }
  }

  // ---------------------------------------------------------------------------
  // The idempotency cache
  // ---------------------------------------------------------------------------

  /** Row `c` was inserted by request `q`, which rotated a presented token into a given one. */
  ghost predicate RotationBy(s: State, q: OpId, presented: Token, c: nat, refreshed: Token) {
    && c in s.births && s.births[c] == q
    && c < |s.rows| && s.rows[c].token == refreshed
    && s.rows[c].parent.Some? && s.rows[c].parent.value < c && s.rows[s.rows[c].parent.value].token == presented
  }

  /**
   * Whatever lapses or overwrites, a pair answered from the cache to a request with token h and
   * key k is the pair some request with the same h and k was answered after it rotated h.
   */
  lemma CachedPairProvenance(now: int, ttl: nat, steps: seq<Step>, o: OpId, pair: Pair)
    requires var s := Run(Start(now, ttl), steps); o in s.ops && s.ops[o].pc == Finished(Replayed(pair))
    ensures var s := Run(Start(now, ttl), steps);
            && Keyed(s.ops[o])
            && exists q, c ::
                 q in s.ops && s.ops[q].request == s.ops[o].request && s.ops[q].pc == Finished(Issued(pair))
                 && RotationBy(s, q, s.ops[o].request.token, c, pair.refresh)
  {
    var s := Run(Start(now, ttl), steps);
    StartIsSafe(now, ttl);
    RunKeeps(Start(now, ttl), steps);
    assert OpOk(s, o);
    var k := KeyOf(s.ops[o]);
    var presented := s.ops[o].request.token;
    assert Provenance(s, k, Cached(pair, presented));
    var q :| q in s.ops && s.ops[q].request == Refresh(presented, Some(k)) && s.ops[q].pc == Finished(Issued(pair))
      && BornOf(s, q, pair.refresh);
    var c := FindToken(s.rows, pair.refresh).value;
    assert BirthOk(s, c) && Placed(s.rows, c);
    assert RotationBy(s, q, presented, c, pair.refresh);
  }

  // ---------------------------------------------------------------------------
  // Two live rows
  // ---------------------------------------------------------------------------

  /** Both requests read row p live before either of them revoked it. */
  ghost predicate Overlap(s: State, a: OpId, b: OpId, p: nat) {
    && a != b && a in s.ops && b in s.ops && p < |s.rows|
    && s.ops[a].request.Refresh? && s.ops[a].request.token == s.rows[p].token
    && s.ops[b].request.Refresh? && s.ops[b].request.token == s.rows[p].token
    && s.ops[a].readAt < s.ops[b].wroteAt && s.ops[b].readAt < s.ops[a].wroteAt
  }

  /** A family has two live rows only if two rotations of one of its tokens overlapped. */
  lemma TwoLiveNeedOverlap(now: int, ttl: nat, steps: seq<Step>, family: Family)
    requires !AtMostOneLive(Run(Start(now, ttl), steps).rows, family)
    ensures var s := Run(Start(now, ttl), steps);
            exists a: OpId, b: OpId, p: nat :: Overlap(s, a, b, p) && s.rows[p].family == family
  {
    var s := Run(Start(now, ttl), steps);
    StartIsSafe(now, ttl);
    RunKeeps(Start(now, ttl), steps);
    var i, j :| 0 <= i < j < |s.rows| && s.rows[i].family == s.rows[j].family == family && s.rows[i].Live() &&
      s.rows[j].Live();
    var p, c, d := TwoLiveNeedFork(s.rows, i, j);
    assert c in s.births && d in s.births;
    assert BirthOk(s, c) && BirthOk(s, d) && OneBirth(s, c, d);
    assert Overlap(s, s.births[c], s.births[d], p);
  }

  /** Request `o` alone takes its next `n` steps. */
  function Solo(s: State, o: OpId, env: Env, n: nat): State
    decreases n
  {
    if n == 0 then s else Solo(Next(s, Go(o, env)), o, env, n - 1)
  }

  lemma {:induction false} RunPrepend(s: State, step: Step, steps: seq<Step>)
    ensures Run(s, [step] + steps) == Run(Next(s, step), steps)
  {
    var all := [step] + steps;
    if steps == [] {
      assert all[..0] == [] && all[0] == step;
    } else {
      var n := |steps| - 1;
      RunPrepend(s, step, steps[..n]);
      assert all[..n + 1] == [step] + steps[..n] && all[n + 1] == steps[n];
    }
  }

  /** Solo runs are runs. */
  lemma {:induction false} SoloIsRun(s: State, o: OpId, env: Env, n: nat)
    ensures Solo(s, o, env, n) == Run(s, seq(n, _ => Go(o, env)))
    decreases n
  {
    if n > 0 {
      SoloIsRun(Next(s, Go(o, env)), o, env, n - 1);
      RunPrepend(s, Go(o, env), seq(n - 1, _ => Go(o, env)));
      assert [Go(o, env)] + seq(n - 1, _ => Go(o, env)) == seq(n, _ => Go(o, env));
    }
  }

  /** A refresh request whose UPDATE is due takes the row's rotation through, however late it is. */
  lemma RotationGoesThrough(s: State, o: OpId, env: Env, id: nat, row: Row, at: int)
    requires o in s.ops && s.ops[o].pc == Updating(id, row, at) && s.ops[o].request.Refresh?
    requires Points(s.rows, id, row) && FindToken(s.rows, env.minted).None?
    ensures var u := Solo(s, o, env, 3);
            && u.rows == UpdateById(s.rows, id, at, Rotation)
                 + [Row(row.user, env.minted, row.family, s.now, SecondsFromNow(s.now, s.ttl), None, Some(id))]
            && u.mirror == H.MirrorRevocation(s.mirror, row.token, row.expiresAt, s.now)
            && o in u.ops && u.ops == s.ops[o := u.ops[o]] && u.ops[o].pc == FindingUser(row.user, env.minted)
            && u.ops[o].request == s.ops[o].request && u.ops[o].owns == s.ops[o].owns
            && u.now == s.now && u.ttl == s.ttl && u.slots == s.slots
  {
    var s1 := Next(s, Go(o, env));
    assert s1.rows == UpdateById(s.rows, id, at, Rotation) && s1.ops[o].pc == Mirroring(id, row);
    var s2 := Next(s1, Go(o, env));
    assert s2.rows == s1.rows && s2.ops[o].pc == Inserting(id, row);
    FindSameTokens(s.rows, s1.rows, env.minted);
    var s3 := Next(s2, Go(o, env));
    assert Solo(s2, o, env, 1) == s3;
    assert Solo(s1, o, env, 2) == s3;
  }

  lemma FindSameTokens(t: Table, u: Table, token: Token)
    requires |t| == |u| && forall i :: 0 <= i < |t| ==> t[i].token == u[i].token
    ensures FindToken(t, token).None? ==> FindToken(u, token).None?
  {
  }

  /**
   * The rotation UPDATE is guarded by the id alone: two requests that both read the row live both
   * rotate it, and the family ends up with two live rows.
   */
  lemma OverlapMakesTwoLive(s: State, a: OpId, b: OpId, id: nat, row: Row, atA: int, atB: int, envA: Env, envB: Env)
    requires a != b && a in s.ops && b in s.ops && s.ops[a].request.Refresh? && s.ops[b].request.Refresh?
    requires s.ops[a].pc == Updating(id, row, atA) && s.ops[b].pc == Updating(id, row, atB) && Points(s.rows, id, row)
    requires FindToken(s.rows, envA.minted).None? && FindToken(s.rows, envB.minted).None? && envA.minted != envB.minted
    ensures var u := Solo(Solo(s, a, envA, 3), b, envB, 3);
            a in u.ops && b in u.ops && !AtMostOneLive(u.rows, row.family)
            && u.ops[a].pc == FindingUser(row.user, envA.minted) && u.ops[b].pc == FindingUser(row.user, envB.minted)
  {
    RotationGoesThrough(s, a, envA, id, row, atA);
    var s1 := Solo(s, a, envA, 3);
    assert forall i :: 0 <= i < |s1.rows| ==> s1.rows[i].token != envB.minted;
    RotationGoesThrough(s1, b, envB, id, row, atB);
    var u := Solo(s1, b, envB, 3);
    var n := |s.rows|;
    assert u.rows[n].Live() && u.rows[n + 1].Live() && u.rows[n].family == u.rows[n + 1].family == row.family;
  }

  /** Two requests present the same live token and stop just before their UPDATE. */
  lemma BothReadLive(s: State, row: Row, env: Env) returns (steps: seq<Step>, at: int)
    requires s.rows == [row] && row.Live() && s.now < row.expiresAt && s.ops.Keys == {0}
    ensures var u := Run(s, steps);
            && u.rows == s.rows && 1 in u.ops && 2 in u.ops
            && u.ops[1].request == u.ops[2].request == Refresh(row.token, None)
            && u.ops[1].pc == u.ops[2].pc == Updating(0, row, at)
  {
    var request := Refresh(row.token, None);
    var begins := [Begin(1, request), Begin(2, request)];
    at := s.now;
    RunOf(s, begins, [s, Next(s, begins[0]), Next(Next(s, begins[0]), begins[1])]);
    var begun := Run(s, begins);
    assert FindToken(begun.rows, row.token) == Some(0);
    ReadsAsHandler(begun, 1, env);
    var first := Solo(begun, 1, env, 2);
    ReadsAsHandler(first, 2, env);
    SoloIsRun(begun, 1, env, 2);
    SoloIsRun(first, 2, env, 2);
    var read1, read2 := seq(2, _ => Go(1, env)), seq(2, _ => Go(2, env));
    RunConcat(s, begins, read1);
    RunConcat(s, begins + read1, read2);
    steps := begins + read1 + read2;
  }

  /** One login on a fresh start. */
  lemma LoginRun(now: int, ttl: nat) returns (steps: seq<Step>)
    ensures var s := Run(Start(now, ttl), steps);
            && s.rows == [Row(3, 7, 0, now, SecondsFromNow(now, ttl), None, None)]
            && s.slots == map[] && s.ops.Keys == {0} && s.ops[0].request == Login(3) && s.ops[0].duty == [] &&
               s.ops[0].pc.Finished? && s.ops[0].pc.outcome.Issued?
            && s.now == now && s.ttl == ttl
  {
    var env := Env(7, 0, 0, true, 0);
    steps := [Begin(0, Login(3)), Go(0, env)];
    var s0 := Start(now, ttl);
    var s1 := Next(s0, steps[0]);
    RunOf(s0, steps, [s0, s1, Next(s1, steps[1])]);
  }

  /** Such a pair of requests is reachable: one login, then the same token presented twice. */
  lemma OverlapIsReachable(now: int, ttl: nat)
    requires ttl > 0
    ensures exists steps, row, at ::
              var s := Run(Start(now, ttl), steps);
              && 1 in s.ops && 2 in s.ops && s.ops[1].request.Refresh? && s.ops[2].request.Refresh?
              && s.ops[1].pc == Updating(0, row, at) && s.ops[2].pc == Updating(0, row, at) && Points(s.rows, 0, row)
  {
    var env := Env(7, 0, 0, true, 0);
    var login := LoginRun(now, ttl);
    var s := Run(Start(now, ttl), login);
    var row := s.rows[0];
    var steps, at := BothReadLive(s, row, env);
    RunConcat(Start(now, ttl), login, steps);
    assert Points(Run(Start(now, ttl), login + steps).rows, 0, row);
  }

  lemma {:induction false} RunConcat(s: State, steps: seq<Step>, more: seq<Step>)
    ensures Run(s, steps + more) == Run(Run(s, steps), more)
  {
    if more == [] {
      assert steps + more == steps;
    } else {
      RunConcat(s, steps, more[..|more| - 1]);
      assert (steps + more)[..|steps + more| - 1] == steps + more[..|more| - 1];
    }
  }

  lemma {:induction false} RunOf(s: State, steps: seq<Step>, states: seq<State>)
    requires |states| == |steps| + 1 && states[0] == s
    requires forall i :: 0 <= i < |steps| ==> states[i + 1] == Next(states[i], steps[i])
    ensures Run(s, steps) == states[|steps|]
  {
    if steps != [] {
      RunOf(s, steps[..|steps| - 1], states[..|steps|]);
    }
  }

  // ---------------------------------------------------------------------------
  // Without interleaving, a request is its atomic handler
  // ---------------------------------------------------------------------------

  ghost function StoreOf(s: State): H.Store {
    H.Store(s.rows, s.mirror)
  }

  /** How a rotation's answer reaches a client that sent no idempotency key. */
  ghost predicate Answers(outcome: Outcome, answer: H.RotateOutcome, env: Env) {
    match answer
    case Rotated(user, issued) => outcome == if env.userExists then Issued(Pair(user, env.access, issued))
      else Denied(NoUser)
    case Invalid => outcome == Denied(Invalid)
    case Expired => outcome == Denied(Expired)
    case Reuse(_) => outcome == Denied(Reuse)
    case InsertFailed => outcome == Crashed
  }

  /** What the SELECT and the check of an uninterrupted request decide. */
  ghost predicate CheckedAs(u: State, o: OpId, token: Token) {
    && o in u.ops && u.ops[o].request.Refresh? && !u.ops[o].owns
    && u.ops[o].pc == match FindToken(u.rows, token)
                      case None => Finished(Denied(Invalid))
                      case Some(id) =>
                        if !u.rows[id].Live() then FamilySelecting(u.rows[id].family)
                        else if u.rows[id].expiresAt <= u.now then Finished(Denied(Expired))
                        else Updating(id, u.rows[id], u.now)
  }

  /** The steps before the first write decide as the handler does. */
  lemma ReadsAsHandler(s: State, o: OpId, env: Env)
    requires o in s.ops && s.ops[o].pc.Selecting? && s.ops[o].request.Refresh? && !s.ops[o].owns
    ensures var u := Solo(s, o, env, 2);
            && CheckedAs(u, o, s.ops[o].request.token) && u.ops == s.ops[o := u.ops[o]] &&
               u.ops[o].request == s.ops[o].request
            && StoreOf(u) == StoreOf(s) && u.now == s.now && u.ttl == s.ttl && u.slots == s.slots
  {
    var s1 := Next(s, Go(o, env));
    var s2 := Next(s1, Go(o, env));
    assert Solo(s1, o, env, 1) == s2;
  }

  lemma {:induction false} SoloAdds(s: State, o: OpId, env: Env, m: nat, n: nat)
    ensures Solo(s, o, env, m + n) == Solo(Solo(s, o, env, m), o, env, n)
    decreases m
  {
    if m > 0 {
      SoloAdds(Next(s, Go(o, env)), o, env, m - 1, n);
    }
  }
}
