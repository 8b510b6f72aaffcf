/** Without interleaving, a refresh request is its atomic handler, and its claim slot follows its answer. */
module RefreshAtomicity {
  import opened Wrappers
  import opened Time
  import opened RefreshTokenTable
  import opened RefreshProtocol
  import opened RefreshTheorems
  import H = RefreshHandlers

  // ---------------------------------------------------------------------------
  // Paths of one request
  // ---------------------------------------------------------------------------

  ghost predicate Moves(path: seq<State>, o: OpId, env: Env, i: nat) {
    i + 1 < |path| ==> path[i + 1] == Next(path[i], Go(o, env))
  }

  /** Request `o` takes one step after the other, and no one else takes any. */
  ghost predicate SoloPath(path: seq<State>, o: OpId, env: Env) {
    path != [] && forall i: nat {:trigger Moves(path, o, env, i)} :: Moves(path, o, env, i)
  }

  /** The request is a refresh; only one with a key owns a claim. */
  ghost predicate Refreshing(s: State, o: OpId) {
    o in s.ops && s.ops[o].request.Refresh? && (s.ops[o].owns ==> s.ops[o].request.key.Some?)
  }

  /**
   * The slots an answered request leaves: the owner of a claim completes it with its pair, or
   * releases it when the rotation was denied; a missing user or a failed INSERT leaves it pending.
   */
  function Settled(slots: map<Key, Slot>, claimed: Option<Key>, token: Token, now: int, outcome: Outcome)
    : map<Key, Slot>
  {
    match claimed
    case None => slots
    case Some(k) =>
      match outcome
      case Issued(pair) => slots[k := Slot(Complete(Cached(pair, token)), SecondsFromNow(now, CLAIM_TTL_SECONDS))]
      case Denied(why) => if why.NoUser? then slots else slots - {k}
      case _ => slots
  }

  /** The slots as the request's answer leaves them. */
  function SettledBy(s: State, o: OpId, outcome: Outcome): map<Key, Slot>
    requires Refreshing(s, o)
  {
    var op := s.ops[o];
    Settled(s.slots, if op.owns then op.request.key else None, op.request.token, s.now, outcome)
  }

  /** From state i on, request `o` runs to its end: stores, slots and answer are as the handler says. */
  ghost predicate EndsAs(path: seq<State>, i: nat, o: OpId, store: H.Store, answer: H.RotateOutcome, env: Env)
    requires i < |path|
  {
    var s, u := path[i], path[|path| - 1];
    && Refreshing(s, o) && o in u.ops && u.ops[o].pc.Finished? && StoreOf(u) == store
    && Answers(u.ops[o].pc.outcome, answer, env)
    && u.slots == SettledBy(s, o, u.ops[o].pc.outcome)
  }

  lemma EndsEarlier(path: seq<State>, i: nat, o: OpId, store: H.Store, answer: H.RotateOutcome, env: Env)
    requires i + 1 < |path| && Refreshing(path[i], o) && Onward(path[i], path[i + 1], o)
    requires EndsAs(path, i + 1, o, store, answer, env)
    ensures EndsAs(path, i, o, store, answer, env)
  {
  }

  /** From state i on nothing happens any more. */
  lemma FinishedEnds(path: seq<State>, o: OpId, env: Env, i: nat)
    requires SoloPath(path, o, env) && i < |path| && o in path[i].ops && path[i].ops[o].pc.Finished?
    ensures var u := path[|path| - 1];
            StoreOf(u) == StoreOf(path[i]) && u.ops == path[i].ops && u.slots == path[i].slots
    decreases |path| - i
  {
    if i + 1 < |path| {
      assert Moves(path, o, env, i);
      FinishedStep(path[i], o, env);
      FinishedEnds(path, o, env, i + 1);
    }
  }

  // ---------------------------------------------------------------------------
  // Single steps
  // ---------------------------------------------------------------------------

  /** A step leaves the slots, the clock time and all of the request but its program point alone. */
  ghost predicate Onward(s: State, u: State, o: OpId)
    requires o in s.ops
  {
    && o in u.ops && u.ops[o].request == s.ops[o].request && u.ops[o].owns == s.ops[o].owns
    && u.slots == s.slots && u.now == s.now && u.ttl == s.ttl
  }

  lemma FinishedStep(s: State, o: OpId, env: Env)
    requires o in s.ops && s.ops[o].pc.Finished?
    ensures var u := Next(s, Go(o, env)); StoreOf(u) == StoreOf(s) && u.ops == s.ops && u.slots == s.slots
  {
  }

  lemma SelectStep(s: State, o: OpId, env: Env)
    requires o in s.ops && s.ops[o].pc.Selecting? && s.ops[o].request.Refresh?
    ensures var u := Next(s, Go(o, env));
            && Onward(s, u, o) && StoreOf(u) == StoreOf(s)
            && u.ops[o].pc == Checking(Lookup(s.rows, s.ops[o].request.token))
  {
  }

  /** What the SELECT and the check decide. */
  function Decision(s: State, op: Op, token: Token): Pc {
    match FindToken(s.rows, token)
    case None => Failing(op, Invalid)
    case Some(id) =>
      if !s.rows[id].Live() then FamilySelecting(s.rows[id].family)
      else if s.rows[id].expiresAt <= s.now then Failing(op, Expired)
      else Updating(id, s.rows[id], s.now)
  }

  lemma CheckStep(s: State, o: OpId, env: Env)
    requires o in s.ops && s.ops[o].request.Refresh?
    requires s.ops[o].pc == Checking(Lookup(s.rows, s.ops[o].request.token))
    ensures var u := Next(s, Go(o, env));
            && Onward(s, u, o) && StoreOf(u) == StoreOf(s)
            && u.ops[o].pc == Decision(u, u.ops[o], s.ops[o].request.token)
  {
  }

  lemma FamilySelectStep(s: State, o: OpId, env: Env, family: Family)
    requires o in s.ops && s.ops[o].pc == FamilySelecting(family)
    ensures var u, active := Next(s, Go(o, env)), SelectLive(s.rows, family);
            && Onward(s, u, o) && StoreOf(u) == StoreOf(s)
            && u.ops[o].pc == if active == [] then Failing(s.ops[o], Reuse) else FamilyUpdating(family, active, s.now)
  {
    assert Advance(s, o, env) == FamilySelect(s, o, family);
  }

  lemma FamilyUpdateStep(s: State, o: OpId, env: Env, family: Family, active: seq<Row>, at: int)
    requires o in s.ops && s.ops[o].pc == FamilyUpdating(family, active, at)
    ensures var u := Next(s, Go(o, env));
            && Onward(s, u, o) && u.ops[o].pc == FamilyMirroring(active)
            && u.rows == UpdateFamily(s.rows, family, at, ReuseDetected) && u.mirror == s.mirror
  {
    assert Advance(s, o, env) == FamilyUpdate(s, o, family, active, at);
  }

  lemma FamilySetStep(s: State, o: OpId, env: Env, rest: seq<Row>)
    requires o in s.ops && rest != [] && s.ops[o].pc == FamilyMirroring(rest)
    ensures var u := Next(s, Go(o, env));
            && Onward(s, u, o) && u.ops[o].pc == FamilyMirroring(rest[1..])
            && u.rows == s.rows && u.mirror == H.MirrorRevocation(s.mirror, rest[0].token, rest[0].expiresAt, s.now)
  {
    assert Advance(s, o, env) == FamilyMirror(s, o, rest);
  }

  lemma FamilySetsEnd(s: State, o: OpId, env: Env)
    requires o in s.ops && s.ops[o].pc == FamilyMirroring([])
    ensures var u := Next(s, Go(o, env));
            Onward(s, u, o) && StoreOf(u) == StoreOf(s) && u.ops[o].pc == Failing(s.ops[o], Reuse)
  {
    assert Advance(s, o, env) == FamilyMirror(s, o, []);
  }

  lemma UpdateStep(s: State, o: OpId, env: Env, id: nat, row: Row, at: int)
    requires o in s.ops && s.ops[o].pc == Updating(id, row, at) && s.ops[o].request.Refresh? && id < |s.rows|
    ensures var u := Next(s, Go(o, env));
            && Onward(s, u, o) && u.ops[o].pc == Mirroring(id, row)
            && u.rows == UpdateById(s.rows, id, at, Rotation) && u.mirror == s.mirror
  {
    assert Advance(s, o, env) == Update(s, o, id, row, at);
  }

  lemma MirrorStep(s: State, o: OpId, env: Env, id: nat, row: Row)
    requires o in s.ops && s.ops[o].pc == Mirroring(id, row) && s.ops[o].request.Refresh?
    ensures var u := Next(s, Go(o, env));
            && Onward(s, u, o) && u.ops[o].pc == Inserting(id, row) && u.rows == s.rows
            && u.mirror == H.MirrorRevocation(s.mirror, row.token, row.expiresAt, s.now)
  {
    assert Advance(s, o, env) == Mirror(s, o, id, row);
  }

  lemma InsertStep(s: State, o: OpId, env: Env, id: nat, row: Row)
    requires o in s.ops && s.ops[o].pc == Inserting(id, row)
    ensures var u := Next(s, Go(o, env));
            var child := Row(row.user, env.minted, row.family, s.now, SecondsFromNow(s.now, s.ttl), None, Some(id));
            && Onward(s, u, o) && u.mirror == s.mirror
            && (if FindToken(s.rows, env.minted).Some?
                then u.ops[o].pc == Finished(Crashed) && u.rows == s.rows
                else u.ops[o].pc == FindingUser(row.user, env.minted) && u.rows == s.rows + [child])
  {
    assert Advance(s, o, env) == InsertChild(s, o, id, row, env.minted);
  }

  lemma UserStep(s: State, o: OpId, env: Env, user: User)
    requires o in s.ops && s.ops[o].pc == FindingUser(user, env.minted)
    ensures var u, pair := Next(s, Go(o, env)), Pair(user, env.access, env.minted);
            && Onward(s, u, o) && StoreOf(u) == StoreOf(s)
            && u.ops[o].pc == if !env.userExists then Finished(Denied(NoUser))
                              else if s.ops[o].owns then Completing(pair)
                              else Finished(Issued(pair))
  {
    assert Advance(s, o, env) == FindUser(s, o, user, env.minted, env);
  }

  // ---------------------------------------------------------------------------
  // Their chain
  // ---------------------------------------------------------------------------

  /** A denial ends the request, after the release of the claim if it owns one. */
  lemma DenialEnds(path: seq<State>, o: OpId, env: Env, i: nat, why: Why)
    requires SoloPath(path, o, env) && i + 1 < |path| && Refreshing(path[i], o) && !why.NoUser?
    requires path[i].ops[o].pc == Failing(path[i].ops[o], why)
    ensures var u := path[|path| - 1];
            && o in u.ops && u.ops[o].pc == Finished(Denied(why)) && StoreOf(u) == StoreOf(path[i])
            && u.slots == SettledBy(path[i], o, Denied(why))
  {
    var s := path[i];
    if s.ops[o].owns {
      assert Moves(path, o, env, i);
      assert Advance(s, o, env) == ReleaseClaim(s, o, why);
      FinishedEnds(path, o, env, i + 1);
    } else {
      FinishedEnds(path, o, env, i);
    }
  }

  lemma ReuseDenied(path: seq<State>, o: OpId, env: Env, family: Family, i: nat, store: H.Store)
    requires SoloPath(path, o, env) && i + 1 < |path| && Refreshing(path[i], o) && StoreOf(path[i]) == store
    requires path[i].ops[o].pc == Failing(path[i].ops[o], Reuse)
    ensures EndsAs(path, i, o, store, H.Reuse(family), env)
  {
    DenialEnds(path, o, env, i, Reuse);
  }

  lemma FamilySetsDone(path: seq<State>, o: OpId, env: Env, family: Family, i: nat, store: H.Store)
    requires SoloPath(path, o, env) && i + 2 < |path|
    requires Refreshing(path[i], o) && path[i].ops[o].pc == FamilyMirroring([]) && StoreOf(path[i]) == store
    ensures EndsAs(path, i, o, store, H.Reuse(family), env)
  {
    assert Moves(path, o, env, i);
    FamilySetsEnd(path[i], o, env);
    ReuseDenied(path, o, env, family, i + 1, store);
    EndsEarlier(path, i, o, store, H.Reuse(family), env);
  }

  /** The keys of `rest` are still to be written. */
  lemma FamilySetsAsHandler(path: seq<State>, o: OpId, env: Env, family: Family, i: nat, store: H.Store,
                            rest: seq<Row>)
    requires SoloPath(path, o, env) && i + |rest| + 2 < |path|
    requires Refreshing(path[i], o) && path[i].ops[o].pc == FamilyMirroring(rest)
    requires store == H.Store(path[i].rows, H.MirrorAll(path[i].mirror, rest, path[i].now))
    ensures EndsAs(path, i, o, store, H.Reuse(family), env)
    decreases |rest|
  {
    if rest == [] {
      FamilySetsDone(path, o, env, family, i, store);
    } else {
      assert Moves(path, o, env, i);
      FamilySetStep(path[i], o, env, rest);
      MirrorAllHead(path[i].mirror, rest, path[i].now);
      FamilySetsAsHandler(path, o, env, family, i + 1, store, rest[1..]);
      EndsEarlier(path, i, o, store, H.Reuse(family), env);
    }
  }

  /** The first key of a list is written first. */
  lemma {:induction false} MirrorAllHead(mirror: map<Token, int>, rows: seq<Row>, now: int)
    requires rows != []
    ensures H.MirrorAll(mirror, rows, now) ==
              H.MirrorAll(H.MirrorRevocation(mirror, rows[0].token, rows[0].expiresAt, now), rows[1..], now)
  {
    var n := |rows| - 1;
    if n == 0 {
      assert rows[..0] == [];
    } else {
      MirrorAllHead(mirror, rows[..n], now);
      assert rows[..n][1..] == rows[1..][..n - 1];
    }
  }

  lemma {:induction false} FewSelected(t: Table, family: Family)
    ensures |SelectLive(t, family)| <= |t|
  {
    if t != [] {
      FewSelected(t[..|t| - 1], family);
    }
  }

  lemma ReuseAsHandler(path: seq<State>, o: OpId, env: Env, family: Family, i: nat)
    requires SoloPath(path, o, env) && i < |path| && i + |path[i].rows| + 4 < |path|
    requires Refreshing(path[i], o) && path[i].ops[o].pc == FamilySelecting(family)
    ensures EndsAs(path, i, o, H.RevokeFamily(StoreOf(path[i]), path[i].now, family, ReuseDetected), H.Reuse(family),
              env)
  {
    var active, store := SelectLive(path[i].rows, family), H.RevokeFamily(StoreOf(path[i]), path[i].now, family,
      ReuseDetected);
    assert Moves(path, o, env, i);
    FamilySelectStep(path[i], o, env, family);
    if active == [] {
      ReuseDenied(path, o, env, family, i + 1, store);
    } else {
      FamilyRevocationAsHandler(path, o, env, family, i + 1, active);
    }
    EndsEarlier(path, i, o, store, H.Reuse(family), env);
  }

  lemma FamilyRevocationAsHandler(path: seq<State>, o: OpId, env: Env, family: Family, i: nat, active: seq<Row>)
    requires SoloPath(path, o, env) && i < |path| && i + |path[i].rows| + 3 < |path| && Refreshing(path[i], o)
    requires path[i].ops[o].pc == FamilyUpdating(family, active, path[i].now)
    requires active != [] && active == SelectLive(path[i].rows, family)
    ensures EndsAs(path, i, o, H.RevokeFamily(StoreOf(path[i]), path[i].now, family, ReuseDetected), H.Reuse(family),
              env)
  {
    var s := path[i];
    var store := H.RevokeFamily(StoreOf(s), s.now, family, ReuseDetected);
    assert Moves(path, o, env, i);
    FewSelected(s.rows, family);
    FamilyUpdateStep(s, o, env, family, active, s.now);
    FamilySetsAsHandler(path, o, env, family, i + 1, store, active);
    EndsEarlier(path, i, o, store, H.Reuse(family), env);
  }

  lemma FindSameToken(t: Table, id: nat, at: int, token: Token)
    requires id < |t|
    ensures FindToken(UpdateById(t, id, at, Rotation), token).Some? <==> FindToken(t, token).Some?
  {
    FindSameTokens(t, UpdateById(t, id, at, Rotation), token);
    FindSameTokens(UpdateById(t, id, at, Rotation), t, token);
  }

  /** The pair is answered, after the completion of the claim if the request owns one. */
  lemma PairEnds(path: seq<State>, o: OpId, env: Env, i: nat, user: User)
    requires SoloPath(path, o, env) && i + 2 < |path| && Refreshing(path[i], o)
    requires path[i].ops[o].pc == FindingUser(user, env.minted)
    ensures EndsAs(path, i, o, StoreOf(path[i]), H.Rotated(user, env.minted), env)
  {
    assert Moves(path, o, env, i) && Moves(path, o, env, i + 1);
    UserStep(path[i], o, env, user);
    var s := path[i + 1];
    if s.ops[o].pc.Completing? {
      assert Advance(s, o, env) == CompleteClaim(s, o, s.ops[o].pc.pair);
      FinishedEnds(path, o, env, i + 2);
    } else {
      FinishedEnds(path, o, env, i + 1);
    }
  }

  lemma RotationAsHandler(path: seq<State>, o: OpId, env: Env, i: nat, id: nat)
    requires SoloPath(path, o, env) && i + 5 < |path| && id < |path[i].rows| && Refreshing(path[i], o)
    requires path[i].ops[o].pc == Updating(id, path[i].rows[id], path[i].now)
    ensures var s, row := path[i], path[i].rows[id];
            var revoked := H.RevokeRow(StoreOf(s), s.now, id, Rotation);
            match H.Issue(revoked, s.now, s.ttl, row.user, env.minted, row.family, Some(id))
            case None => EndsAs(path, i, o, revoked, H.InsertFailed, env)
            case Some(issued) => EndsAs(path, i, o, issued, H.Rotated(row.user, env.minted), env)
  {
    var row := path[i].rows[id];
    assert Moves(path, o, env, i) && Moves(path, o, env, i + 1) && Moves(path, o, env, i + 2);
    UpdateStep(path[i], o, env, id, row, path[i].now);
    MirrorStep(path[i + 1], o, env, id, row);
    FindSameToken(path[i].rows, id, path[i].now, env.minted);
    InsertStep(path[i + 2], o, env, id, row);
    if FindToken(path[i].rows, env.minted).Some? {
      FinishedEnds(path, o, env, i + 3);
    } else {
      PairEnds(path, o, env, i + 3, row.user);
    }
  }

  lemma CheckedAsHandler(path: seq<State>, o: OpId, env: Env, token: Token, i: nat)
    requires SoloPath(path, o, env) && i < |path| && i + |path[i].rows| + 5 < |path| && Refreshing(path[i], o)
    requires path[i].ops[o].pc == Decision(path[i], path[i].ops[o], token)
    ensures var (store, answer) := H.Rotate(StoreOf(path[i]), path[i].now, path[i].ttl, token, env.minted);
            EndsAs(path, i, o, store, answer, env)
  {
    match FindToken(path[i].rows, token)
    case None => DenialEnds(path, o, env, i, Invalid);
    case Some(id) =>
      if !path[i].rows[id].Live() {
        ReuseAsHandler(path, o, env, path[i].rows[id].family, i);
      } else if path[i].rows[id].expiresAt <= path[i].now {
        DenialEnds(path, o, env, i, Expired);
      } else {
        RotationAsHandler(path, o, env, i, id);
      }
  }

  /**
   * From its SELECT on, a refresh whose steps no other request interrupts leaves the stores, and is
   * answered, exactly as the atomic handler says; if it owns a claim, its answer settles the slot.
   */
  lemma UninterruptedRefreshIsAtomic(path: seq<State>, i: nat, o: OpId, env: Env)
    requires SoloPath(path, o, env) && i < |path| && i + |path[i].rows| + 7 < |path|
    requires Refreshing(path[i], o) && path[i].ops[o].pc.Selecting?
    ensures var s := path[i];
            var (store, answer) := H.Rotate(StoreOf(s), s.now, s.ttl, s.ops[o].request.token, env.minted);
            EndsAs(path, i, o, store, answer, env)
  {
    assert Moves(path, o, env, i) && Moves(path, o, env, i + 1);
    SelectStep(path[i], o, env);
    CheckStep(path[i + 1], o, env);
    CheckedAsHandler(path, o, env, path[i].ops[o].request.token, i + 2);
  }

  // ---------------------------------------------------------------------------
  // From the claim on
  // ---------------------------------------------------------------------------

  lemma ClaimStep(s: State, o: OpId, env: Env, k: Key)
    requires Refreshing(s, o) && s.ops[o].pc.Claiming? && s.ops[o].request.key == Some(k)
    ensures var u := Next(s, Go(o, env));
            && o in u.ops && u.ops[o].request == s.ops[o].request && StoreOf(u) == StoreOf(s) && u.now == s.now &&
               u.ttl == s.ttl
            && (if SlotOf(s, k).None?
                then u.ops[o].owns && u.ops[o].pc == Selecting &&
                  u.slots == s.slots[k := Slot(Pending, SecondsFromNow(s.now, CLAIM_TTL_SECONDS))]
                else u.ops[o].owns == s.ops[o].owns && u.ops[o].pc == Polling(0) && u.slots == s.slots)
  {
    assert Advance(s, o, env) == Claim(s, o, k);
  }

  lemma PollStep(s: State, o: OpId, env: Env, k: Key, n: nat)
    requires Refreshing(s, o) && s.ops[o].pc == Polling(n) && s.ops[o].request.key == Some(k)
    ensures var u := Next(s, Go(o, env));
            && Onward(s, u, o) && StoreOf(u) == StoreOf(s)
            && u.ops[o].pc == AfterPoll(SlotOf(s, k), n, s.ops[o].request.token)
  {
  }

  /** The request has given up waiting in state j, with everything else as in state i. */
  ghost predicate GaveUp(path: seq<State>, i: nat, j: nat, o: OpId)
    requires i < |path| && o in path[i].ops
  {
    && i < j < |path| && Onward(path[i], path[j], o) && StoreOf(path[j]) == StoreOf(path[i])
    && path[j].ops[o].pc.Selecting?
  }

  /** The request was answered from the cache, with everything else as in state i. */
  ghost predicate EndsReplayed(path: seq<State>, i: nat, o: OpId, pair: Pair)
    requires i < |path|
  {
    var s, u := path[i], path[|path| - 1];
    o in u.ops && u.ops[o].pc == Finished(Replayed(pair)) && StoreOf(u) == StoreOf(s) && u.slots == s.slots
  }

  /** With no one else moving, a waiting request sees the same slot at every poll. */
  lemma PollsEnd(path: seq<State>, o: OpId, env: Env, k: Key, i: nat, n: nat) returns (j: nat)
    requires SoloPath(path, o, env) && n < CLAIM_WAIT_ATTEMPTS && i + (CLAIM_WAIT_ATTEMPTS - n) < |path|
    requires Refreshing(path[i], o) && path[i].ops[o].pc == Polling(n) && path[i].ops[o].request.key == Some(k)
    ensures i < j <= i + (CLAIM_WAIT_ATTEMPTS - n)
    ensures match SlotOf(path[i], k)
            case Some(Complete(cached)) =>
              if cached.presented == path[i].ops[o].request.token then EndsReplayed(path, i, o, cached.pair)
              else GaveUp(path, i, j, o)
            case _ => GaveUp(path, i, j, o)
    decreases CLAIM_WAIT_ATTEMPTS - n
  {
    assert Moves(path, o, env, i);
    PollStep(path[i], o, env, k, n);
    j := i + 1;
    if path[j].ops[o].pc.Polling? {
      j := PollsEnd(path, o, env, k, i + 1, n + 1);
    } else if path[j].ops[o].pc.Finished? {
      FinishedEnds(path, o, env, j);
    }
  }

  /**
   * A request that wins its claim, run alone: the stores and the answer are the atomic handler's,
   * and the slot it claimed ends completed with its pair, released, or pending.
   */
  lemma WonClaimIsAtomic(path: seq<State>, o: OpId, env: Env, k: Key)
    requires SoloPath(path, o, env) && |path[0].rows| + 8 < |path|
    requires Refreshing(path[0], o) && path[0].ops[o].pc.Claiming? && path[0].ops[o].request.key == Some(k)
    requires SlotOf(path[0], k).None?
    ensures var s, u := path[0], path[|path| - 1];
            var (store, answer) := H.Rotate(StoreOf(s), s.now, s.ttl, s.ops[o].request.token, env.minted);
            && o in u.ops && u.ops[o].pc.Finished? && StoreOf(u) == store
            && Answers(u.ops[o].pc.outcome, answer, env)
            && u.slots == Settled(s.slots[k := Slot(Pending, SecondsFromNow(s.now, CLAIM_TTL_SECONDS))], Some(k),
                            s.ops[o].request.token, s.now, u.ops[o].pc.outcome)
  {
    assert Moves(path, o, env, 0);
    ClaimStep(path[0], o, env, k);
    UninterruptedRefreshIsAtomic(path, 1, o, env);
  }

  /**
   * A request that does not win it, run alone: a result for its token is handed over without any
   * write; otherwise, after at most five reads, it rotates without a claim and leaves the slot alone.
   */
  lemma LostClaimIsAtomic(path: seq<State>, o: OpId, env: Env, k: Key)
    requires SoloPath(path, o, env) && |path[0].rows| + 13 < |path|
    requires Refreshing(path[0], o) && path[0].ops[o].pc.Claiming? && path[0].ops[o].request.key == Some(k)
    requires SlotOf(path[0], k).Some? && !path[0].ops[o].owns
    ensures var s, u := path[0], path[|path| - 1];
            var (store, answer) := H.Rotate(StoreOf(s), s.now, s.ttl, s.ops[o].request.token, env.minted);
            && o in u.ops && u.ops[o].pc.Finished? && u.slots == s.slots
            && match SlotOf(s, k).value
               case Complete(cached) =>
                 if cached.presented == s.ops[o].request.token
                 then u.ops[o].pc.outcome == Replayed(cached.pair) && StoreOf(u) == StoreOf(s)
                 else StoreOf(u) == store && Answers(u.ops[o].pc.outcome, answer, env)
               case Pending => StoreOf(u) == store && Answers(u.ops[o].pc.outcome, answer, env)
  {
    assert Moves(path, o, env, 0);
    ClaimStep(path[0], o, env, k);
    var j := PollsEnd(path, o, env, k, 1, 0);
    if GaveUp(path, 1, j, o) {
      UninterruptedRefreshIsAtomic(path, j, o, env);
    }
  }

  // ---------------------------------------------------------------------------
  // Logins and logouts
  // ---------------------------------------------------------------------------

  /** The request is done, with this answer and these stores; no slot has moved. */
  ghost predicate EndsWith(path: seq<State>, o: OpId, store: H.Store, outcome: Outcome)
    requires path != []
  {
    var u := path[|path| - 1];
    o in u.ops && u.ops[o].pc == Finished(outcome) && StoreOf(u) == store && u.slots == path[0].slots
  }

  /** A login that no one interrupts issues one row of its user, in a new family, and names both in its answer. */
  lemma UninterruptedLoginIsAtomic(path: seq<State>, o: OpId, env: Env, user: User)
    requires SoloPath(path, o, env) && |path| > 1 && o in path[0].ops && path[0].ops[o].request == Login(user)
    requires path[0].ops[o].pc.LoginInserting? && H.FreshFamily(path[0].rows, env.family)
    ensures var s := path[0];
            match H.Issue(StoreOf(s), s.now, s.ttl, user, env.minted, env.family, None)
            case None => EndsWith(path, o, StoreOf(s), Crashed)
            case Some(issued) => EndsWith(path, o, issued, Issued(Pair(user, env.access, env.minted)))
  {
    assert Moves(path, o, env, 0);
    assert Advance(path[0], o, env) == InsertRoot(path[0], o, env);
    FinishedEnds(path, o, env, 1);
  }

  lemma LogoutReads(s: State, o: OpId, env: Env, id: nat)
    requires o in s.ops && s.ops[o].pc.Selecting? && id < |s.rows| && s.rows[id].Live()
    requires s.ops[o].request.LogoutToken? ==> FindToken(s.rows, s.ops[o].request.token) == Some(id)
    requires s.ops[o].request.LogoutUser? ==> MostRecentLive(s.rows, s.ops[o].request.user, id) && env.pick == id
    requires s.ops[o].request.LogoutToken? || s.ops[o].request.LogoutUser?
    ensures var u := Next(Next(s, Go(o, env)), Go(o, env));
            && Onward(s, u, o) && StoreOf(u) == StoreOf(s) && u.ops[o].pc == Updating(id, s.rows[id], s.now)
  {
    var u := Next(s, Go(o, env));
    assert u.ops[o].pc == Checking(Some((id, s.rows[id])));
  }

  lemma LogoutWrites(s: State, o: OpId, env: Env, id: nat, row: Row, at: int)
    requires o in s.ops && s.ops[o].pc == Updating(id, row, at) && id < |s.rows| && !s.ops[o].request.Refresh?
    ensures var u := Next(Next(s, Go(o, env)), Go(o, env));
            && Onward(s, u, o) && u.ops[o].pc == Finished(LoggedOut)
            && u.rows == UpdateById(s.rows, id, at, Logout)
            && u.mirror == H.MirrorRevocation(s.mirror, row.token, row.expiresAt, s.now)
  {
    assert Advance(s, o, env) == Update(s, o, id, row, at);
    var u := Next(s, Go(o, env));
    assert Advance(u, o, env) == Mirror(u, o, id, row);
  }

  lemma LogoutRevokes(path: seq<State>, o: OpId, env: Env, id: nat)
    requires SoloPath(path, o, env) && |path| > 4 && o in path[0].ops && path[0].ops[o].pc.Selecting?
    requires var s, request := path[0], path[0].ops[o].request;
             && id < |s.rows| && s.rows[id].Live() && (request.LogoutToken? || request.LogoutUser?)
             && (request.LogoutToken? ==> FindToken(s.rows, request.token) == Some(id))
             && (request.LogoutUser? ==> MostRecentLive(s.rows, request.user, id) && env.pick == id)
    ensures EndsWith(path, o, H.RevokeRow(StoreOf(path[0]), path[0].now, id, Logout), LoggedOut)
  {
    assert Moves(path, o, env, 0) && Moves(path, o, env, 1) && Moves(path, o, env, 2) && Moves(path, o, env, 3);
    LogoutReads(path[0], o, env, id);
    LogoutWrites(path[2], o, env, id, path[0].rows[id], path[0].now);
    FinishedEnds(path, o, env, 4);
  }

  /** A logout with a token that no one interrupts is the atomic one. */
  lemma UninterruptedLogoutIsAtomic(path: seq<State>, o: OpId, env: Env, token: Token)
    requires SoloPath(path, o, env) && |path| > 4 && o in path[0].ops && path[0].ops[o].request == LogoutToken(token)
    requires path[0].ops[o].pc.Selecting?
    ensures EndsWith(path, o, H.LogoutToken(StoreOf(path[0]), path[0].now, token), LoggedOut)
  {
    var s, found := path[0], FindToken(path[0].rows, token);
    if found.Some? && s.rows[found.value].Live() {
      LogoutRevokes(path, o, env, found.value);
    } else {
      assert Moves(path, o, env, 0) && Moves(path, o, env, 1);
      assert path[1].ops[o].pc == Checking(Lookup(s.rows, token));
      FinishedEnds(path, o, env, 2);
    }
  }

  /** One without a token revokes a most recently issued live row of the user, or nothing if there is none. */
  lemma UninterruptedUserLogoutIsAtomic(path: seq<State>, o: OpId, env: Env, user: User)
    requires SoloPath(path, o, env) && |path| > 4 && o in path[0].ops && path[0].ops[o].request == LogoutUser(user)
    requires path[0].ops[o].pc.Selecting?
    ensures MostRecentLive(path[0].rows, user, env.pick) ==>
              EndsWith(path, o, H.RevokeRow(StoreOf(path[0]), path[0].now, env.pick, Logout), LoggedOut)
    ensures NoneLive(path[0].rows, user) ==> EndsWith(path, o, StoreOf(path[0]), LoggedOut)
  {
    if MostRecentLive(path[0].rows, user, env.pick) {
      LogoutRevokes(path, o, env, env.pick);
    } else if NoneLive(path[0].rows, user) {
      assert Moves(path, o, env, 0) && Moves(path, o, env, 1);
      assert path[1].ops[o].pc == Checking(None);
      FinishedEnds(path, o, env, 2);
    }
  }
}
