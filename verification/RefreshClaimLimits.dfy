/**
 * What the idempotency claim rests on: each condition of a calm run is needed. For each there is a
 * run, reached from a fresh start, that breaks only that one and in which the claim fails.
 */
module RefreshClaimLimits {
  import opened Wrappers
  import opened Time
  import opened RefreshTokenTable
  import opened RefreshProtocol
  import opened RefreshSafety
  import opened RefreshTheorems
  import opened RefreshAtomicity
  import opened RefreshClaim
  import O = RefreshLogout
  import H = RefreshHandlers

  // ---------------------------------------------------------------------------
  // The conditions one by one
  // ---------------------------------------------------------------------------

  datatype Condition = ClaimLasts | TokenLasts | NoCrash | PollsLast | UserExists | FreshToken | NoOneElse

  /** A step of one of the requests that share the key. */
  predicate MyGo(c: Shared, s: State, step: Step) {
    step.Go? && step.op in s.ops && c.Mine(s.ops[step.op])
  }

  ghost predicate Holds(c: Shared, s: State, step: Step, condition: Condition) {
    match condition
    case ClaimLasts => step.Tick? && SlotOf(s, c.key).Some? ==> s.now + step.ms < s.slots[c.key].expiresAt
    case TokenLasts => step.Tick? && Unchecked(c, s) && c.id < |s.rows| ==> s.now + step.ms < s.rows[c.id].expiresAt
    case NoCrash => step.Crash? && step.op in s.ops ==> !c.Mine(s.ops[step.op])
    case PollsLast => MyGo(c, s, step) && s.ops[step.op].pc.Polling? && SlotOf(s, c.key) == Some(Pending) ==>
                        s.ops[step.op].pc.attempt + 1 < CLAIM_WAIT_ATTEMPTS
    case UserExists => MyGo(c, s, step) && s.ops[step.op].pc.FindingUser? ==> step.env.userExists
    case FreshToken => MyGo(c, s, step) && s.ops[step.op].pc.Inserting? ==> FindToken(s.rows, step.env.minted).None?
    case NoOneElse => step.Go? && step.op in s.ops && !c.Mine(s.ops[step.op]) ==> Elsewhere(c, s, Next(s, step))
  }

  /** A calm step is one that meets all of them. */
  lemma CalmMeansAll(c: Shared, s: State, step: Step)
    ensures CalmStep(c, s, step) <==> forall condition :: Holds(c, s, step, condition)
  {
    if forall condition :: Holds(c, s, step, condition) {
      assert Holds(c, s, step, ClaimLasts) && Holds(c, s, step, TokenLasts) && Holds(c, s, step, NoCrash);
      assert Holds(c, s, step, PollsLast) && Holds(c, s, step, UserExists) && Holds(c, s, step, FreshToken);
      assert Holds(c, s, step, NoOneElse);
    }
  }

  ghost predicate HoldsBut(c: Shared, s: State, step: Step, waived: Condition) {
    forall condition :: condition != waived ==> Holds(c, s, step, condition)
  }

  /** Every step meets every condition but the waived one. */
  ghost predicate CalmBut(c: Shared, s: State, steps: seq<Step>, waived: Condition) {
    steps == []
    || (CalmBut(c, s, steps[..|steps| - 1], waived)
        && HoldsBut(c, Run(s, steps[..|steps| - 1]), steps[|steps| - 1], waived))
  }

  /** What a claim guarantees in every calm run. */
  ghost predicate OneRotation(c: Shared, u: State) {
    && AtMostOneLive(u.rows, c.family)
    && (forall o, q {:trigger Agree(c, u, o, q)} :: Agree(c, u, o, q))
    && (forall o {:trigger HoldsTheLiveRow(c, u, o)} :: HoldsTheLiveRow(c, u, o))
  }

  lemma {:induction false} CalmConcat(c: Shared, s: State, steps: seq<Step>, more: seq<Step>, waived: Condition)
    requires CalmBut(c, s, steps, waived) && CalmBut(c, Run(s, steps), more, waived)
    ensures CalmBut(c, s, steps + more, waived)
    decreases |more|
  {
    if more == [] {
      assert steps + more == steps;
    } else {
      var init, last := CalmInit(c, Run(s, steps), more, waived);
      CalmConcat(c, s, steps, init, waived);
      RunConcat(s, steps, init);
      CalmSnoc(c, s, steps + init, last, waived);
      assert steps + init + [last] == steps + (init + [last]);
    }
  }

  lemma CalmInit(c: Shared, s: State, steps: seq<Step>, waived: Condition) returns (init: seq<Step>, last: Step)
    requires steps != [] && CalmBut(c, s, steps, waived)
    ensures steps == init + [last] && CalmBut(c, s, init, waived) && HoldsBut(c, Run(s, init), last, waived)
  {
    init, last := steps[..|steps| - 1], steps[|steps| - 1];
  }

  lemma CalmSnoc(c: Shared, s: State, steps: seq<Step>, step: Step, waived: Condition)
    requires CalmBut(c, s, steps, waived) && HoldsBut(c, Run(s, steps), step, waived)
    ensures CalmBut(c, s, steps + [step], waived)
  {
    var all := steps + [step];
    assert all[..|all| - 1] == steps && all[|all| - 1] == step;
  }

  lemma CalmOne(c: Shared, s: State, step: Step, waived: Condition)
    requires HoldsBut(c, s, step, waived)
    ensures CalmBut(c, s, [step], waived) && Run(s, [step]) == Next(s, step)
  {
    assert [step][..0] == [];
  }

  // ---------------------------------------------------------------------------
  // One request alone
  // ---------------------------------------------------------------------------

  predicate Unwritten(pc: Pc) {
    pc.Claiming? || pc.Selecting? || pc.Checking? || pc.Updating? || pc.Mirroring? || pc.Inserting?
  }

  /** The request's own steps are calm from here on. */
  ghost predicate Steady(c: Shared, s: State, o: OpId, env: Env, waived: Condition) {
    && o in s.ops && c.Mine(s.ops[o]) && !s.ops[o].pc.Polling?
    && (s.ops[o].pc.Claiming? ==> SlotOf(s, c.key).None?)
    && (waived.UserExists? || env.userExists)
    && (waived.FreshToken? || !Unwritten(s.ops[o].pc) || FindToken(s.rows, env.minted).None?)
  }

  lemma SteadyHolds(c: Shared, s: State, o: OpId, env: Env, waived: Condition)
    requires Steady(c, s, o, env, waived)
    ensures HoldsBut(c, s, Go(o, env), waived)
  {
  }

  lemma SteadyClaims(c: Shared, s: State, o: OpId, env: Env, waived: Condition)
    requires Steady(c, s, o, env, waived) && s.ops[o].pc.Claiming?
    ensures Steady(c, Next(s, Go(o, env)), o, env, waived)
  {
    assert Advance(s, o, env) == Claim(s, o, c.key);
  }

  /** A step that only moves the request on. */
  lemma SteadyMove(c: Shared, s: State, o: OpId, env: Env, waived: Condition, op: Op)
    requires Steady(c, s, o, env, waived) && op.request == s.ops[o].request && !op.pc.Polling? && !op.pc.Claiming?
    requires Unwritten(op.pc) ==> Unwritten(s.ops[o].pc)
    ensures Steady(c, Stamp(s, s.(ops := s.ops[o := op])), o, env, waived)
  {
  }

  lemma SteadyReads(c: Shared, s: State, o: OpId, env: Env, waived: Condition)
    requires Steady(c, s, o, env, waived)
    requires var pc := s.ops[o].pc; pc.Selecting? || pc.Checking? || pc.FamilySelecting?
    ensures Steady(c, Next(s, Go(o, env)), o, env, waived)
  {
    var u := Next(s, Go(o, env));
    ReadMovesOnly(s, o, env);
    SteadyMove(c, s, o, env, waived, u.ops[o]);
  }

  lemma ReadMovesOnly(s: State, o: OpId, env: Env)
    requires o in s.ops && s.ops[o].request.Refresh?
    requires var pc := s.ops[o].pc; pc.Selecting? || pc.Checking? || pc.FamilySelecting?
    ensures var u := Next(s, Go(o, env));
            && o in u.ops && u.ops[o].request == s.ops[o].request
            && u == Stamp(s, s.(ops := s.ops[o := u.ops[o]]))
            && var pc := u.ops[o].pc;
               && !pc.Polling? && !pc.Claiming?
               && (Unwritten(pc) ==> Unwritten(s.ops[o].pc))
  {
    match s.ops[o].pc
    case Selecting => assert Advance(s, o, env) == s.(ops := s.ops[o := Select(s, s.ops[o], env.pick)]);
    case Checking(found) => assert Advance(s, o, env) == At(s, o, AfterCheck(s.ops[o], found, s.now));
    case FamilySelecting(family) => assert Advance(s, o, env) == FamilySelect(s, o, family);
  }

  lemma SteadyWrites(c: Shared, s: State, o: OpId, env: Env, waived: Condition)
    requires Steady(c, s, o, env, waived)
    requires var pc := s.ops[o].pc; pc.Updating? || pc.Mirroring? || pc.Inserting?
    ensures Steady(c, Next(s, Go(o, env)), o, env, waived)
  {
    match s.ops[o].pc
    case Updating(id, row, at) =>
      assert Advance(s, o, env) == Update(s, o, id, row, at);
      FindSameTokens(s.rows, Advance(s, o, env).rows, env.minted);
    case Mirroring(id, row) => assert Advance(s, o, env) == Mirror(s, o, id, row);
    case Inserting(id, row) => assert Advance(s, o, env) == InsertChild(s, o, id, row, env.minted);
  }

  lemma SteadyFamily(c: Shared, s: State, o: OpId, env: Env, waived: Condition)
    requires Steady(c, s, o, env, waived) && (s.ops[o].pc.FamilyUpdating? || s.ops[o].pc.FamilyMirroring?)
    ensures Steady(c, Next(s, Go(o, env)), o, env, waived)
  {
    match s.ops[o].pc
    case FamilyUpdating(family, active, at) => assert Advance(s, o, env) == FamilyUpdate(s, o, family, active, at);
    case FamilyMirroring(rest) => assert Advance(s, o, env) == FamilyMirror(s, o, rest);
  }

  lemma SteadyAnswers(c: Shared, s: State, o: OpId, env: Env, waived: Condition)
    requires Steady(c, s, o, env, waived)
    requires var pc := s.ops[o].pc;
             pc.LoginInserting? || pc.FindingUser? || pc.Completing? || pc.Releasing? || pc.Finished?
    ensures Steady(c, Next(s, Go(o, env)), o, env, waived)
  {
    match s.ops[o].pc
    case LoginInserting =>
    case FindingUser(user, minted) => assert Advance(s, o, env) == FindUser(s, o, user, minted, env);
    case Completing(_) =>
    case Releasing(_) =>
    case Finished(_) =>
  }

  lemma SteadyStep(c: Shared, s: State, o: OpId, env: Env, waived: Condition)
    requires Steady(c, s, o, env, waived)
    ensures Steady(c, Next(s, Go(o, env)), o, env, waived)
  {
    var pc := s.ops[o].pc;
    if pc.Claiming? {
      SteadyClaims(c, s, o, env, waived);
    } else if pc.Selecting? || pc.Checking? || pc.FamilySelecting? {
      SteadyReads(c, s, o, env, waived);
    } else if Unwritten(pc) {
      SteadyWrites(c, s, o, env, waived);
    } else if pc.FamilyUpdating? || pc.FamilyMirroring? {
      SteadyFamily(c, s, o, env, waived);
    } else {
      SteadyAnswers(c, s, o, env, waived);
    }
  }

  function Gos(o: OpId, env: Env, n: nat): seq<Step> {
    seq(n, _ => Go(o, env))
  }

  lemma {:induction false} SoloIsCalm(c: Shared, s: State, o: OpId, env: Env, n: nat, waived: Condition)
    requires Steady(c, s, o, env, waived)
    ensures CalmBut(c, s, Gos(o, env, n), waived) && Steady(c, Run(s, Gos(o, env, n)), o, env, waived)
  {
    if n > 0 {
      SoloIsCalm(c, s, o, env, n - 1, waived);
      assert Gos(o, env, n)[..n - 1] == Gos(o, env, n - 1);
      SteadyHolds(c, Run(s, Gos(o, env, n - 1)), o, env, waived);
      SteadyStep(c, Run(s, Gos(o, env, n - 1)), o, env, waived);
    }
  }

  /** The states one request's own steps go through. */
  ghost function Path(s: State, o: OpId, env: Env, n: nat): (path: seq<State>)
    ensures |path| == n + 1
  {
    seq(n + 1, i requires 0 <= i <= n => Run(s, Gos(o, env, i)))
  }

  lemma PathIsSolo(s: State, o: OpId, env: Env, n: nat)
    ensures SoloPath(Path(s, o, env, n), o, env)
    ensures Path(s, o, env, n)[0] == s && Path(s, o, env, n)[n] == Run(s, Gos(o, env, n))
  {
    var path := Path(s, o, env, n);
    forall i: nat
      ensures Moves(path, o, env, i)
    {
      if i + 1 < |path| {
        OneMore(s, o, env, i);
      }
    }
  }

  lemma OneMore(s: State, o: OpId, env: Env, i: nat)
    ensures Run(s, Gos(o, env, i + 1)) == Next(Run(s, Gos(o, env, i)), Go(o, env))
  {
    assert Gos(o, env, i + 1)[..i] == Gos(o, env, i);
  }

  /** The steps of one request leave the others where they were, and take no time. */
  lemma {:induction false} OthersStay(s: State, o: OpId, env: Env, n: nat, q: OpId)
    requires o in s.ops && q in s.ops && q != o
    ensures var u := Run(s, Gos(o, env, n)); o in u.ops && q in u.ops && u.ops[q] == s.ops[q] && u.now == s.now
  {
    if n > 0 {
      OthersStay(s, o, env, n - 1, q);
      var before := Run(s, Gos(o, env, n - 1));
      assert Gos(o, env, n)[..n - 1] == Gos(o, env, n - 1);
      AdvanceMovesOne(before, o, env, q);
      AdvanceMovesOne(before, o, env, o);
    }
  }

  /** How a request that wins its claim ends when it runs alone. */
  ghost predicate Done(c: Shared, s: State, u: State, o: OpId, env: Env) {
    && MineIn(c, s, o) && MineIn(c, u, o) && u.ops[o].pc.Finished?
    && var (store, answer) := H.Rotate(StoreOf(s), s.now, s.ttl, c.token, env.minted);
       StoreOf(u) == store && Answers(u.ops[o].pc.outcome, answer, env)
  }

  const MANY: nat := 20

  /** It wins the claim, rotates and answers; its slot then lapses within the claim's lifetime. */
  lemma OwnerRuns(c: Shared, s: State, o: OpId, env: Env, waived: Condition)
    requires Steady(c, s, o, env, waived) && s.ops[o].pc.Claiming? && |s.rows| <= 2
    ensures var u := Run(s, Gos(o, env, MANY));
            && CalmBut(c, s, Gos(o, env, MANY), waived) && Done(c, s, u, o, env)
            && (c.key in u.slots ==> u.slots[c.key].expiresAt <= SecondsFromNow(s.now, CLAIM_TTL_SECONDS))
  {
    SoloIsCalm(c, s, o, env, MANY, waived);
    PathIsSolo(s, o, env, MANY);
    WonClaimIsAtomic(Path(s, o, env, MANY), o, env, c.key);
  }

  /** The same from its SELECT on. */
  lemma SelectorRuns(c: Shared, s: State, o: OpId, env: Env, waived: Condition)
    requires Steady(c, s, o, env, waived) && s.ops[o].pc.Selecting? && |s.rows| <= 2
    ensures var u := Run(s, Gos(o, env, MANY));
            CalmBut(c, s, Gos(o, env, MANY), waived) && Done(c, s, u, o, env)
  {
    SoloIsCalm(c, s, o, env, MANY, waived);
    PathIsSolo(s, o, env, MANY);
    UninterruptedRefreshIsAtomic(Path(s, o, env, MANY), 0, o, env);
  }

  // ---------------------------------------------------------------------------
  // Where the runs start
  // ---------------------------------------------------------------------------

  const SHARED: Shared := Shared(0, 7, 0, 0)

  /** One live row with token 7, and requests 1 and 2 about to claim key 0 for it. */
  ghost predicate Ready(s: State, row: Row) {
    && Inv(s) && s.rows == [row] && row.Live() && row.token == 7 && row.family == 0 && s.now < row.expiresAt
    && s.slots == map[] && s.ops.Keys == {0, 1, 2} && s.ops[0].request == Login(3)
    && s.ops[1] == s.ops[2] == Op(Refresh(7, Some(0)), false, Claiming, 0, 0, [])
  }

  lemma ReadyIsCalm(s: State, row: Row)
    requires Ready(s, row)
    ensures CalmStart(SHARED, s)
  {
    H.FindsRow(s.rows, 0);
  }

  lemma TwoBegin(s: State) returns (steps: seq<Step>)
    requires s.ops.Keys == {0}
    ensures var u := Run(s, steps);
            && u.rows == s.rows && u.now == s.now && u.ttl == s.ttl && u.slots == s.slots
            && u.ops.Keys == {0, 1, 2} && u.ops[0] == s.ops[0]
            && u.ops[1] == u.ops[2] == Op(Refresh(7, Some(0)), false, Claiming, 0, 0, [])
  {
    steps := [Begin(1, Refresh(7, Some(0))), Begin(2, Refresh(7, Some(0)))];
    RunOf(s, steps, [s, Next(s, steps[0]), Next(Next(s, steps[0]), steps[1])]);
  }

  lemma MadeReady(now: int, ttl: nat) returns (steps: seq<Step>, row: Row)
    requires ttl > 0
    ensures Ready(Run(Start(now, ttl), steps), row)
  {
    var login := LoginRun(now, ttl);
    var s := Run(Start(now, ttl), login);
    row := s.rows[0];
    var begins := TwoBegin(s);
    RunConcat(Start(now, ttl), login, begins);
    steps := login + begins;
    StartIsSafe(now, ttl);
    RunKeeps(Start(now, ttl), steps);
  }

  const MINTS: Env := Env(8, 0, 0, true, 0)
  const AGAIN: Env := Env(9, 0, 0, true, 0)

  /** The run breaks the waived condition only, and with it the guarantee. */
  ghost predicate Breaks(s: State, steps: seq<Step>, waived: Condition) {
    CalmBut(SHARED, s, steps, waived) && !OneRotation(SHARED, Run(s, steps))
  }

  /** A request that is done without a pair holds no live row. */
  lemma NoPair(c: Shared, u: State, o: OpId)
    requires MineIn(c, u, o) && u.ops[o].pc.Finished? && PairOf(u.ops[o].pc).None?
    ensures !OneRotation(c, u)
  {
    assert !HoldsTheLiveRow(c, u, o);
  }

  // ---------------------------------------------------------------------------
  // One run for each condition
  // ---------------------------------------------------------------------------

  /** The first rotation as the handler does it. */
  lemma FirstRotation(s: State, row: Row)
    requires Ready(s, row)
    ensures FindToken(s.rows, 7) == Some(0) && FindToken(s.rows, 8).None? && FindToken(s.rows, 9).None?
    ensures var (store, answer) := H.Rotate(StoreOf(s), s.now, s.ttl, 7, 8);
            && answer == H.Rotated(row.user, 8)
            && store.rows == [row.Revoke(s.now, Rotation),
                              Row(row.user, 8, 0, s.now, SecondsFromNow(s.now, s.ttl), None, Some(0))]
  {
    assert FindToken(s.rows, 7) == Some(0);
    assert FindToken(UpdateById(s.rows, 0, s.now, Rotation), 8).None?;
  }

  /** With the first row revoked, presenting its token is reuse, and ends the family. */
  lemma SecondIsReuse(s: State)
    requires |s.rows| == 2 && s.rows[0].token == 7 && !s.rows[0].Live() && s.rows[0].family == 0
    requires s.rows[1].token == 8 && s.rows[1].family == 0
    ensures FindToken(s.rows, 7) == Some(0) && FindToken(s.rows, 9).None?
    ensures var (store, answer) := H.Rotate(StoreOf(s), s.now, s.ttl, 7, 9);
            answer == H.Reuse(0) && Dead(store.rows, 0)
  {
    assert s.rows[..1] == [s.rows[0]];
    assert FindToken(s.rows[..1], 7) == Some(0);
    if SelectLive(s.rows, 0) == [] {
      NothingSelected(s.rows, 0);
    }
  }

  lemma SecondIsDenied(c: Shared, s: State, u: State, o: OpId)
    requires c == SHARED && Done(c, s, u, o, AGAIN)
    requires |s.rows| == 2 && s.rows[0].token == 7 && !s.rows[0].Live() && s.rows[0].family == 0
    requires s.rows[1].token == 8 && s.rows[1].family == 0
    ensures u.ops[o].pc == Finished(Denied(Reuse)) && Dead(u.rows, 0) && !OneRotation(c, u)
  {
    SecondIsReuse(s);
    NoPair(c, u, o);
  }

  /** The claim lapses after the first request's answer: the second claims anew, and is told of reuse. */
  lemma LapsedClaim(s: State, row: Row) returns (steps: seq<Step>)
    requires Ready(s, row)
    ensures Breaks(s, steps, ClaimLasts)
  {
    FirstRotation(s, row);
    var first, wait := Gos(1, MINTS, MANY), Tick(60000);
    OwnerRuns(SHARED, s, 1, MINTS, ClaimLasts);
    OthersStay(s, 1, MINTS, MANY, 2);
    var answered := Run(s, first);
    assert !Unchecked(SHARED, answered);
    CalmOne(SHARED, answered, wait, ClaimLasts);
    var lapsed := Next(answered, wait);
    assert SlotOf(lapsed, 0).None?;
    SecondIsReuse(lapsed);
    OwnerRuns(SHARED, lapsed, 2, AGAIN, ClaimLasts);
    SecondIsDenied(SHARED, lapsed, Run(lapsed, Gos(2, AGAIN, MANY)), 2);
    CalmConcat(SHARED, s, first, [wait], ClaimLasts);
    RunConcat(s, first, [wait]);
    CalmConcat(SHARED, s, first + [wait], Gos(2, AGAIN, MANY), ClaimLasts);
    RunConcat(s, first + [wait], Gos(2, AGAIN, MANY));
    steps := first + [wait] + Gos(2, AGAIN, MANY);
  }

  /** The token expires before it is presented: its requests are told so. */
  lemma ExpiredToken(s: State, row: Row) returns (steps: seq<Step>)
    requires Ready(s, row)
    ensures Breaks(s, steps, TokenLasts)
  {
    FirstRotation(s, row);
    var wait := Tick(row.expiresAt - s.now);
    CalmOne(SHARED, s, wait, TokenLasts);
    var late := Next(s, wait);
    OwnerRuns(SHARED, late, 1, MINTS, TokenLasts);
    NoPair(SHARED, Run(late, Gos(1, MINTS, MANY)), 1);
    CalmConcat(SHARED, s, [wait], Gos(1, MINTS, MANY), TokenLasts);
    RunConcat(s, [wait], Gos(1, MINTS, MANY));
    steps := [wait] + Gos(1, MINTS, MANY);
  }

  /** The owner crashes after its claim: no one holds a pair. */
  lemma CrashedOwner(s: State, row: Row) returns (steps: seq<Step>)
    requires Ready(s, row)
    ensures Breaks(s, steps, NoCrash)
  {
    FirstRotation(s, row);
    SoloIsCalm(SHARED, s, 1, MINTS, 1, NoCrash);
    CalmOne(SHARED, s, Go(1, MINTS), NoCrash);
    assert Gos(1, MINTS, 1) == [Go(1, MINTS)];
    var claimed := Next(s, Go(1, MINTS));
    assert claimed.ops[1].pc == Selecting;
    CalmOne(SHARED, claimed, Crash(1), NoCrash);
    NoPair(SHARED, Next(claimed, Crash(1)), 1);
    CalmConcat(SHARED, s, [Go(1, MINTS)], [Crash(1)], NoCrash);
    RunConcat(s, [Go(1, MINTS)], [Crash(1)]);
    steps := [Go(1, MINTS)] + [Crash(1)];
  }

  /** The user is gone: the row is rotated and no one holds a pair. */
  lemma GoneUser(s: State, row: Row) returns (steps: seq<Step>)
    requires Ready(s, row)
    ensures Breaks(s, steps, UserExists)
  {
    FirstRotation(s, row);
    var env := MINTS.(userExists := false);
    OwnerRuns(SHARED, s, 1, env, UserExists);
    NoPair(SHARED, Run(s, Gos(1, env, MANY)), 1);
    steps := Gos(1, env, MANY);
  }

  /** The minted token is taken: the row is revoked and no row is inserted. */
  lemma TakenToken(s: State, row: Row) returns (steps: seq<Step>)
    requires Ready(s, row)
    ensures Breaks(s, steps, FreshToken)
  {
    FirstRotation(s, row);
    var env := MINTS.(minted := 7);
    OwnerRuns(SHARED, s, 1, env, FreshToken);
    assert UpdateById(s.rows, 0, s.now, Rotation)[0].token == 7;
    assert FindToken(UpdateById(s.rows, 0, s.now, Rotation), 7).Some?;
    NoPair(SHARED, Run(s, Gos(1, env, MANY)), 1);
    steps := Gos(1, env, MANY);
  }

  lemma LogoutAlone(s: State, row: Row)
    requires s.rows == [row] && row.Live() && 3 in s.ops && 1 in s.ops && s.slots == map[]
    requires s.ops[3] == Op(LogoutToken(row.token), false, Selecting, 0, 0, [])
    ensures var u := Run(s, Gos(3, MINTS, 4));
            && CalmBut(SHARED, s, Gos(3, MINTS, 4), NoOneElse) && u.rows == [row.Revoke(s.now, Logout)]
            && 1 in u.ops && u.ops[1] == s.ops[1] && u.slots == map[]
  {
    var go := Go(3, MINTS);
    var s2 := Next(Next(s, go), go);
    O.LogoutReads(s, 3, row, MINTS);
    O.LogoutWrites(s2, 3, row, s.now, MINTS);
    OtherIsCalm(s, 3, MINTS, 4);
    OthersStay(s, 3, MINTS, 4, 1);
    RunOf(s, Gos(3, MINTS, 4), [s, Next(s, go), s2, Next(s2, go), Next(Next(s2, go), go)]);
  }

  lemma LogoutRuns(s: State, row: Row) returns (steps: seq<Step>)
    requires Ready(s, row)
    ensures var u := Run(s, steps);
            && CalmBut(SHARED, s, steps, NoOneElse) && u.rows == [row.Revoke(s.now, Logout)]
            && 1 in u.ops && u.ops[1] == s.ops[1] && SlotOf(u, 0).None?
  {
    var begin := Begin(3, LogoutToken(7));
    CalmOne(SHARED, s, begin, NoOneElse);
    LogoutAlone(Next(s, begin), row);
    CalmConcat(SHARED, s, [begin], Gos(3, MINTS, 4), NoOneElse);
    RunConcat(s, [begin], Gos(3, MINTS, 4));
    steps := [begin] + Gos(3, MINTS, 4);
  }

  ghost predicate LoggingOut(s: State, o: OpId) {
    && o in s.ops && s.ops[o].request.LogoutToken? && s.slots == map[]
    && (s.ops[o].pc.Selecting? || s.ops[o].pc.Checking? || s.ops[o].pc.Updating? || s.ops[o].pc.Mirroring? ||
        s.ops[o].pc.Finished?)
  }

  lemma {:induction false} OtherIsCalm(s: State, o: OpId, env: Env, n: nat)
    requires LoggingOut(s, o)
    ensures CalmBut(SHARED, s, Gos(o, env, n), NoOneElse) && LoggingOut(Run(s, Gos(o, env, n)), o)
  {
    if n > 0 {
      OtherIsCalm(s, o, env, n - 1);
      assert Gos(o, env, n)[..n - 1] == Gos(o, env, n - 1);
      LogoutStepKeeps(Run(s, Gos(o, env, n - 1)), o, env);
    }
  }

  lemma LogoutStepKeeps(s: State, o: OpId, env: Env)
    requires LoggingOut(s, o)
    ensures LoggingOut(Next(s, Go(o, env)), o)
  {
    match s.ops[o].pc
    case Selecting =>
    case Checking(found) => assert Advance(s, o, env) == At(s, o, AfterCheck(s.ops[o], found, s.now));
    case Updating(id, row, at) => assert Advance(s, o, env) == Update(s, o, id, row, at);
    case Mirroring(id, row) => assert Advance(s, o, env) == Mirror(s, o, id, row);
    case Finished(_) =>
  }

  /** Someone logs the token out first: its requests are told of reuse. */
  lemma ForeignLogout(s: State, row: Row) returns (steps: seq<Step>)
    requires Ready(s, row)
    ensures Breaks(s, steps, NoOneElse)
  {
    var logout := LogoutRuns(s, row);
    var u := Run(s, logout);
    assert FindToken(u.rows, 7) == Some(0) && FindToken(u.rows, 8).None?;
    OwnerRuns(SHARED, u, 1, MINTS, NoOneElse);
    NoPair(SHARED, Run(u, Gos(1, MINTS, MANY)), 1);
    CalmConcat(SHARED, s, logout, Gos(1, MINTS, MANY), NoOneElse);
    RunConcat(s, logout, Gos(1, MINTS, MANY));
    steps := logout + Gos(1, MINTS, MANY);
  }

  // ---------------------------------------------------------------------------
  // A waiter that spends its polls
  // ---------------------------------------------------------------------------

  /** The claim is taken, and request 2 has made `n` polls. */
  ghost predicate Polled(s: State, row: Row, n: nat) {
    && s.rows == [row] && s.ops.Keys == {0, 1, 2} && 0 in s.slots && s.slots[0].value == Pending
    && s.now < s.slots[0].expiresAt && s.ops[0].request == Login(3)
    && SHARED.Mine(s.ops[1]) && s.ops[1].pc == Selecting && s.ops[1].owns
    && SHARED.Mine(s.ops[2]) && !s.ops[2].owns
    && s.ops[2].pc == if n < CLAIM_WAIT_ATTEMPTS then Polling(n) else Selecting
  }

  lemma FirstClaims(s: State, row: Row)
    requires Ready(s, row)
    ensures var u := Next(s, Go(1, MINTS)); Claimed(u, row) && u.now == s.now && u.ttl == s.ttl
  {
    assert Advance(s, 1, MINTS) == Claim(s, 1, 0);
  }

  /** Request 1 has claimed the key, request 2 is about to try. */
  ghost predicate Claimed(s: State, row: Row) {
    && s.rows == [row] && s.ops.Keys == {0, 1, 2} && 0 in s.slots && s.slots[0].value == Pending
    && s.now < s.slots[0].expiresAt && s.ops[0].request == Login(3)
    && SHARED.Mine(s.ops[1]) && s.ops[1].pc == Selecting && s.ops[1].owns
    && SHARED.Mine(s.ops[2]) && s.ops[2].pc == Claiming && !s.ops[2].owns
  }

  lemma SecondWaits(s: State, row: Row)
    requires Claimed(s, row)
    ensures var u := Next(s, Go(2, AGAIN)); Polled(u, row, 0) && u.now == s.now && u.ttl == s.ttl
  {
    assert Advance(s, 2, AGAIN) == Claim(s, 2, 0);
  }

  lemma BothClaim(s: State, row: Row) returns (steps: seq<Step>)
    requires Ready(s, row)
    ensures var u := Run(s, steps);
            CalmBut(SHARED, s, steps, PollsLast) && Polled(u, row, 0) && u.now == s.now && u.ttl == s.ttl
  {
    CalmOne(SHARED, s, Go(1, MINTS), PollsLast);
    FirstClaims(s, row);
    CalmOne(SHARED, Next(s, Go(1, MINTS)), Go(2, AGAIN), PollsLast);
    SecondWaits(Next(s, Go(1, MINTS)), row);
    CalmConcat(SHARED, s, [Go(1, MINTS)], [Go(2, AGAIN)], PollsLast);
    RunConcat(s, [Go(1, MINTS)], [Go(2, AGAIN)]);
    steps := [Go(1, MINTS)] + [Go(2, AGAIN)];
  }

  lemma {:induction false} Polls(s: State, row: Row, n: nat)
    requires Polled(s, row, 0) && n <= CLAIM_WAIT_ATTEMPTS
    ensures var u := Run(s, Gos(2, AGAIN, n));
            CalmBut(SHARED, s, Gos(2, AGAIN, n), PollsLast) && Polled(u, row, n) && u.now == s.now && u.ttl == s.ttl
  {
    if n > 0 {
      Polls(s, row, n - 1);
      assert Gos(2, AGAIN, n)[..n - 1] == Gos(2, AGAIN, n - 1);
      PollOnce(Run(s, Gos(2, AGAIN, n - 1)), row, n - 1);
    }
  }

  lemma PollOnce(s: State, row: Row, n: nat)
    requires Polled(s, row, n) && n < CLAIM_WAIT_ATTEMPTS
    ensures var u := Next(s, Go(2, AGAIN));
            HoldsBut(SHARED, s, Go(2, AGAIN), PollsLast) && Polled(u, row, n + 1) && u.now == s.now && u.ttl == s.ttl
  {
    assert SlotOf(s, 0) == Some(Pending);
  }

  /** Request 1 was answered with a pair whose row is revoked, request 2 that its session is reused. */
  ghost predicate PairThenReuse(s: State) {
    && 1 in s.ops && 2 in s.ops && s.ops[1].request == s.ops[2].request == Refresh(7, Some(0))
    && s.ops[1].pc.Finished? && s.ops[1].pc.outcome.Issued? && s.ops[2].pc == Finished(Denied(Reuse))
    && (exists i: nat :: i < |s.rows| && s.rows[i].token == s.ops[1].pc.outcome.pair.refresh)
    && Dead(s.rows, 0)
  }

  /** The waiter gives up while the owner is still under way; the owner answers, then the waiter rotates. */
  lemma SpentPolls(s: State, row: Row) returns (steps: seq<Step>)
    requires Ready(s, row)
    ensures Breaks(s, steps, PollsLast)
    ensures PairThenReuse(Run(s, steps))
  {
    var claims := BothClaim(s, row);
    Polls(Run(s, claims), row, CLAIM_WAIT_ATTEMPTS);
    CalmConcat(SHARED, s, claims, Gos(2, AGAIN, CLAIM_WAIT_ATTEMPTS), PollsLast);
    RunConcat(s, claims, Gos(2, AGAIN, CLAIM_WAIT_ATTEMPTS));
    var waited := claims + Gos(2, AGAIN, CLAIM_WAIT_ATTEMPTS);
    var rest := BothRotate(Run(s, waited), row);
    CalmConcat(SHARED, s, waited, rest, PollsLast);
    RunConcat(s, waited, rest);
    steps := waited + rest;
  }

  lemma BothRotate(s: State, row: Row) returns (steps: seq<Step>)
    requires Polled(s, row, CLAIM_WAIT_ATTEMPTS) && row.Live() && row.token == 7 && row.family == 0
    requires s.now < row.expiresAt
    ensures CalmBut(SHARED, s, steps, PollsLast) && !OneRotation(SHARED, Run(s, steps)) && PairThenReuse(Run(s, steps))
  {
    OwnerRotates(s, row);
    var first := Gos(1, MINTS, MANY);
    var u := Run(s, first);
    SecondIsReuse(u);
    SelectorRuns(SHARED, u, 2, AGAIN, PollsLast);
    OthersStay(u, 2, AGAIN, MANY, 1);
    var v := Run(u, Gos(2, AGAIN, MANY));
    SecondIsDenied(SHARED, u, v, 2);
    CalmConcat(SHARED, s, first, Gos(2, AGAIN, MANY), PollsLast);
    RunConcat(s, first, Gos(2, AGAIN, MANY));
    steps := first + Gos(2, AGAIN, MANY);
    SameTokens(u, v);
    assert v.rows[1].token == 8;
  }

  /** A denied rotation inserts nothing. */
  lemma SameTokens(s: State, u: State)
    requires |s.rows| == 2 && FindToken(s.rows, 7) == Some(0) && !s.rows[0].Live()
    requires StoreOf(u) == H.Rotate(StoreOf(s), s.now, s.ttl, 7, 9).0
    ensures |u.rows| == 2 && u.rows[1].token == s.rows[1].token
  {
  }

  lemma OwnerRotates(s: State, row: Row)
    requires Polled(s, row, CLAIM_WAIT_ATTEMPTS) && row.Live() && row.token == 7 && row.family == 0
    requires s.now < row.expiresAt
    ensures var u := Run(s, Gos(1, MINTS, MANY));
            && CalmBut(SHARED, s, Gos(1, MINTS, MANY), PollsLast)
            && |u.rows| == 2 && u.rows[0].token == 7 && !u.rows[0].Live() && u.rows[0].family == 0
            && u.rows[1].token == 8 && u.rows[1].family == 0
            && 1 in u.ops && u.ops[1].request == Refresh(7, Some(0))
            && u.ops[1].pc == Finished(Issued(Pair(row.user, 0, 8)))
            && 2 in u.ops && u.ops[2] == s.ops[2] && u.now == s.now
  {
    assert FindToken(s.rows, 7) == Some(0) && FindToken(s.rows, 8).None?;
    assert FindToken(UpdateById(s.rows, 0, s.now, Rotation), 8).None?;
    SelectorRuns(SHARED, s, 1, MINTS, PollsLast);
    OthersStay(s, 1, MINTS, MANY, 2);
  }

  // ---------------------------------------------------------------------------
  // Each condition is needed
  // ---------------------------------------------------------------------------

  /**
   * From a fresh start, for each condition: a run that is calm but for that condition, and in which
   * some request is done without the pair of the family's live row.
   */
  lemma EachConditionIsNeeded(now: int, ttl: nat, condition: Condition) returns (before: seq<Step>, steps: seq<Step>)
    requires ttl > 0
    ensures var s := Run(Start(now, ttl), before);
            && CalmStart(SHARED, s) && CalmBut(SHARED, s, steps, condition)
            && !OneRotation(SHARED, Run(s, steps))
  {
    var row;
    before, row := MadeReady(now, ttl);
    var s := Run(Start(now, ttl), before);
    ReadyIsCalm(s, row);
    match condition {
      case ClaimLasts => steps := LapsedClaim(s, row);
      case TokenLasts => steps := ExpiredToken(s, row);
      case NoCrash => steps := CrashedOwner(s, row);
      case PollsLast => steps := SpentPolls(s, row);
      case UserExists => steps := GoneUser(s, row);
      case FreshToken => steps := TakenToken(s, row);
      case NoOneElse => steps := ForeignLogout(s, row);
    }
  }

  /**
   * From a fresh start: a waiter spends its five polls while the owner is slow. The owner is
   * answered with a new pair, then the waiter with a reuse error, and the pair is dead.
   */
  lemma SpentPollsEndTheSession(now: int, ttl: nat) returns (steps: seq<Step>)
    requires ttl > 0
    ensures PairThenReuse(Run(Start(now, ttl), steps))
  {
    var before, row := MadeReady(now, ttl);
    var rest := SpentPolls(Run(Start(now, ttl), before), row);
    RunConcat(Start(now, ttl), before, rest);
    steps := before + rest;
  }
}
