/**
 * The idempotency claim: any number of interleaved refresh requests with one key and one live
 * token act as a single rotation, as long as the run is calm: the claim does not lapse, no waiter
 * spends its whole budget, nothing throws, the user exists, and no one else touches the token's
 * family or the key's slot.
 */
module RefreshClaim {
  import opened Wrappers
  import opened RefreshTokenTable
  import opened RefreshProtocol
  import opened RefreshSafety
  import H = RefreshHandlers

  /** The shared key, the shared token, and the row and family of that token. */
  datatype Shared = Shared(key: Key, token: Token, id: nat, family: Family)
  {
    predicate Mine(op: Op) {
      op.request == Refresh(token, Some(key))
    }
  }

  // ---------------------------------------------------------------------------
  // Calm runs
  // ---------------------------------------------------------------------------

  ghost predicate SameSlot(s: State, u: State, k: Key) {
    (k in u.slots <==> k in s.slots) && (k in s.slots ==> u.slots[k] == s.slots[k])
  }

  /** A step that writes no row of the family and no slot of the key. */
  ghost predicate Elsewhere(c: Shared, s: State, u: State) {
    && |s.rows| <= |u.rows|
    && (forall i :: 0 <= i < |s.rows| && s.rows[i].family == c.family ==> u.rows[i] == s.rows[i])
    && (forall i :: |s.rows| <= i < |u.rows| ==> u.rows[i].family != c.family)
    && SameSlot(s, u, c.key)
  }

  /** Up to its expiry check a request depends on the shared token being unexpired. */
  predicate BeforeCheck(pc: Pc) { pc.Claiming? || pc.Polling? || pc.Selecting? || pc.Checking? }

  /** None of the requests has passed the expiry check yet. */
  ghost predicate Unchecked(c: Shared, s: State) {
    forall o :: o in s.ops && c.Mine(s.ops[o]) ==> BeforeCheck(s.ops[o].pc)
  }

  ghost predicate CalmStep(c: Shared, s: State, step: Step) {
    match step
    case Tick(ms) =>
      && (SlotOf(s, c.key).Some? ==> s.now + ms < s.slots[c.key].expiresAt)
      && (Unchecked(c, s) && c.id < |s.rows| ==> s.now + ms < s.rows[c.id].expiresAt)
    case Begin(_, _) => true
    case Crash(o) => o in s.ops ==> !c.Mine(s.ops[o])
    case Go(o, env) =>
      o in s.ops ==>
        if c.Mine(s.ops[o]) then CalmGo(c, s, s.ops[o].pc, env) else Elsewhere(c, s, Next(s, step))
  }

  ghost predicate CalmGo(c: Shared, s: State, pc: Pc, env: Env) {
    && (pc.Polling? && SlotOf(s, c.key) == Some(Pending) ==> pc.attempt + 1 < CLAIM_WAIT_ATTEMPTS)
    && (pc.FindingUser? ==> env.userExists)
    && (pc.Inserting? ==> FindToken(s.rows, env.minted).None?)
  }

  ghost predicate CalmRun(c: Shared, s: State, steps: seq<Step>) {
    steps == []
    || (CalmRun(c, s, steps[..|steps| - 1]) && CalmStep(c, Run(s, steps[..|steps| - 1]), steps[|steps| - 1]))
  }

  // ---------------------------------------------------------------------------
  // The family's rows at each stage of the one rotation
  // ---------------------------------------------------------------------------

  ghost predicate OnlyLive(t: Table, family: Family, i: nat) {
    && i < |t| && t[i].family == family && t[i].Live()
    && forall j :: 0 <= j < |t| && t[j].family == family && t[j].Live() ==> j == i
  }

  ghost predicate OnlyChild(t: Table, id: nat, n: Option<nat>) {
    forall j :: 0 <= j < |t| && t[j].parent == Some(id) ==> n == Some(j)
  }

  ghost predicate Unspent(c: Shared, t: Table) {
    OnlyLive(t, c.family, c.id) && OnlyChild(t, c.id, None)
  }

  ghost predicate RevokedByRotation(c: Shared, t: Table) {
    c.id < |t| && t[c.id].revoked.Some? && t[c.id].revoked.value.reason == Rotation
  }

  ghost predicate Spent(c: Shared, t: Table) {
    Dead(t, c.family) && OnlyChild(t, c.id, None) && RevokedByRotation(c, t)
  }

  /** The family has one live row: the only row ever rotated from the shared token. */
  ghost predicate Renewed(c: Shared, t: Table, minted: Token) {
    var n := FindToken(t, minted);
    && n.Some? && OnlyLive(t, c.family, n.value) && t[n.value].parent == Some(c.id)
    && OnlyChild(t, c.id, n) && RevokedByRotation(c, t)
  }

  ghost predicate Stage(c: Shared, t: Table, pc: Pc) {
    match pc
    case Selecting => Unspent(c, t)
    case Checking(found) => Unspent(c, t) && found == Some((c.id, t[c.id]))
    case Updating(id, row, _) => Unspent(c, t) && id == c.id && row == t[c.id]
    case Mirroring(id, row) => Spent(c, t) && id == c.id && row.family == c.family
    case Inserting(id, row) => Spent(c, t) && id == c.id && row.family == c.family
    case FindingUser(_, minted) => Renewed(c, t, minted)
    case Completing(pair) => Renewed(c, t, pair.refresh)
    case Finished(Issued(pair)) => Renewed(c, t, pair.refresh)
    case _ => false
  }

  // ---------------------------------------------------------------------------
  // The invariant of calm runs
  // ---------------------------------------------------------------------------

  ghost predicate Base(c: Shared, s: State) {
    && FindToken(s.rows, c.token) == Some(c.id)
    && s.rows[c.id].family == c.family
  }

  ghost predicate Unexpired(c: Shared, s: State)
    requires Base(c, s)
  {
    s.now < s.rows[c.id].expiresAt
  }

  /** A request that does not hold the claim: it has not asked yet, waits, or was answered from the cache. */
  ghost predicate Waits(op: Op, answer: Option<Pair>) {
    && !op.owns
    && match op.pc
       case Claiming => true
       case Polling(n) => n < CLAIM_WAIT_ATTEMPTS
       case Finished(Replayed(pair)) => answer == Some(pair)
       case _ => false
  }

  function AnswerOf(pc: Pc): Option<Pair> {
    if pc.Finished? && pc.outcome.Issued? then Some(pc.outcome.pair) else None
  }

  ghost predicate WaiterOk(c: Shared, s: State, w: Option<OpId>, o: OpId) {
    o in s.ops && c.Mine(s.ops[o]) && w != Some(o) ==>
      Waits(s.ops[o], if w.Some? && w.value in s.ops then AnswerOf(s.ops[w.value].pc) else None)
      && (w.None? ==> s.ops[o].pc.Claiming?)
  }

  ghost predicate OwnerOk(c: Shared, s: State, w: OpId) {
    && w in s.ops && c.Mine(s.ops[w]) && s.ops[w].owns && Stage(c, s.rows, s.ops[w].pc)
    && SlotOf(s, c.key) == Some(match AnswerOf(s.ops[w].pc)
                                case None => Pending
                                case Some(pair) => Complete(Cached(pair, c.token)))
  }

  /** `w` is the request that holds, or held, the claim. */
  ghost predicate CalmInv(c: Shared, s: State, w: Option<OpId>) {
    && Base(c, s)
    && (forall o {:trigger WaiterOk(c, s, w, o)} :: WaiterOk(c, s, w, o))
    && match w
       case None => SlotOf(s, c.key).None? && Unspent(c, s.rows) && Unexpired(c, s)
       case Some(o) => OwnerOk(c, s, o) && (BeforeCheck(s.ops[o].pc) ==> Unexpired(c, s))
  }

  // ---------------------------------------------------------------------------
  // Steps elsewhere
  // ---------------------------------------------------------------------------

  lemma ElsewhereKeepsStage(c: Shared, s: State, u: State, pc: Pc)
    requires Base(c, s) && Elsewhere(c, s, u) && Forest(u.rows) && Extends(s.rows, u.rows)
    ensures Unspent(c, s.rows) ==> Unspent(c, u.rows)
    ensures Stage(c, s.rows, pc) ==> Stage(c, u.rows, pc)
  {
    forall i | 0 <= i < |u.rows| && u.rows[i].parent == Some(c.id)
      ensures u.rows[i].family == c.family && i < |s.rows| && s.rows[i] == u.rows[i]
    {
      assert Placed(u.rows, i);
      if i < |s.rows| {
        assert RowKept(s.rows, u.rows, i);
      }
    }
    forall i | 0 <= i < |u.rows| && u.rows[i].family == c.family
      ensures i < |s.rows| && s.rows[i] == u.rows[i]
    {
      if i < |s.rows| {
        assert RowKept(s.rows, u.rows, i);
      }
    }
    match pc
    case FindingUser(_, minted) => RenewedStays(c, s, u, minted);
    case Completing(pair) => RenewedStays(c, s, u, pair.refresh);
    case Finished(Issued(pair)) => RenewedStays(c, s, u, pair.refresh);
    case _ =>
  }

  lemma RenewedStays(c: Shared, s: State, u: State, minted: Token)
    requires Base(c, s) && Elsewhere(c, s, u) && Forest(u.rows) && Extends(s.rows, u.rows)
    requires forall i :: 0 <= i < |u.rows| && u.rows[i].parent == Some(c.id) ==> i < |s.rows| && s.rows[i] == u.rows[i]
    requires forall i :: 0 <= i < |u.rows| && u.rows[i].family == c.family ==> i < |s.rows| && s.rows[i] == u.rows[i]
    ensures Renewed(c, s.rows, minted) ==> Renewed(c, u.rows, minted)
  {
    if Renewed(c, s.rows, minted) {
      LaterFinds(s.rows, u.rows, minted);
    }
  }

  /** Until the owner has passed its expiry check nobody has. */
  lemma UncheckedWith(c: Shared, s: State, w: Option<OpId>)
    requires CalmInv(c, s, w) && (w.Some? ==> BeforeCheck(s.ops[w.value].pc))
    ensures Unchecked(c, s)
  {
    forall o | o in s.ops && c.Mine(s.ops[o])
      ensures BeforeCheck(s.ops[o].pc)
    {
      assert WaiterOk(c, s, w, o);
    }
  }

  /** Whoever else moved: a step that touches neither family nor slot keeps the invariant. */
  lemma ElsewhereKeeps(c: Shared, s: State, u: State, w: Option<OpId>)
    requires CalmInv(c, s, w) && Elsewhere(c, s, u) && Forest(u.rows) && Extends(s.rows, u.rows)
    requires s.now <= u.now && (Unchecked(c, s) ==> u.now < s.rows[c.id].expiresAt)
    requires SlotOf(s, c.key).Some? ==> u.now < s.slots[c.key].expiresAt
    requires forall o {:trigger Bystander(c, s, u, o)} :: Bystander(c, s, u, o)
    ensures CalmInv(c, u, w)
  {
    LaterFinds(s.rows, u.rows, c.token);
    assert RowKept(s.rows, u.rows, c.id);
    assert SlotOf(u, c.key) == SlotOf(s, c.key);
    if w.None? || BeforeCheck(s.ops[w.value].pc) {
      UncheckedWith(c, s, w);
    }
    ElsewhereKeepsStage(c, s, u, if w.Some? then s.ops[w.value].pc else Claiming);
    if w.Some? {
      assert Bystander(c, s, u, w.value);
    }
    forall o
      ensures WaiterOk(c, u, w, o)
    {
      assert WaiterOk(c, s, w, o) && Bystander(c, s, u, o);
    }
  }

  /** The requests that share the key, before and after a step of another one. */
  ghost predicate Bystander(c: Shared, s: State, u: State, o: OpId) {
    && (o in u.ops && c.Mine(u.ops[o]) ==>
          if o in s.ops then u.ops[o] == s.ops[o] else u.ops[o].pc.Claiming? && !u.ops[o].owns)
    && (o in s.ops && c.Mine(s.ops[o]) ==> o in u.ops && u.ops[o] == s.ops[o])
  }

  lemma OthersStepBystander(c: Shared, s: State, step: Step, o: OpId)
    requires Inv(s) && CalmStep(c, s, step)
    requires step.Go? ==> step.op in s.ops ==> !c.Mine(s.ops[step.op])
    ensures Bystander(c, s, Next(s, step), o)
  {
    NextKeeps(s, step);
    assert OpKept(s, Next(s, step), o);
    if step.Go? && step.op in s.ops {
      AdvanceMovesOne(s, step.op, step.env, o);
    }
  }

  lemma OthersStepKeeps(c: Shared, s: State, step: Step, w: Option<OpId>)
    requires Inv(s) && CalmInv(c, s, w) && CalmStep(c, s, step)
    requires step.Go? ==> step.op in s.ops ==> !c.Mine(s.ops[step.op])
    ensures CalmInv(c, Next(s, step), w)
  {
    var u := Next(s, step);
    NextKeeps(s, step);
    forall o
      ensures Bystander(c, s, u, o)
    {
      OthersStepBystander(c, s, step, o);
    }
    if step.Go? && step.op in s.ops {
      AdvanceMovesOne(s, step.op, step.env, step.op);
    }
    ElsewhereKeeps(c, s, u, w);
  }

  // ---------------------------------------------------------------------------
  // Steps of the requests that share the key
  // ---------------------------------------------------------------------------

  /** A waiter moved, and nothing else. */
  lemma WaiterKeeps(c: Shared, s: State, w: Option<OpId>, o: OpId, pc: Pc)
    requires CalmInv(c, s, w) && o in s.ops && c.Mine(s.ops[o]) && w != Some(o)
    requires w.Some? && Waits(s.ops[o].(pc := pc), AnswerOf(s.ops[w.value].pc))
    ensures CalmInv(c, Stamp(s, At(s, o, pc)), w)
  {
    var u := Stamp(s, At(s, o, pc));
    forall q
      ensures WaiterOk(c, u, w, q)
    {
      assert WaiterOk(c, s, w, q) && WaiterOk(c, s, w, o);
    }
  }

  lemma ClaimWins(c: Shared, s: State, o: OpId)
    requires CalmInv(c, s, None) && o in s.ops && c.Mine(s.ops[o])
    ensures CalmInv(c, Stamp(s, Claim(s, o, c.key)), Some(o))
  {
    var u := Stamp(s, Claim(s, o, c.key));
    forall q
      ensures WaiterOk(c, u, Some(o), q)
    {
      assert WaiterOk(c, s, None, q);
    }
  }

  lemma WaiterStepKeeps(c: Shared, s: State, w: Option<OpId>, o: OpId, env: Env) returns (v: Option<OpId>)
    requires CalmInv(c, s, w) && o in s.ops && c.Mine(s.ops[o]) && w != Some(o) && CalmGo(c, s, s.ops[o].pc, env)
    ensures CalmInv(c, Stamp(s, Advance(s, o, env)), v)
  {
    v := w;
    assert WaiterOk(c, s, w, o);
    var op := s.ops[o];
    if w.None? {
      ClaimWins(c, s, o);
      v := Some(o);
    } else if op.pc.Claiming? {
      WaiterKeeps(c, s, w, o, Polling(0));
    } else if op.pc.Polling? {
      WaiterKeeps(c, s, w, o, AfterPoll(SlotOf(s, c.key), op.pc.attempt, c.token));
    } else {
      WaiterKeeps(c, s, w, o, op.pc);
      assert At(s, o, op.pc) == s;
    }
  }

  /** The owner moved from one stage to the next. */
  lemma OwnerKeeps(c: Shared, s: State, u: State, w: OpId)
    requires CalmInv(c, s, Some(w)) && AnswerOf(s.ops[w].pc).None?
    requires forall q :: q in u.ops <==> q in s.ops
    requires forall q :: q in s.ops && q != w ==> u.ops[q] == s.ops[q]
    requires Base(c, u) && OwnerOk(c, u, w) && (BeforeCheck(u.ops[w].pc) ==> Unexpired(c, u))
    ensures CalmInv(c, u, Some(w))
  {
    forall q
      ensures WaiterOk(c, u, Some(w), q)
    {
      assert WaiterOk(c, s, Some(w), q);
    }
  }

  lemma OwnerReads(c: Shared, s: State, w: OpId, env: Env)
    requires CalmInv(c, s, Some(w)) && (s.ops[w].pc.Selecting? || s.ops[w].pc.Checking?)
    ensures CalmInv(c, Stamp(s, Advance(s, w, env)), Some(w))
  {
    OwnerKeeps(c, s, Stamp(s, Advance(s, w, env)), w);
  }

  lemma OwnerUpdates(c: Shared, s: State, w: OpId, env: Env)
    requires Inv(s) && CalmInv(c, s, Some(w)) && s.ops[w].pc.Updating?
    ensures CalmInv(c, Stamp(s, Advance(s, w, env)), Some(w))
  {
    var u := Stamp(s, Advance(s, w, env));
    UpdateByIdKeepsForest(s.rows, c.id, s.ops[w].pc.at, Rotation);
    LaterFinds(s.rows, u.rows, c.token);
    assert Spent(c, u.rows);
    OwnerKeeps(c, s, u, w);
  }

  lemma OwnerMirrors(c: Shared, s: State, w: OpId, env: Env)
    requires CalmInv(c, s, Some(w)) && s.ops[w].pc.Mirroring?
    ensures CalmInv(c, Stamp(s, Advance(s, w, env)), Some(w))
  {
    OwnerKeeps(c, s, Stamp(s, Advance(s, w, env)), w);
  }

  lemma ChildRenews(c: Shared, s: State, u: State, minted: Token)
    requires Base(c, s) && Spent(c, s.rows) && Extends(s.rows, u.rows) && Forest(u.rows)
    requires |u.rows| == |s.rows| + 1 && u.rows[..|s.rows|] == s.rows
    requires u.rows[|s.rows|].Live() && u.rows[|s.rows|].family == c.family && u.rows[|s.rows|].parent == Some(c.id)
    requires u.rows[|s.rows|].token == minted
    ensures Base(c, u) && Renewed(c, u.rows, minted)
  {
    assert RowKept(s.rows, u.rows, c.id);
    LaterFinds(s.rows, u.rows, c.token);
    H.FindsRow(u.rows, |s.rows|);
    assert forall i :: 0 <= i < |s.rows| ==> u.rows[i] == s.rows[i];
  }

  lemma OwnerInserts(c: Shared, s: State, w: OpId, env: Env)
    requires Inv(s) && CalmInv(c, s, Some(w)) && s.ops[w].pc.Inserting? && FindToken(s.rows, env.minted).None?
    ensures CalmInv(c, Stamp(s, Advance(s, w, env)), Some(w))
  {
    var u := Stamp(s, Advance(s, w, env));
    NextKeeps(s, Go(w, env));
    assert Next(s, Go(w, env)) == u;
    ChildRenews(c, s, u, env.minted);
    OwnerKeeps(c, s, u, w);
  }

  lemma OwnerFindsUser(c: Shared, s: State, w: OpId, env: Env)
    requires CalmInv(c, s, Some(w)) && s.ops[w].pc.FindingUser? && env.userExists
    ensures CalmInv(c, Stamp(s, Advance(s, w, env)), Some(w))
  {
    var u := Stamp(s, FindUser(s, w, s.ops[w].pc.user, s.ops[w].pc.minted, env));
    assert Stage(c, u.rows, u.ops[w].pc) && SlotOf(u, c.key) == Some(Pending);
    OwnerKeeps(c, s, u, w);
  }

  lemma OwnerCompletes(c: Shared, s: State, w: OpId, env: Env)
    requires CalmInv(c, s, Some(w)) && s.ops[w].pc.Completing?
    ensures CalmInv(c, Stamp(s, Advance(s, w, env)), Some(w))
  {
    var pair := s.ops[w].pc.pair;
    var u := Stamp(s, CompleteClaim(s, w, pair));
    assert Stage(c, u.rows, u.ops[w].pc) && SlotOf(u, c.key) == Some(Complete(Cached(pair, c.token)));
    OwnerKeeps(c, s, u, w);
  }

  lemma MyStepKeeps(c: Shared, s: State, w: Option<OpId>, o: OpId, env: Env) returns (v: Option<OpId>)
    requires Inv(s) && CalmInv(c, s, w) && o in s.ops && c.Mine(s.ops[o]) && CalmGo(c, s, s.ops[o].pc, env)
    ensures CalmInv(c, Next(s, Go(o, env)), v)
  {
    v := w;
    if w != Some(o) {
      v := WaiterStepKeeps(c, s, w, o, env);
    } else {
      match s.ops[o].pc
      case Selecting => OwnerReads(c, s, o, env);
      case Checking(_) => OwnerReads(c, s, o, env);
      case Updating(_, _, _) => OwnerUpdates(c, s, o, env);
      case Mirroring(_, _) => OwnerMirrors(c, s, o, env);
      case Inserting(_, _) => OwnerInserts(c, s, o, env);
      case FindingUser(_, _) => OwnerFindsUser(c, s, o, env);
      case Completing(_) => OwnerCompletes(c, s, o, env);
      case Finished(_) =>
        OthersIdle(c, s, w);
        assert Advance(s, o, env) == s;
    }
  }

  lemma OthersIdle(c: Shared, s: State, w: Option<OpId>)
    requires CalmInv(c, s, w)
    ensures CalmInv(c, Stamp(s, s), w)
  {
    forall q
      ensures WaiterOk(c, Stamp(s, s), w, q)
    {
      assert WaiterOk(c, s, w, q);
    }
  }

  /** What the run may start from: the token is its family's only live row and the slot is empty. */
  ghost predicate CalmStart(c: Shared, s: State) {
    && Inv(s) && Base(c, s) && Unexpired(c, s) && OnlyLive(s.rows, c.family, c.id)
    && SlotOf(s, c.key).None?
    && forall o :: o in s.ops && c.Mine(s.ops[o]) ==> s.ops[o].pc.Claiming? && !s.ops[o].owns
  }

  lemma {:induction false} CalmRunKeeps(c: Shared, s: State, steps: seq<Step>) returns (w: Option<OpId>)
    requires CalmStart(c, s) && CalmRun(c, s, steps)
    ensures Inv(Run(s, steps)) && CalmInv(c, Run(s, steps), w)
  {
    RunKeeps(s, steps);
    if steps == [] {
      H.LiveRowHasNoChild(s.rows, c.id);
      assert CalmInv(c, s, None);
      w := None;
    } else {
      var step := steps[|steps| - 1];
      var before := Run(s, steps[..|steps| - 1]);
      w := CalmRunKeeps(c, s, steps[..|steps| - 1]);
      if step.Go? && step.op in before.ops && c.Mine(before.ops[step.op]) {
        w := MyStepKeeps(c, before, w, step.op, step.env);
      } else {
        OthersStepKeeps(c, before, step, w);
      }
    }
  }

  /** The pair a request was answered with, whether it rotated or was answered from the cache. */
  function PairOf(pc: Pc): Option<Pair> {
    match pc
    case Finished(Issued(pair)) => Some(pair)
    case Finished(Replayed(pair)) => Some(pair)
    case _ => None
  }

  /** The request is past the claim and the wait, on its way through (or done with) a rotation. */
  predicate Rotates(pc: Pc) {
    !pc.Claiming? && !pc.Polling? && !(pc.Finished? && pc.outcome.Replayed?)
  }

  predicate MineIn(c: Shared, s: State, o: OpId) {
    o in s.ops && c.Mine(s.ops[o])
  }

  /** The requests agree: they are one if both rotate, and hold the same pair if both are done. */
  ghost predicate Agree(c: Shared, u: State, o: OpId, q: OpId) {
    MineIn(c, u, o) && MineIn(c, u, q) ==>
      && (Rotates(u.ops[o].pc) && Rotates(u.ops[q].pc) ==> o == q)
      && (u.ops[o].pc.Finished? && u.ops[q].pc.Finished? ==>
            PairOf(u.ops[o].pc).Some? && PairOf(u.ops[o].pc) == PairOf(u.ops[q].pc))
  }

  /** Once the request is done its pair's row is the family's only live one, rotated from the shared token. */
  ghost predicate HoldsTheLiveRow(c: Shared, u: State, o: OpId) {
    MineIn(c, u, o) && u.ops[o].pc.Finished? ==>
      PairOf(u.ops[o].pc).Some? && Renewed(c, u.rows, PairOf(u.ops[o].pc).value.refresh)
  }

  /** What the owner of the claim has to do with a request that has got anywhere. */
  ghost predicate OwnedBy(c: Shared, u: State, w: Option<OpId>, o: OpId) {
    MineIn(c, u, o) ==>
      && (Rotates(u.ops[o].pc) ==> w == Some(o))
      && (u.ops[o].pc.Finished? ==>
            w.Some? && w.value in u.ops && PairOf(u.ops[o].pc).Some? &&
              PairOf(u.ops[o].pc) == AnswerOf(u.ops[w.value].pc))
  }

  lemma EveryoneIsOwned(c: Shared, u: State, w: Option<OpId>, o: OpId)
    requires CalmInv(c, u, w)
    ensures OwnedBy(c, u, w, o)
    ensures HoldsTheLiveRow(c, u, o)
  {
    assert WaiterOk(c, u, w, o);
  }

  /**
   * In every calm run, at every moment: at most one of the requests has entered rotation, whoever
   * is done was answered with the same pair (so reuse detection never fired), and the family has
   * at most one live row, which after an answer is the answered token's, rotated from the shared one.
   */
  lemma ClaimedRefreshIsOneRotation(c: Shared, s: State, steps: seq<Step>)
    requires CalmStart(c, s) && CalmRun(c, s, steps)
    ensures var u := Run(s, steps);
            && AtMostOneLive(u.rows, c.family)
            && (forall o, q {:trigger Agree(c, u, o, q)} :: Agree(c, u, o, q))
            && (forall o {:trigger HoldsTheLiveRow(c, u, o)} :: HoldsTheLiveRow(c, u, o))
  {
    var w := CalmRunKeeps(c, s, steps);
    var u := Run(s, steps);
    forall o
      ensures OwnedBy(c, u, w, o) && HoldsTheLiveRow(c, u, o)
    {
      EveryoneIsOwned(c, u, w, o);
    }
    forall o, q
      ensures Agree(c, u, o, q)
    {
      assert OwnedBy(c, u, w, o) && OwnedBy(c, u, w, q);
    }
  }

  ghost predicate Rotated(c: Shared, u: State, w: OpId) {
    MineIn(c, u, w) && u.ops[w].pc.Finished? && u.ops[w].pc.outcome.Issued?
  }

  ghost predicate ReplaysOf(c: Shared, u: State, w: OpId, q: OpId)
    requires Rotated(c, u, w)
  {
    MineIn(c, u, q) && q != w ==> u.ops[q].pc == Finished(Replayed(u.ops[w].pc.outcome.pair))
  }

  lemma AllDone(c: Shared, u: State, w: Option<OpId>, o: OpId)
    requires CalmInv(c, u, w) && MineIn(c, u, o)
    requires forall q :: MineIn(c, u, q) ==> u.ops[q].pc.Finished?
    ensures w.Some? && Rotated(c, u, w.value) && forall q :: ReplaysOf(c, u, w.value, q)
  {
    assert WaiterOk(c, u, w, o);
    assert MineIn(c, u, w.value);
    forall q
      ensures ReplaysOf(c, u, w.value, q)
    {
      assert WaiterOk(c, u, w, q);
    }
  }

  /** When every request is done, exactly one of them rotated and all others were answered from the cache. */
  lemma ExactlyOneRotated(c: Shared, s: State, steps: seq<Step>, o: OpId)
    requires CalmStart(c, s) && CalmRun(c, s, steps)
    requires MineIn(c, Run(s, steps), o)
    requires forall q :: MineIn(c, Run(s, steps), q) ==> Run(s, steps).ops[q].pc.Finished?
    ensures exists w :: Rotated(c, Run(s, steps), w) && forall q :: ReplaysOf(c, Run(s, steps), w, q)
  {
    var w := CalmRunKeeps(c, s, steps);
    AllDone(c, Run(s, steps), w, o);
  }
}
