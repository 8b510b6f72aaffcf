/** The /refresh handler of auth.router.ts over its claim slots and the refresh-token service. */
module AuthRouter {
  import opened Wrappers
  import opened Time
  import opened RefreshTokenTable
  import opened RefreshProtocol
  import H = RefreshHandlers
  import S = RefreshTokenService
  import T = RefreshTheorems
  import A = RefreshAtomicity

  /** What the wait loop makes of the gets it is given, from read `attempt` on. */
  ghost function Waited(gets: seq<Option<SlotValue>>, attempt: nat, presented: Token): Pc
    requires attempt < CLAIM_WAIT_ATTEMPTS <= |gets|
    decreases CLAIM_WAIT_ATTEMPTS - attempt
  {
    var pc := AfterPoll(gets[attempt], attempt, presented);
    if pc.Polling? then Waited(gets, attempt + 1, presented) else pc
  }

  /** The loop waited through reads that were all pending and then saw this result for this token. */
  ghost predicate ResolvedAt(gets: seq<Option<SlotValue>>, i: nat, presented: Token, cached: Cached) {
    && i < CLAIM_WAIT_ATTEMPTS && i < |gets|
    && gets[i] == Some(Complete(cached)) && cached.presented == presented
    && forall j :: 0 <= j < i ==> gets[j] == Some(Pending)
  }

  /**
   * Polls at most five times; `gets` is what the poll loop GETs. The loop follows
   * the protocol's polling steps, and hands over a result exactly when it was resolved in time.
   */
  method WaitForIdempotentResult(gets: seq<Option<SlotValue>>, presented: Token) returns (result: Option<Cached>)
    requires CLAIM_WAIT_ATTEMPTS <= |gets|
    ensures Waited(gets, 0, presented) == if result.Some? then Finished(Replayed(result.value.pair)) else Selecting
    ensures result.Some? ==> exists i :: ResolvedAt(gets, i, presented, result.value)
    ensures forall i, cached :: ResolvedAt(gets, i, presented, cached) ==> result == Some(cached)
    ensures result.Some? <==>
              exists i :: 0 <= i < 5 && gets[i].Some? && gets[i].value.Complete? &&
                gets[i].value.cached.presented == presented && forall j :: 0 <= j < i ==> gets[j] == Some(Pending)
  {
    var attempt := 0;
    while attempt < CLAIM_WAIT_ATTEMPTS
      invariant 0 <= attempt <= CLAIM_WAIT_ATTEMPTS
      invariant attempt < CLAIM_WAIT_ATTEMPTS ==> Waited(gets, 0, presented) == Waited(gets, attempt, presented)
      invariant attempt == CLAIM_WAIT_ATTEMPTS ==> Waited(gets, 0, presented) == Selecting
      invariant forall j :: 0 <= j < attempt ==> gets[j] == Some(Pending)
    {
      match gets[attempt] {
        case Some(Complete(cached)) =>
          if cached.presented == presented {
            assert ResolvedAt(gets, attempt, presented, cached);
            return Some(cached);
          }
          return None;
        case None =>
          return None;
        case Some(Pending) =>
      }
      attempt := attempt + 1;
    }
    return None;
  }

  class Router {
    var slots: map<Key, Slot>
    const tokens: S.Service

    constructor (service: S.Service)
      ensures slots == map[] && tokens == service
    {
      slots, tokens := map[], service;
    }

    /** SET NX EX 30: true for the one caller that finds the slot free or lapsed. */
    method ClaimIdempotencyKey(k: Key, now: int) returns (claimed: bool)
      modifies this`slots
      ensures claimed <==> !(k in old(slots) && now < old(slots)[k].expiresAt)
      ensures slots == if claimed then old(slots)[k := Slot(Pending, now + 30000)] else old(slots)
    {
      claimed := !(k in slots && now < slots[k].expiresAt);
      if claimed {
        slots := slots[k := Slot(Pending, SecondsFromNow(now, CLAIM_TTL_SECONDS))];
      }
    }

    /**
     * The end of /login, once the password has been verified: one live row of this user in a family
     * of its own, and the pair that names them both; nothing if the minted token is taken.
     */
    method Login(user: User, minted: Token, family: Family, access: nat, now: int) returns (outcome: Outcome)
      modifies tokens
      ensures outcome.Issued? <==> forall i :: 0 <= i < |old(tokens.rows)| ==> old(tokens.rows)[i].token != minted
      ensures outcome.Issued? ==>
                && outcome == Issued(Pair(user, access, minted))
                && tokens.rows == old(tokens.rows) +
                     [Row(user, minted, family, now, now + tokens.ttl * 1000, None, None)]
      ensures !outcome.Issued? ==> outcome == Crashed && tokens.rows == old(tokens.rows)
      ensures tokens.mirror == old(tokens.mirror)
    {
      var ok := tokens.IssueRefreshToken(user, family, None, minted, now);
      outcome := if ok then Issued(Pair(user, access, minted)) else Crashed;
    }

    /**
     * One refresh request that no other request interrupts, except that `gets` tells what its
     * poll loop sees. `answer` is the rotation's own result, None if it never rotated: with a slot
     * that is taken exactly if the wait was resolved from the cache, and never otherwise. A claim is
     * completed with the new pair, released on a denial, and left pending if the INSERT throws or
     * the user is gone.
     */
    method Refresh(token: Token, key: Option<Key>, gets: seq<Option<SlotValue>>, env: Env, now: int)
      returns (outcome: Outcome, ghost answer: Option<H.RotateOutcome>)
      requires CLAIM_WAIT_ATTEMPTS <= |gets|
      modifies this`slots, tokens
      ensures answer.None? ==>
                && tokens.Store() == old(tokens.Store()) && slots == old(slots)
                && outcome.Replayed? && Waited(gets, 0, token) == Finished(outcome)
      ensures answer.Some? ==>
                && (tokens.Store(), answer.value) == H.Rotate(old(tokens.Store()), now, tokens.ttl, token, env.minted)
                && T.Answers(outcome, answer.value, env)
                && match answer.value
                   case Rotated(user, issued) =>
                     outcome == if env.userExists then Issued(Pair(user, env.access, issued)) else Denied(NoUser)
                   case Invalid => outcome == Denied(Why.Invalid)
                   case Expired => outcome == Denied(Why.Expired)
                   case Reuse(_) => outcome == Denied(Why.Reuse)
                   case InsertFailed => outcome == Crashed
      ensures key.None? ==> answer.Some? && slots == old(slots)
      ensures key.Some? && key.value in old(slots) && now < old(slots)[key.value].expiresAt ==>
                && slots == old(slots)
                && (answer.None? <==> Waited(gets, 0, token) != Selecting)
      ensures key.Some? && !(key.value in old(slots) && now < old(slots)[key.value].expiresAt) ==>
                && answer.Some?
                && (outcome.Issued? ==>
                      slots == old(slots)[key.value := Slot(Complete(Cached(outcome.pair, token)), now + 30000)])
                && (answer.value.InsertFailed? || (answer.value.Rotated? && !env.userExists) ==>
                      slots == old(slots)[key.value := Slot(Pending, now + 30000)])
                && (answer.value.Invalid? || answer.value.Expired? || answer.value.Reuse? ==>
                     slots == old(slots) - {key.value})
                && slots == A.Settled(old(slots)[key.value := Slot(Pending, SecondsFromNow(now, CLAIM_TTL_SECONDS))],
                                      key, token, now, outcome)
    {
      answer := None;
      var owns := false;
      if key.Some? {
        owns := ClaimIdempotencyKey(key.value, now);
        if !owns {
          var waited := WaitForIdempotentResult(gets, token);
          if waited.Some? {
            outcome := Replayed(waited.value.pair);
            return;
          }
        }
      }
      var rotated;
      outcome, rotated := RotateAndAnswer(token, key, owns, env, now);
      answer := Some(rotated);
    }

    /** Rotates and answers; the owner of a claim completes it with its pair, or releases it on a denial. */
    method RotateAndAnswer(token: Token, key: Option<Key>, owns: bool, env: Env, now: int)
      returns (outcome: Outcome, rotation: H.RotateOutcome)
      requires owns ==> key.Some?
      modifies this`slots, tokens
      ensures (tokens.Store(), rotation) == H.Rotate(old(tokens.Store()), now, tokens.ttl, token, env.minted)
      ensures match rotation
              case Rotated(user, issued) =>
                outcome == if env.userExists then Issued(Pair(user, env.access, issued)) else Denied(NoUser)
              case Invalid => outcome == Denied(Why.Invalid)
              case Expired => outcome == Denied(Why.Expired)
              case Reuse(_) => outcome == Denied(Why.Reuse)
              case InsertFailed => outcome == Crashed
      ensures slots == if !owns || rotation.InsertFailed? || (rotation.Rotated? && !env.userExists) then old(slots)
                else if rotation.Rotated?
                then old(slots)[key.value := Slot(Complete(Cached(outcome.pair, token)), now + 30000)]
                else old(slots) - {key.value}
    {
      rotation := tokens.RotateRefreshToken(token, env.minted, now);
      match rotation {
        case Rotated(user, issued) =>
          if !env.userExists {
            return Denied(NoUser), rotation;
          }
          var pair := Pair(user, env.access, issued);
          if owns {
            slots := slots[key.value := Slot(Complete(Cached(pair, token)), SecondsFromNow(now, CLAIM_TTL_SECONDS))];
          }
          outcome := Issued(pair);
        case InsertFailed =>
          outcome := Crashed;
        case Invalid =>
          outcome := Denied(Why.Invalid);
          if owns { slots := slots - {key.value}; }
        case Expired =>
          outcome := Denied(Why.Expired);
          if owns { slots := slots - {key.value}; }
        case Reuse(_) =>
          outcome := Denied(Why.Reuse);
          if owns { slots := slots - {key.value}; }
      }
    }
  }
}
