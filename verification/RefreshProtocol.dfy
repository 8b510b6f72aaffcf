/**
 * /login, /refresh and /logout as a protocol: any number of requests interleave at every await.
 * Each SELECT, UPDATE, INSERT and Redis command is a step of its own, time passes and requests
 * crash between any two of them, and everything random or external is an input of the step.
 *
 * `clock`, `marks` and `births`, and the fields `readAt`, `wroteAt` and `duty` of a request, are
 * history: they name moments of the run and are never read by a transition.
 */
module RefreshProtocol {
  import opened Wrappers
  import opened Time
  import opened RefreshTokenTable
  import H = RefreshHandlers

  type OpId = nat
  type Key = nat

  const CLAIM_WAIT_ATTEMPTS: nat := 5
  const CLAIM_TTL_SECONDS: nat := 30

  datatype Request =
    | Login(user: User)
    | Refresh(token: Token, key: Option<Key>)
    | LogoutToken(token: Token)
    | LogoutUser(user: User)

  datatype Pair = Pair(user: User, access: nat, refresh: Token)

  datatype Cached = Cached(pair: Pair, presented: Token)

  datatype SlotValue = Pending | Complete(cached: Cached)

  datatype Slot = Slot(value: SlotValue, expiresAt: int)

  datatype Why = Invalid | Expired | Reuse | NoUser

  datatype Outcome = Issued(pair: Pair) | Replayed(pair: Pair) | Denied(why: Why) | LoggedOut | Crashed

  datatype Pc =
    | LoginInserting
    | Claiming
    | Polling(attempt: nat)
    | Selecting
    | Checking(found: Option<(nat, Row)>)
    | FamilySelecting(family: Family)
    | FamilyUpdating(family: Family, active: seq<Row>, at: int)
    | FamilyMirroring(rest: seq<Row>)
    | Updating(id: nat, row: Row, at: int)
    | Mirroring(id: nat, row: Row)
    | Inserting(id: nat, row: Row)
    | FindingUser(user: User, minted: Token)
    | Completing(pair: Pair)
    | Releasing(why: Why)
    | Finished(outcome: Outcome)

  /** `duty` lists the rows whose mirror keys the request has taken upon itself to SET. */
  datatype Op = Op(request: Request, owns: bool, pc: Pc, readAt: nat, wroteAt: nat, duty: seq<Row>)

  datatype State = State(
    rows: Table,
    mirror: map<Token, int>,
    slots: map<Key, Slot>,
    ops: map<OpId, Op>,
    now: int,
    ttl: nat,
    clock: nat,
    marks: seq<Option<nat>>,
    births: map<nat, OpId>)

  /** What the outside world decides in a step. */
  datatype Env = Env(minted: Token, family: Family, access: nat, userExists: bool, pick: nat)

  datatype Step =
    | Tick(ms: nat)
    | Begin(op: OpId, request: Request)
    | Go(op: OpId, env: Env)
    | Crash(op: OpId)

  // ---------------------------------------------------------------------------
  // One await of one request
  // ---------------------------------------------------------------------------

  function At(s: State, o: OpId, pc: Pc): State
    requires o in s.ops
  {
    s.(ops := s.ops[o := s.ops[o].(pc := pc)])
  }

  /** The slot as GET and SET NX see it: a lapsed one is gone. */
  function SlotOf(s: State, k: Key): Option<SlotValue> {
    if k in s.slots && s.now < s.slots[k].expiresAt then Some(s.slots[k].value) else None
  }

  function Claim(s: State, o: OpId, k: Key): State
    requires o in s.ops
  {
    if SlotOf(s, k).None? then
      s.(slots := s.slots[k := Slot(Pending, SecondsFromNow(s.now, CLAIM_TTL_SECONDS))],
         ops := s.ops[o := s.ops[o].(owns := true, pc := Selecting)])
    else At(s, o, Polling(0))
  }

  /** What one pass of the wait loop decides: keep polling, give up, or answer from the cache. */
  function AfterPoll(seen: Option<SlotValue>, attempt: nat, presented: Token): Pc {
    match seen
    case None => Selecting
    case Some(Complete(cached)) => if cached.presented == presented then Finished(Replayed(cached.pair)) else Selecting
    case Some(Pending) => if attempt + 1 < CLAIM_WAIT_ATTEMPTS then Polling(attempt + 1) else Selecting
  }

  /** The request after its SELECT; a `pick` the query could not return leaves it waiting. */
  function Select(s: State, op: Op, pick: nat): Op {
    var read := op.(readAt := s.clock);
    match op.request
    case Login(_) => op
    case LogoutUser(user) =>
      if MostRecentLive(s.rows, user, pick) then read.(pc := Checking(Some((pick, s.rows[pick]))))
      else if NoneLive(s.rows, user) then read.(pc := Checking(None))
      else op
    case Refresh(token, _) => read.(pc := Checking(Lookup(s.rows, token)))
    case LogoutToken(token) => read.(pc := Checking(Lookup(s.rows, token)))
  }

  function Lookup(t: Table, token: Token): Option<(nat, Row)> {
    match FindToken(t, token)
    case None => None
    case Some(id) => Some((id, t[id]))
  }

  /** The owner of a claim releases it before it reports a failed rotation. */
  function Failing(op: Op, why: Why): Pc {
    if op.owns then Releasing(why) else Finished(Denied(why))
  }

  function AfterCheck(op: Op, found: Option<(nat, Row)>, now: int): Pc {
    match found
    case None => if op.request.Refresh? then Failing(op, Invalid) else Finished(LoggedOut)
    case Some((id, row)) =>
      if op.request.Refresh? && !row.Live() then FamilySelecting(row.family)
      else if op.request.Refresh? && row.expiresAt <= now then Failing(op, Expired)
      else if op.request.LogoutToken? && !row.Live() then Finished(LoggedOut)
      else Updating(id, row, now)
  }

  /** With no live row left, the family SELECT is where the family was last seen dead. */
  function FamilySelect(s: State, o: OpId, family: Family): State
    requires o in s.ops
  {
    var active := SelectLive(s.rows, family);
    if active != [] then At(s, o, FamilyUpdating(family, active, s.now))
    else s.(ops := s.ops[o := s.ops[o].(wroteAt := s.clock, pc := Failing(s.ops[o], Reuse))])
  }

  function FamilyUpdate(s: State, o: OpId, family: Family, active: seq<Row>, at: int): State
    requires o in s.ops
  {
    s.(rows := UpdateFamily(s.rows, family, at, ReuseDetected),
       ops := s.ops[o := s.ops[o].(wroteAt := s.clock, duty := active, pc := FamilyMirroring(active))])
  }

  /** One SET; a connection executes them in the order they were issued. */
  function FamilyMirror(s: State, o: OpId, rest: seq<Row>): State
    requires o in s.ops
  {
    if rest == [] then At(s, o, Failing(s.ops[o], Reuse))
    else At(s.(mirror := H.MirrorRevocation(s.mirror, rest[0].token, rest[0].expiresAt, s.now)), o,
      FamilyMirroring(rest[1..]))
  }

  function Update(s: State, o: OpId, id: nat, row: Row, at: int): State
    requires o in s.ops
  {
    if id >= |s.rows| then s
    else
      var reason := if s.ops[o].request.Refresh? then Rotation else Logout;
      s.(rows := UpdateById(s.rows, id, at, reason),
         ops := s.ops[o := s.ops[o].(wroteAt := s.clock, duty := [row], pc := Mirroring(id, row))])
  }

  function Mirror(s: State, o: OpId, id: nat, row: Row): State
    requires o in s.ops
  {
    At(s.(mirror := H.MirrorRevocation(s.mirror, row.token, row.expiresAt, s.now)), o,
       if s.ops[o].request.Refresh? then Inserting(id, row) else Finished(LoggedOut))
  }

  function InsertChild(s: State, o: OpId, id: nat, row: Row, minted: Token): State
    requires o in s.ops
  {
    var child := Row(row.user, minted, row.family, s.now, SecondsFromNow(s.now, s.ttl), None, Some(id));
    match Insert(s.rows, child)
    case None => At(s, o, Finished(Crashed))
    case Some(rows) => At(s.(rows := rows, births := s.births[|s.rows| := o]), o, FindingUser(row.user, minted))
  }

  function InsertRoot(s: State, o: OpId, env: Env): State
    requires o in s.ops && s.ops[o].request.Login?
  {
    var user := s.ops[o].request.user;
    if !H.FreshFamily(s.rows, env.family) then s
    else
      match Insert(s.rows, Row(user, env.minted, env.family, s.now, SecondsFromNow(s.now, s.ttl), None, None))
      case None => At(s, o, Finished(Crashed))
      case Some(rows) => At(s.(rows := rows), o, Finished(Issued(Pair(user, env.access, env.minted))))
  }

  /** A missing user ends the request without completing or releasing its claim. */
  function FindUser(s: State, o: OpId, user: User, minted: Token, env: Env): State
    requires o in s.ops
  {
    if !env.userExists then At(s, o, Finished(Denied(NoUser)))
    else
      var pair := Pair(user, env.access, minted);
      At(s, o, if s.ops[o].owns then Completing(pair) else Finished(Issued(pair)))
  }

  /** The key of a refresh request that has one. */
  predicate Keyed(op: Op) { op.request.Refresh? && op.request.key.Some? }

  function KeyOf(op: Op): Key
    requires Keyed(op)
  {
    op.request.key.value
  }

  function CompleteClaim(s: State, o: OpId, pair: Pair): State
    requires o in s.ops && Keyed(s.ops[o])
  {
    var cached := Cached(pair, s.ops[o].request.token);
    At(s.(slots := s.slots[KeyOf(s.ops[o]) := Slot(Complete(cached), SecondsFromNow(s.now, CLAIM_TTL_SECONDS))]),
       o, Finished(Issued(pair)))
  }

  function ReleaseClaim(s: State, o: OpId, why: Why): State
    requires o in s.ops && Keyed(s.ops[o])
  {
    At(s.(slots := s.slots - {KeyOf(s.ops[o])}), o, Finished(Denied(why)))
  }

  function Advance(s: State, o: OpId, env: Env): State
    requires o in s.ops
  {
    var op := s.ops[o];
    match op.pc
    case LoginInserting => if op.request.Login? then InsertRoot(s, o, env) else s
    case Claiming => if Keyed(op) then Claim(s, o, KeyOf(op)) else s
    case Polling(n) => if Keyed(op) then At(s, o, AfterPoll(SlotOf(s, KeyOf(op)), n, op.request.token)) else s
    case Selecting => s.(ops := s.ops[o := Select(s, op, env.pick)])
    case Checking(found) => At(s, o, AfterCheck(op, found, s.now))
    case FamilySelecting(family) => FamilySelect(s, o, family)
    case FamilyUpdating(family, active, at) => FamilyUpdate(s, o, family, active, at)
    case FamilyMirroring(rest) => FamilyMirror(s, o, rest)
    case Updating(id, row, at) => Update(s, o, id, row, at)
    case Mirroring(id, row) => Mirror(s, o, id, row)
    case Inserting(id, row) => InsertChild(s, o, id, row, env.minted)
    case FindingUser(user, minted) => FindUser(s, o, user, minted, env)
    case Completing(pair) => if Keyed(op) then CompleteClaim(s, o, pair) else s
    case Releasing(why) => if Keyed(op) then ReleaseClaim(s, o, why) else s
    case Finished(_) => s
  }

  // ---------------------------------------------------------------------------
  // Runs
  // ---------------------------------------------------------------------------

  function FirstPc(request: Request): Pc {
    match request
    case Login(_) => LoginInserting
    case Refresh(_, key) => if key.Some? then Claiming else Selecting
    case _ => Selecting
  }

  function Act(s: State, step: Step): State {
    match step
    case Tick(ms) => s.(now := s.now + ms)
    case Begin(o, request) =>
      if o in s.ops then s else s.(ops := s.ops[o := Op(request, false, FirstPc(request), 0, 0, [])])
    case Go(o, env) => if o in s.ops then Advance(s, o, env) else s
    case Crash(o) => if o in s.ops && !s.ops[o].pc.Finished? then At(s, o, Finished(Crashed)) else s
  }

  /** `marks` remembers, for every revoked row, the moment it left the live set. */
  function Marked(marks: seq<Option<nat>>, t: Table, clock: nat): seq<Option<nat>> {
    seq(|t|, i requires 0 <= i < |t| =>
      if t[i].Live() then None else if i < |marks| && marks[i].Some? then marks[i] else Some(clock))
  }

  /** `u` follows `s`: the clock moves on and new revocations are marked. */
  function Stamp(s: State, u: State): State {
    u.(clock := s.clock + 1, marks := Marked(s.marks, u.rows, s.clock))
  }

  function Next(s: State, step: Step): State {
    Stamp(s, Act(s, step))
  }

  function Run(s: State, steps: seq<Step>): State {
    if steps == [] then s else Next(Run(s, steps[..|steps| - 1]), steps[|steps| - 1])
  }

  function Start(now: int, ttl: nat): State {
    State([], map[], map[], map[], now, ttl, 0, [], map[])
  }
}
