/**
 * The handlers of refreshToken.service.ts, each as one indivisible step over the
 * `refresh_tokens` table and its Redis mirror, and what every run of them keeps.
 */
module RefreshHandlers {
  import opened Wrappers
  import opened Time
  import opened RefreshTokenTable

  /** `mirror` holds the `revoked:refresh:<hash>` keys with the instant each expires. */
  datatype Store = Store(rows: Table, mirror: map<Token, int>)

  datatype RotateOutcome =
    | Rotated(user: User, issued: Token)
    | Invalid
    | Expired
    | Reuse(family: Family)
    | InsertFailed

  // ---------------------------------------------------------------------------
  // The mirror (token.service.ts, cacheRefreshTokenRevocation)
  // ---------------------------------------------------------------------------

  predicate Mirrored(mirror: map<Token, int>, token: Token, now: int) {
    token in mirror && now < mirror[token]
  }

  function MirrorRevocation(mirror: map<Token, int>, token: Token, expiresAt: int, now: int): map<Token, int> {
    var ttl := TtlSecondsUntil(now, expiresAt);
    if ttl <= 0 then mirror else mirror[token := now + ttl * MS_PER_SECOND]
  }

  function MirrorAll(mirror: map<Token, int>, rows: seq<Row>, now: int): map<Token, int> {
    if rows == [] then mirror
    else
      var last := rows[|rows| - 1];
      MirrorRevocation(MirrorAll(mirror, rows[..|rows| - 1], now), last.token, last.expiresAt, now)
  }

  lemma MirrorAllSnoc(mirror: map<Token, int>, rows: seq<Row>, row: Row, now: int)
    ensures MirrorAll(mirror, rows + [row], now)
         == MirrorRevocation(MirrorAll(mirror, rows, now), row.token, row.expiresAt, now)
  {
    assert (rows + [row])[..|rows|] == rows;
  }

  // ---------------------------------------------------------------------------
  // Handlers
  // ---------------------------------------------------------------------------

  function Issue(s: Store, now: int, ttl: nat, user: User, token: Token, family: Family,
                 parent: Option<nat>): Option<Store> {
    match Insert(s.rows, Row(user, token, family, now, SecondsFromNow(now, ttl), None, parent))
    case None => None
    case Some(rows) => Some(s.(rows := rows))
  }

  function RevokeFamily(s: Store, now: int, family: Family, reason: Reason): Store {
    var active := SelectLive(s.rows, family);
    if active == [] then s
    else Store(UpdateFamily(s.rows, family, now, reason), MirrorAll(s.mirror, active, now))
  }

  function RevokeRow(s: Store, now: int, id: nat, reason: Reason): Store
    requires id < |s.rows|
  {
    Store(UpdateById(s.rows, id, now, reason),
          MirrorRevocation(s.mirror, s.rows[id].token, s.rows[id].expiresAt, now))
  }

  function Rotate(s: Store, now: int, ttl: nat, token: Token, minted: Token): (Store, RotateOutcome) {
    match FindToken(s.rows, token)
    case None => (s, Invalid)
    case Some(id) =>
      var row := s.rows[id];
      if !row.Live() then (RevokeFamily(s, now, row.family, ReuseDetected), Reuse(row.family))
      else if row.expiresAt <= now then (s, Expired)
      else
        var revoked := RevokeRow(s, now, id, Rotation);
        match Issue(revoked, now, ttl, row.user, minted, row.family, Some(id))
        case None => (revoked, InsertFailed)
        case Some(issued) => (issued, Rotated(row.user, minted))
  }

  function LogoutToken(s: Store, now: int, token: Token): Store {
    match FindToken(s.rows, token)
    case None => s
    case Some(id) => if s.rows[id].Live() then RevokeRow(s, now, id, Logout) else s
  }

  // ---------------------------------------------------------------------------
  // Runs
  // ---------------------------------------------------------------------------

  datatype Step =
    | Tick(ms: nat)
    | LoginStep(user: User, token: Token, family: Family)
    | RotateStep(token: Token, minted: Token)
    | LogoutTokenStep(token: Token)
    | LogoutUserStep(user: User, pick: nat)

  datatype State = State(store: Store, now: int, ttl: nat)

  /** A login mints a random family; a step that would reuse one does nothing. */
  predicate FreshFamily(t: Table, family: Family) {
    forall i :: 0 <= i < |t| ==> t[i].family != family
  }

  function Next(s: State, step: Step): State {
    match step
    case Tick(ms) => s.(now := s.now + ms)
    case LoginStep(user, token, family) =>
      if !FreshFamily(s.store.rows, family) then s
      else (match Issue(s.store, s.now, s.ttl, user, token, family, None)
            case None => s
            case Some(store) => s.(store := store))
    case RotateStep(token, minted) => s.(store := Rotate(s.store, s.now, s.ttl, token, minted).0)
    case LogoutTokenStep(token) => s.(store := LogoutToken(s.store, s.now, token))
    case LogoutUserStep(user, pick) =>
      if MostRecentLive(s.store.rows, user, pick) then s.(store := RevokeRow(s.store, s.now, pick, Logout)) else s
  }

  function Run(s: State, steps: seq<Step>): State {
    if steps == [] then s else Next(Run(s, steps[..|steps| - 1]), steps[|steps| - 1])
  }

  function Start(now: int, ttl: nat): State {
    State(Store([], map[]), now, ttl)
  }

  // ---------------------------------------------------------------------------
  // What every run keeps
  // ---------------------------------------------------------------------------

  /** For every unexpired row: its mirror key is present if and only if the row is revoked. */
  ghost predicate MirrorAgrees(s: Store, now: int) {
    forall i :: 0 <= i < |s.rows| && now < s.rows[i].expiresAt ==>
      (Mirrored(s.mirror, s.rows[i].token, now) <==> !s.rows[i].Live())
  }

  /** A key stands for a revoked row and expires within a second of it; only rows revoked too late have none. */
  ghost predicate RowTight(mirror: map<Token, int>, row: Row) {
    if row.token in mirror
    then !row.Live() && row.expiresAt <= mirror[row.token] < row.expiresAt + MS_PER_SECOND
    else row.Live() || row.expiresAt <= row.revoked.value.at
  }

  ghost predicate MirrorTight(s: Store) {
    && (forall token :: token in s.mirror ==> FindToken(s.rows, token).Some?)
    && (forall i {:trigger RowTight(s.mirror, s.rows[i])} :: 0 <= i < |s.rows| ==> RowTight(s.mirror, s.rows[i]))
  }

  /** A rotated row was still unexpired, and its revocation carries reason and time of its child's issue. */
  ghost predicate RotatedForRotation(t: Table) {
    forall i {:trigger WellRotated(t, i)} :: 0 <= i < |t| ==> WellRotated(t, i)
  }

  ghost predicate WellRotated(t: Table, i: nat)
    requires i < |t|
  {
    t[i].parent.Some? ==> RotatedInto(t, t[i].parent.value, t[i])
  }

  ghost predicate RotatedInto(t: Table, p: nat, child: Row) {
    p < |t| && t[p].revoked == Some(Revocation(child.issuedAt, Rotation)) && child.issuedAt < t[p].expiresAt
  }

  ghost predicate PastStamps(t: Table, now: int) {
    forall i {:trigger Stamped(t[i], now)} :: 0 <= i < |t| ==> Stamped(t[i], now)
  }

  ghost predicate Stamped(row: Row, now: int) {
    row.issuedAt <= now && (!row.Live() ==> row.issuedAt <= row.revoked.value.at <= now)
  }

  ghost predicate TableInv(t: Table, now: int) {
    Forest(t) && Chain(t) && RotatedForRotation(t) && PastStamps(t, now)
  }

  ghost predicate Inv(s: State) {
    TableInv(s.store.rows, s.now) && MirrorTight(s.store)
  }

  /** `u` is `t` with some live rows revoked. */
  ghost predicate Revokes(t: Table, u: Table, now: int, reason: Reason) {
    |u| == |t| && forall i :: 0 <= i < |t| ==> u[i] == t[i] || (t[i].Live() && u[i] == t[i].Revoke(now, reason))
  }

  /** `m` is `mirror` with a key written for each unexpired row that `u` revokes and `t` does not. */
  ghost predicate MirrorsRevoked(t: Table, u: Table, mirror: map<Token, int>, m: map<Token, int>, now: int)
    requires |u| == |t|
  {
    && (forall token :: token in m ==> FindToken(t, token).Some?)
    && (forall i :: 0 <= i < |t| ==>
          var token := t[i].token;
          if u[i] != t[i] && now < t[i].expiresAt
          then token in m && m[token] == now + TtlSecondsUntil(now, t[i].expiresAt) * MS_PER_SECOND
          else SameKey(mirror, m, token))
  }

  predicate SameKey(mirror: map<Token, int>, m: map<Token, int>, token: Token) {
    (token in m <==> token in mirror) && (token in m ==> m[token] == mirror[token])
  }

  lemma RevokesKeepsTable(t: Table, u: Table, now: int, reason: Reason)
    requires TableInv(t, now) && Revokes(t, u, now, reason)
    ensures TableInv(u, now) && Extends(t, u)
  {
    RevokingKeepsForest(t, u);
    forall i | 0 <= i < |u|
      ensures WellRotated(u, i) && Stamped(u[i], now)
    {
      assert WellRotated(t, i) && Stamped(t[i], now);
    }
  }

  lemma FindsSame(t: Table, u: Table, token: Token)
    requires |u| == |t| && forall i :: 0 <= i < |t| ==> u[i].token == t[i].token
    ensures FindToken(t, token).Some? ==> FindToken(u, token).Some?
  {
    if FindToken(t, token).Some? {
      assert u[FindToken(t, token).value].token == token;
    }
  }

  lemma RevokesKeepsMirror(t: Table, u: Table, mirror: map<Token, int>, m: map<Token, int>, now: int, reason: Reason)
    requires MirrorTight(Store(t, mirror)) && Revokes(t, u, now, reason) && MirrorsRevoked(t, u, mirror, m, now)
    ensures MirrorTight(Store(u, m))
  {
    forall token | token in m
      ensures FindToken(u, token).Some?
    {
      FindsSame(t, u, token);
    }
    forall i | 0 <= i < |u|
      ensures RowTight(m, u[i])
    {
      assert RowTight(mirror, t[i]);
      if now < t[i].expiresAt {
        TtlOvershoot(now, t[i].expiresAt);
      }
    }
  }

  lemma FindsRow(t: Table, i: nat)
    requires Forest(t) && i < |t|
    ensures FindToken(t, t[i].token) == Some(i)
  {
    var j := FindToken(t, t[i].token).value;
    assert j < i ==> Apart(t, j, i);
    assert i < j ==> Apart(t, i, j);
  }

  lemma RevokeRowKeeps(s: Store, now: int, id: nat, reason: Reason)
    requires TableInv(s.rows, now) && MirrorTight(s) && id < |s.rows| && s.rows[id].Live()
    ensures var u := RevokeRow(s, now, id, reason);
            TableInv(u.rows, now) && MirrorTight(u) && Extends(s.rows, u.rows) &&
              u.rows[id].revoked == Some(Revocation(now, reason))
  {
    var u := RevokeRow(s, now, id, reason);
    assert Revokes(s.rows, u.rows, now, reason);
    RevokesKeepsTable(s.rows, u.rows, now, reason);
    forall i | 0 <= i < |s.rows| && i != id
      ensures s.rows[i].token != s.rows[id].token
    {
      FindsRow(s.rows, i);
      FindsRow(s.rows, id);
    }
    RevokesKeepsMirror(s.rows, u.rows, s.mirror, u.mirror, now, reason);
  }

  predicate OneRowPerToken(rows: seq<Row>) {
    forall i, j :: 0 <= i < |rows| && 0 <= j < |rows| && rows[i].token == rows[j].token ==> rows[i] == rows[j]
  }

  lemma {:induction false} MirrorAllAt(mirror: map<Token, int>, rows: seq<Row>, now: int, token: Token)
    requires OneRowPerToken(rows)
    ensures var m := MirrorAll(mirror, rows, now);
            && ((forall r :: r in rows ==> r.token != token) ==> SameKey(mirror, m, token))
            && (forall r :: r in rows && r.token == token ==>
                  if now < r.expiresAt
                    then token in m && m[token] == now + TtlSecondsUntil(now, r.expiresAt) * MS_PER_SECOND
                  else SameKey(mirror, m, token))
  {
    if rows != [] {
      MirrorAllAt(mirror, rows[..|rows| - 1], now, token);
    }
  }

  lemma SelectedRow(t: Table, family: Family, row: Row) returns (i: nat)
    requires Forest(t) && row in SelectLive(t, family)
    ensures i < |t| && t[i] == row && FindToken(t, row.token) == Some(i)
  {
    i :| 0 <= i < |t| && t[i] == row;
    FindsRow(t, i);
  }

  lemma SelectsOncePerToken(t: Table, family: Family)
    requires Forest(t)
    ensures OneRowPerToken(SelectLive(t, family))
  {
    var active := SelectLive(t, family);
    forall i, j | 0 <= i < |active| && 0 <= j < |active| && active[i].token == active[j].token
      ensures active[i] == active[j]
    {
      var a := SelectedRow(t, family, active[i]);
      var b := SelectedRow(t, family, active[j]);
    }
  }

  /** The key of row i after its family's keys have been written. */
  lemma FamilyMirrorAt(s: Store, now: int, family: Family, i: nat)
    requires Forest(s.rows) && i < |s.rows|
    ensures var row, m := s.rows[i], MirrorAll(s.mirror, SelectLive(s.rows, family), now);
            if row.family == family && row.Live() && now < row.expiresAt
            then row.token in m && m[row.token] == now + TtlSecondsUntil(now, row.expiresAt) * MS_PER_SECOND
            else SameKey(s.mirror, m, row.token)
  {
    var t, active := s.rows, SelectLive(s.rows, family);
    SelectsOncePerToken(t, family);
    MirrorAllAt(s.mirror, active, now, t[i].token);
    FindsRow(t, i);
    forall r | r in active && r.token == t[i].token
      ensures r == t[i]
    {
      var a := SelectedRow(t, family, r);
    }
  }

  lemma FamilyMirror(s: Store, now: int, family: Family, reason: Reason)
    requires Forest(s.rows) && MirrorTight(s)
    ensures MirrorsRevoked(s.rows, UpdateFamily(s.rows, family, now, reason), s.mirror,
                           MirrorAll(s.mirror, SelectLive(s.rows, family), now), now)
  {
    var t, active := s.rows, SelectLive(s.rows, family);
    var m := MirrorAll(s.mirror, active, now);
    SelectsOncePerToken(t, family);
    forall token | token in m
      ensures FindToken(t, token).Some?
    {
      MirrorAllAt(s.mirror, active, now, token);
    }
    forall i | 0 <= i < |t|
      ensures var u := UpdateFamily(t, family, now, reason);
              if u[i] != t[i] && now < t[i].expiresAt
              then t[i].token in m && m[t[i].token] == now + TtlSecondsUntil(now, t[i].expiresAt) * MS_PER_SECOND
              else SameKey(s.mirror, m, t[i].token)
    {
      FamilyMirrorAt(s, now, family, i);
    }
  }

  lemma RevokeFamilyKeeps(s: Store, now: int, family: Family, reason: Reason)
    requires TableInv(s.rows, now) && MirrorTight(s)
    ensures var u := RevokeFamily(s, now, family, reason);
            TableInv(u.rows, now) && MirrorTight(u) && Extends(s.rows, u.rows) && Dead(u.rows, family)
  {
    var active := SelectLive(s.rows, family);
    if active == [] {
      assert forall i :: 0 <= i < |s.rows| && s.rows[i].family == family && s.rows[i].Live() ==> s.rows[i] in active;
    } else {
      var u := UpdateFamily(s.rows, family, now, reason);
      RevokesKeepsTable(s.rows, u, now, reason);
      FamilyMirror(s, now, family, reason);
      RevokesKeepsMirror(s.rows, u, s.mirror, MirrorAll(s.mirror, active, now), now, reason);
    }
  }

  /** What a handler knows of the row it is about to hang the next one from. */
  ghost predicate ReadyParent(t: Table, p: nat, row: Row) {
    && p < |t| && t[p].user == row.user && t[p].family == row.family
    && RotatedInto(t, p, row)
    && forall i :: 0 <= i < |t| ==> t[i].parent != Some(p)
  }

  lemma AppendKeepsTable(t: Table, row: Row, now: int)
    requires TableInv(t, now) && FindToken(t, row.token).None? && row.Live() && row.issuedAt == now
    requires row.parent.None? ==> FreshFamily(t, row.family)
    requires row.parent.Some? ==> ReadyParent(t, row.parent.value, row)
    ensures TableInv(t + [row], now) && Extends(t, t + [row])
  {
    InsertKeepsForest(t, row);
    var u := t + [row];
    forall i | 0 <= i < |u|
      ensures WellRotated(u, i) && Stamped(u[i], now)
    {
      if i < |t| {
        assert WellRotated(t, i) && Stamped(t[i], now);
      }
    }
    forall i, j | 0 <= i < j < |u|
      ensures !Siblings(u, i, j)
    {
      if j < |t| {
        assert !Siblings(t, i, j);
      }
    }
  }

  lemma IssueKeeps(s: Store, now: int, ttl: nat, user: User, token: Token, family: Family, parent: Option<nat>)
    requires TableInv(s.rows, now) && MirrorTight(s)
    requires parent.None? ==> FreshFamily(s.rows, family)
    requires parent.Some? ==>
               ReadyParent(s.rows, parent.value, Row(user, token, family, now, SecondsFromNow(now, ttl), None, parent))
    ensures var u := Issue(s, now, ttl, user, token, family, parent);
            u.Some? ==> TableInv(u.value.rows, now) && MirrorTight(u.value) && Extends(s.rows, u.value.rows)
  {
    var row := Row(user, token, family, now, SecondsFromNow(now, ttl), None, parent);
    if FindToken(s.rows, token).None? {
      AppendKeepsTable(s.rows, row, now);
      IssuedTight(s, s.(rows := s.rows + [row]), row);
    }
  }

  lemma IssuedTight(s: Store, u: Store, row: Row)
    requires MirrorTight(s) && FindToken(s.rows, row.token).None? && row.Live()
    requires u == s.(rows := s.rows + [row])
    ensures MirrorTight(u)
  {
    forall token | token in u.mirror
      ensures FindToken(u.rows, token).Some?
    {
      assert u.rows[FindToken(s.rows, token).value].token == token;
    }
    assert forall i :: 0 <= i < |s.rows| ==> RowTight(s.mirror, s.rows[i]);
    assert RowTight(u.mirror, row);
  }

  lemma LiveRowHasNoChild(t: Table, p: nat)
    requires Forest(t) && p < |t| && t[p].Live()
    ensures forall i :: 0 <= i < |t| ==> t[i].parent != Some(p)
  {
    forall i | 0 <= i < |t|
      ensures t[i].parent != Some(p)
    {
      assert Placed(t, i);
    }
  }

  lemma RotateKeeps(s: Store, now: int, ttl: nat, token: Token, minted: Token)
    requires TableInv(s.rows, now) && MirrorTight(s)
    ensures var u := Rotate(s, now, ttl, token, minted).0;
            TableInv(u.rows, now) && MirrorTight(u) && Extends(s.rows, u.rows)
  {
    var found := FindToken(s.rows, token);
    if found.Some? {
      var id := found.value;
      var row := s.rows[id];
      if !row.Live() {
        RevokeFamilyKeeps(s, now, row.family, ReuseDetected);
      } else if now < row.expiresAt {
        var revoked := RevokeRow(s, now, id, Rotation);
        RevokeRowKeeps(s, now, id, Rotation);
        LiveRowHasNoChild(s.rows, id);
        IssueKeeps(revoked, now, ttl, row.user, minted, row.family, Some(id));
        var issued := Issue(revoked, now, ttl, row.user, minted, row.family, Some(id));
        if issued.Some? {
          ExtendsTransitive(s.rows, revoked.rows, issued.value.rows);
        }
      }
    }
  }

  lemma NextKeeps(s: State, step: Step)
    requires Inv(s)
    ensures Inv(Next(s, step)) && Extends(s.store.rows, Next(s, step).store.rows)
  {
    match step
    case Tick(ms) =>
      forall i | 0 <= i < |s.store.rows|
        ensures Stamped(s.store.rows[i], s.now + ms)
      {
        assert Stamped(s.store.rows[i], s.now);
      }
    case LoginStep(user, token, family) =>
      if FreshFamily(s.store.rows, family) {
        IssueKeeps(s.store, s.now, s.ttl, user, token, family, None);
      }
    case RotateStep(token, minted) => RotateKeeps(s.store, s.now, s.ttl, token, minted);
    case LogoutTokenStep(token) =>
      var found := FindToken(s.store.rows, token);
      if found.Some? && s.store.rows[found.value].Live() {
        RevokeRowKeeps(s.store, s.now, found.value, Logout);
      }
    case LogoutUserStep(user, pick) =>
      if MostRecentLive(s.store.rows, user, pick) {
        RevokeRowKeeps(s.store, s.now, pick, Logout);
      }
  }

  lemma {:induction false} RunKeeps(s: State, steps: seq<Step>)
    requires Inv(s)
    ensures Inv(Run(s, steps)) && Extends(s.store.rows, Run(s, steps).store.rows)
  {
    if steps != [] {
      var before := Run(s, steps[..|steps| - 1]);
      RunKeeps(s, steps[..|steps| - 1]);
      NextKeeps(before, steps[|steps| - 1]);
      ExtendsTransitive(s.store.rows, before.store.rows, Run(s, steps).store.rows);
    }
  }

  /** Over every run: families are chains, so each has at most one live row, and the mirror is exact. */
  lemma EveryRun(now: int, ttl: nat, steps: seq<Step>, family: Family)
    ensures var s := Run(Start(now, ttl), steps);
            && Forest(s.store.rows) && Chain(s.store.rows) && RotatedForRotation(s.store.rows)
            && AtMostOneLive(s.store.rows, family)
            && MirrorAgrees(s.store, s.now)
  {
    RunKeeps(Start(now, ttl), steps);
    var s := Run(Start(now, ttl), steps);
    ChainHasOneLive(s.store.rows, family);
    forall i | 0 <= i < |s.store.rows| && s.now < s.store.rows[i].expiresAt
      ensures Mirrored(s.store.mirror, s.store.rows[i].token, s.now) <==> !s.store.rows[i].Live()
    {
      assert RowTight(s.store.mirror, s.store.rows[i]) && Stamped(s.store.rows[i], s.now);
    }
  }

  /** The answer a rotation request gets in state `s`. */
  function Answer(s: State, token: Token, minted: Token): RotateOutcome {
    Rotate(s.store, s.now, s.ttl, token, minted).1
  }

  /** A row found once is found at the same place in every later state. */
  lemma StillFound(t: Table, u: Table, token: Token)
    requires Forest(t) && Forest(u) && Extends(t, u) && FindToken(t, token).Some?
    ensures FindToken(u, token) == FindToken(t, token)
  {
    var i := FindToken(t, token).value;
    assert RowKept(t, u, i);
    FindsRow(u, i);
  }

  /**
   * A token rotates successfully at most once: whatever happens in between, presenting it again
   * is answered as reuse of its family.
   */
  lemma RotatesAtMostOnce(now: int, ttl: nat, before: seq<Step>, token: Token, minted: Token, between: seq<Step>,
                          again: Token)
    requires Answer(Run(Start(now, ttl), before), token, minted).Rotated?
    ensures var s := Run(Start(now, ttl), before);
            var id := FindToken(s.store.rows, token).value;
            var later := Run(Next(s, RotateStep(token, minted)), between);
            Answer(later, token, again) == Reuse(s.store.rows[id].family)
  {
    var s := Run(Start(now, ttl), before);
    RunKeeps(Start(now, ttl), before);
    var rotated := Next(s, RotateStep(token, minted));
    NextKeeps(s, RotateStep(token, minted));
    RunKeeps(rotated, between);
    var later := Run(rotated, between);
    var id := FindToken(s.store.rows, token).value;
    StillFound(s.store.rows, rotated.store.rows, token);
    StillFound(rotated.store.rows, later.store.rows, token);
    assert !rotated.store.rows[id].Live();
    assert RowKept(s.store.rows, rotated.store.rows, id) && RowKept(rotated.store.rows, later.store.rows, id);
  }

  /** Where a step's new row, if any, comes from: a fresh family, or a row that was live. */
  lemma NewRowsFamily(s: State, step: Step)
    requires Inv(s)
    ensures var t, u := s.store.rows, Next(s, step).store.rows;
            && |t| <= |u| <= |t| + 1
            && (|u| > |t| ==>
                 FreshFamily(t, u[|t|].family) || exists i ::
                   0 <= i < |t| && t[i].Live() && t[i].family == u[|t|].family)
  {
    if step.RotateStep? {
      var found := FindToken(s.store.rows, step.token);
      if found.Some? {
        var row := s.store.rows[found.value];
        if row.Live() && s.now < row.expiresAt {
          var issued := Issue(RevokeRow(s.store, s.now, found.value, Rotation), s.now, s.ttl, row.user, step.minted,
            row.family, found);
          assert issued.Some? ==> Next(s, step).store == issued.value;
        }
      }
    }
  }

  lemma DeadFamilyStaysDead(s: State, step: Step, family: Family, id: nat)
    requires Inv(s) && Dead(s.store.rows, family) && id < |s.store.rows| && s.store.rows[id].family == family
    ensures Dead(Next(s, step).store.rows, family)
  {
    NextKeeps(s, step);
    NewRowsFamily(s, step);
    var t, u := s.store.rows, Next(s, step).store.rows;
    forall i | 0 <= i < |u| && u[i].family == family
      ensures !u[i].Live()
    {
      if i < |t| {
        assert RowKept(t, u, i);
      }
    }
  }

  lemma {:induction false} DeadFamilyRun(s: State, steps: seq<Step>, family: Family, id: nat)
    requires Inv(s) && Dead(s.store.rows, family) && id < |s.store.rows| && s.store.rows[id].family == family
    ensures Dead(Run(s, steps).store.rows, family)
  {
    if steps != [] {
      var before := Run(s, steps[..|steps| - 1]);
      DeadFamilyRun(s, steps[..|steps| - 1], family, id);
      RunKeeps(s, steps[..|steps| - 1]);
      assert RowKept(s.store.rows, before.store.rows, id);
      DeadFamilyStaysDead(before, steps[|steps| - 1], family, id);
    }
  }

  lemma DeadFamilyAnswers(s: State, family: Family, id: nat, minted: Token)
    requires Inv(s) && Dead(s.store.rows, family) && id < |s.store.rows| && s.store.rows[id].family == family
    ensures Answer(s, s.store.rows[id].token, minted) == Reuse(family)
  {
    FindsRow(s.store.rows, id);
  }

  lemma ReuseKillsFamily(s: State, token: Token, minted: Token, family: Family)
    requires Inv(s) && Answer(s, token, minted) == Reuse(family)
    ensures var killed := Next(s, RotateStep(token, minted)).store.rows;
            var id := FindToken(s.store.rows, token).value;
            Dead(killed, family) && id < |killed| && killed[id].family == family
  {
    NextKeeps(s, RotateStep(token, minted));
    RevokeFamilyKeeps(s.store, s.now, family, ReuseDetected);
    var id := FindToken(s.store.rows, token).value;
    assert RowKept(s.store.rows, Next(s, RotateStep(token, minted)).store.rows, id);
  }

  /**
   * Once any revoked token of a family is presented, the family has no live row in any later
   * state, and every later rotation of one of its tokens is answered as reuse.
   */
  lemma ReuseEndsTheFamily(now: int, ttl: nat, before: seq<Step>, token: Token, minted: Token, after: seq<Step>,
                           family: Family)
    requires Answer(Run(Start(now, ttl), before), token, minted) == Reuse(family)
    ensures var later := Run(Next(Run(Start(now, ttl), before), RotateStep(token, minted)), after);
            && Dead(later.store.rows, family)
            && forall id, m :: 0 <= id < |later.store.rows| && later.store.rows[id].family == family ==>
                 Answer(later, later.store.rows[id].token, m) == Reuse(family)
  {
    var s := Run(Start(now, ttl), before);
    RunKeeps(Start(now, ttl), before);
    ReuseKillsFamily(s, token, minted, family);
    var killed := Next(s, RotateStep(token, minted));
    NextKeeps(s, RotateStep(token, minted));
    DeadFamilyRun(killed, after, family, FindToken(s.store.rows, token).value);
    RunKeeps(killed, after);
    forall id, m | 0 <= id < |Run(killed, after).store.rows| && Run(killed, after).store.rows[id].family == family
      ensures Answer(Run(killed, after), Run(killed, after).store.rows[id].token, m) == Reuse(family)
    {
      DeadFamilyAnswers(Run(killed, after), family, id, m);
    }
  }

  // ---------------------------------------------------------------------------
  // Logouts
  // ---------------------------------------------------------------------------

  lemma LogoutKills(s: State, token: Token, id: nat)
    requires Inv(s) && FindToken(s.store.rows, token) == Some(id)
    ensures var t, u := s.store.rows, Next(s, LogoutTokenStep(token)).store.rows;
            Dead(u, t[id].family) <==> t[id].Live() || Dead(t, t[id].family)
  {
    var t, u := s.store.rows, Next(s, LogoutTokenStep(token)).store.rows;
    ChainHasOneLive(t, t[id].family);
    if t[id].Live() {
      assert u == UpdateById(t, id, s.now, Logout);
    }
  }

  /**
   * A logout with a token ends its session if and only if that token's row is still live (or no row
   * of the family is): then for good. With a token that has been rotated it changes nothing at all.
   */
  lemma LogoutEndsTheFamily(now: int, ttl: nat, before: seq<Step>, token: Token, id: nat, after: seq<Step>)
    requires FindToken(Run(Start(now, ttl), before).store.rows, token) == Some(id)
    ensures var s := Run(Start(now, ttl), before);
            var u, family := Next(s, LogoutTokenStep(token)), s.store.rows[id].family;
            && (Dead(u.store.rows, family) <==> s.store.rows[id].Live() || Dead(s.store.rows, family))
            && (!s.store.rows[id].Live() ==> u == s)
            && (s.store.rows[id].Live() ==> Dead(Run(u, after).store.rows, family))
  {
    var s := Run(Start(now, ttl), before);
    RunKeeps(Start(now, ttl), before);
    var u, family := Next(s, LogoutTokenStep(token)), s.store.rows[id].family;
    LogoutKills(s, token, id);
    NextKeeps(s, LogoutTokenStep(token));
    assert RowKept(s.store.rows, u.store.rows, id);
    if s.store.rows[id].Live() {
      DeadFamilyRun(u, after, family, id);
    }
  }

  /**
   * A logout without a token ends, for good, the family of the row it picks, a live row of the user
   * that was issued last; it touches no row of any other family.
   */
  lemma UserLogoutEndsTheFamily(now: int, ttl: nat, before: seq<Step>, user: User, pick: nat, after: seq<Step>)
    requires MostRecentLive(Run(Start(now, ttl), before).store.rows, user, pick)
    ensures var s := Run(Start(now, ttl), before);
            var t, u := s.store.rows, Next(s, LogoutUserStep(user, pick));
            && t[pick].user == user && t[pick].Live() && Dead(Run(u, after).store.rows, t[pick].family)
            && |u.store.rows| == |t| && (forall i :: 0 <= i < |t| && i != pick ==> u.store.rows[i] == t[i])
            && u.store.rows[pick] == t[pick].(revoked := Some(Revocation(s.now, Logout)))
  {
    var s := Run(Start(now, ttl), before);
    RunKeeps(Start(now, ttl), before);
    var t, u := s.store.rows, Next(s, LogoutUserStep(user, pick));
    ChainHasOneLive(t, t[pick].family);
    NextKeeps(s, LogoutUserStep(user, pick));
    DeadFamilyRun(u, after, t[pick].family, pick);
  }

  /** A login, a rotation, and a logout with the first token: the session goes on. */
  lemma LogoutWithARotatedToken(now: int, ttl: nat)
    requires ttl > 0
    ensures var s := Run(Start(now, ttl), [LoginStep(3, 7, 0), RotateStep(7, 8), LogoutTokenStep(7)]);
            !Dead(s.store.rows, 0)
  {
    var steps := [LoginStep(3, 7, 0), RotateStep(7, 8), LogoutTokenStep(7)];
    var s1 := Next(Start(now, ttl), steps[0]);
    var s2 := Next(s1, steps[1]);
    assert s1.store.rows == [Row(3, 7, 0, now, SecondsFromNow(now, ttl), None, None)];
    assert FindToken(s1.store.rows, 7) == Some(0);
    assert FindToken(UpdateById(s1.store.rows, 0, now, Rotation), 8).None?;
    assert |s2.store.rows| == 2 && s2.store.rows[1].Live() && !s2.store.rows[0].Live();
    assert s2.store.rows[..1] == [s2.store.rows[0]];
    assert FindToken(s2.store.rows, 7) == Some(0);
    assert steps[..2][..1] == [steps[0]] && steps[..1][..0] == [] && steps[..2][1] == steps[1];
    assert Run(Start(now, ttl), steps[..1]) == s1;
    assert Run(Start(now, ttl), steps[..2]) == s2;
  }
}
