/**
 * The `refresh_tokens` table (src/db/schema.ts) and the SQL statements refreshToken.service.ts
 * runs against it. A row's id is its position; a token is named by its hash. `parent` is history
 * the table does not store: the row this one was rotated from.
 */
module RefreshTokenTable {
  import opened Wrappers

  type Token = nat
  type User = nat
  type Family = nat

  datatype Reason = Logout | Rotation | ReuseDetected

  datatype Revocation = Revocation(at: int, reason: Reason)

  datatype Row = Row(
    user: User,
    token: Token,
    family: Family,
    issuedAt: int,
    expiresAt: int,
    revoked: Option<Revocation>,
    parent: Option<nat>)
  {
    predicate Live() { revoked.None? }

    /** Equality on the columns no statement updates. */
    predicate SameIdentity(other: Row) {
      this.(revoked := None) == other.(revoked := None)
    }

    /** SET revoked_at = at, revocation_reason = reason. */
    function Revoke(at: int, reason: Reason): Row {
      this.(revoked := Some(Revocation(at, reason)))
    }
  }

  type Table = seq<Row>

  /** SELECT ... WHERE token_hash = token LIMIT 1. */
  function FindToken(t: Table, token: Token): (found: Option<nat>)
    ensures found.Some? ==> found.value < |t| && t[found.value].token == token
    ensures found.None? ==> forall i :: 0 <= i < |t| ==> t[i].token != token
  {
    if t == [] then None
    else if t[|t| - 1].token == token then Some(|t| - 1)
    else FindToken(t[..|t| - 1], token)
  }

  /** SELECT ... WHERE session_family = family AND revoked_at IS NULL. */
  function SelectLive(t: Table, family: Family): (rows: seq<Row>)
    ensures forall row :: row in rows <==> row in t && row.family == family && row.Live()
  {
    if t == [] then []
    else
      var last := t[|t| - 1];
      assert forall row :: row in t <==> row in t[..|t| - 1] || row == last;
      SelectLive(t[..|t| - 1], family) + (if last.family == family && last.Live() then [last] else [])
  }

  ghost predicate Dead(t: Table, family: Family) {
    forall i :: 0 <= i < |t| && t[i].family == family ==> !t[i].Live()
  }

  lemma NothingSelected(t: Table, family: Family)
    requires SelectLive(t, family) == []
    ensures Dead(t, family)
  {
    assert forall i :: 0 <= i < |t| && t[i].family == family && t[i].Live() ==> t[i] in SelectLive(t, family);
  }

  /** Is `id` a possible answer of ORDER BY issued_at DESC LIMIT 1 over the user's live rows? */
  predicate MostRecentLive(t: Table, user: User, id: nat) {
    && id < |t| && t[id].user == user && t[id].Live()
    && forall i :: 0 <= i < |t| && t[i].user == user && t[i].Live() ==> t[i].issuedAt <= t[id].issuedAt
  }

  predicate NoneLive(t: Table, user: User) {
    forall i :: 0 <= i < |t| && t[i].user == user ==> !t[i].Live()
  }

  /** SELECT ... WHERE user_id = user AND revoked_at IS NULL ORDER BY issued_at DESC LIMIT 1. */
  function SelectMostRecent(t: Table, user: User): (found: Option<nat>)
    ensures found.Some? ==> MostRecentLive(t, user, found.value)
    ensures found.None? ==> NoneLive(t, user)
  {
    if t == [] then None
    else
      var n := |t| - 1;
      var rest := SelectMostRecent(t[..n], user);
      if t[n].user == user && t[n].Live() && (rest.Some? ==> t[rest.value].issuedAt <= t[n].issuedAt) then Some(n)
      else rest
  }

  /** UPDATE ... WHERE id = id: guarded by the id alone. */
  function UpdateById(t: Table, id: nat, at: int, reason: Reason): Table
    requires id < |t|
  {
    t[id := t[id].Revoke(at, reason)]
  }

  /** UPDATE ... WHERE session_family = family AND revoked_at IS NULL. */
  function UpdateFamily(t: Table, family: Family, at: int, reason: Reason): Table {
    seq(|t|, i requires 0 <= i < |t| =>
      if t[i].family == family && t[i].Live() then t[i].Revoke(at, reason) else t[i])
  }

  /** INSERT; None when the unique index on token_hash refuses the row. */
  function Insert(t: Table, row: Row): Option<Table> {
    if FindToken(t, row.token).Some? then None else Some(t + [row])
  }

  // ---------------------------------------------------------------------------
  // What a run may do to the table
  // ---------------------------------------------------------------------------

  ghost predicate RowKept(t: Table, u: Table, i: nat)
    requires i < |t| <= |u|
  {
    t[i].SameIdentity(u[i]) && (!t[i].Live() ==> !u[i].Live())
  }

  /** `u` is a later state of `t`: rows are never removed or rewritten, and never come back to life. */
  ghost predicate Extends(t: Table, u: Table) {
    |t| <= |u| && forall i {:trigger RowKept(t, u, i)} :: 0 <= i < |t| ==> RowKept(t, u, i)
  }

  lemma ExtendsTransitive(t: Table, u: Table, v: Table)
    requires Extends(t, u) && Extends(u, v)
    ensures Extends(t, v)
  {
    forall i | 0 <= i < |t|
      ensures RowKept(t, v, i)
    {
      assert RowKept(t, u, i) && RowKept(u, v, i);
    }
  }

  ghost predicate Apart(t: Table, i: nat, j: nat)
    requires i < |t| && j < |t|
  {
    t[i].token != t[j].token && (t[i].parent.None? && t[j].parent.None? ==> t[i].family != t[j].family)
  }

  ghost predicate ChildOf(t: Table, i: nat, p: nat)
    requires i < |t|
  {
    p < i && t[p].user == t[i].user && t[p].family == t[i].family && !t[p].Live()
  }

  ghost predicate Placed(t: Table, i: nat)
    requires i < |t|
  {
    t[i].parent.Some? ==> ChildOf(t, i, t[i].parent.value)
  }

  /**
   * Tokens are unique, a family has one row without a parent, and each other row hangs below
   * an earlier, revoked row of the same user and family.
   */
  ghost predicate Forest(t: Table) {
    && (forall i, j {:trigger Apart(t, i, j)} :: 0 <= i < j < |t| ==> Apart(t, i, j))
    && (forall i {:trigger Placed(t, i)} :: 0 <= i < |t| ==> Placed(t, i))
  }

  ghost predicate Siblings(t: Table, i: nat, j: nat)
    requires i < |t| && j < |t|
  {
    t[i].parent.Some? && t[i].parent == t[j].parent
  }

  /** No row was rotated twice. */
  ghost predicate Chain(t: Table) {
    forall i, j {:trigger Siblings(t, i, j)} :: 0 <= i < j < |t| ==> !Siblings(t, i, j)
  }

  ghost predicate AtMostOneLive(t: Table, family: Family) {
    forall i, j :: 0 <= i < j < |t| && t[i].family == t[j].family == family ==> !t[i].Live() || !t[j].Live()
  }

  /** Is `a` reached from `i` by following parents (`i` itself included)? */
  ghost predicate Above(t: Table, a: nat, i: nat)
    requires Forest(t) && i < |t|
  {
    assert Placed(t, i);
    a == i || (t[i].parent.Some? && Above(t, a, t[i].parent.value))
  }

  ghost function Root(t: Table, i: nat): (r: nat)
    requires Forest(t) && i < |t|
    ensures r <= i && t[r].parent.None? && t[r].family == t[i].family && t[r].user == t[i].user
  {
    assert Placed(t, i);
    if t[i].parent.None? then i else Root(t, t[i].parent.value)
  }

  lemma {:induction false} RootAbove(t: Table, i: nat)
    requires Forest(t) && i < |t|
    ensures Above(t, Root(t, i), i)
  {
    assert Placed(t, i);
    if t[i].parent.Some? {
      RootAbove(t, t[i].parent.value);
    }
  }

  /** The rows of a session family form one tree: they all hang below the same root. */
  lemma FamilyIsOneTree(t: Table, i: nat, j: nat)
    requires Forest(t) && i < |t| && j < |t| && t[i].family == t[j].family
    ensures Root(t, i) == Root(t, j)
    ensures Above(t, Root(t, i), i) && Above(t, Root(t, i), j)
    ensures t[i].user == t[j].user
  {
    RootAbove(t, i);
    RootAbove(t, j);
    var a, b := Root(t, i), Root(t, j);
    assert a < b ==> Apart(t, a, b);
    assert b < a ==> Apart(t, b, a);
  }

  lemma {:induction false} AboveIsEarlier(t: Table, a: nat, i: nat)
    requires Forest(t) && i < |t| && Above(t, a, i)
    ensures a <= i
  {
    assert Placed(t, i);
    if a != i {
      AboveIsEarlier(t, a, t[i].parent.value);
    }
  }

  /** The child of `a` through which `i` hangs below it. */
  ghost function Toward(t: Table, a: nat, i: nat): (c: nat)
    requires Forest(t) && i < |t| && Above(t, a, i) && a != i
    ensures c <= i && t[c].parent == Some(a) && Above(t, c, i)
  {
    assert Placed(t, i);
    if t[i].parent == Some(a) then i else Toward(t, a, t[i].parent.value)
  }

  ghost predicate Fork(t: Table, p: nat, c: nat, d: nat) {
    p < |t| && c < |t| && d < |t| && c != d && t[c].parent == Some(p) && t[d].parent == Some(p)
  }

  /** Two rows of one family, neither above the other, hang below a row that was rotated twice. */
  lemma {:induction false} FindFork(t: Table, i: nat, j: nat) returns (p: nat, c: nat, d: nat)
    requires Forest(t) && i < |t| && j < |t| && t[i].family == t[j].family
    requires !Above(t, i, j) && !Above(t, j, i)
    ensures Fork(t, p, c, d) && t[p].family == t[i].family
    decreases i + j, i > j
  {
    if i > j {
      p, c, d := FindFork(t, j, i);
    } else {
      assert Placed(t, j);
      if t[j].parent.None? {
        FamilyIsOneTree(t, i, j);
        AboveIsEarlier(t, j, i);
      }
      var q := t[j].parent.value;
      assert q != i;
      if Above(t, q, i) {
        p, c, d := q, Toward(t, q, i), j;
      } else {
        p, c, d := FindFork(t, i, q);
      }
    }
  }

  /** Every row above another one is revoked, so a live row is a leaf of its tree. */
  lemma AboveIsRevoked(t: Table, a: nat, i: nat)
    requires Forest(t) && i < |t| && Above(t, a, i) && a != i
    ensures a < |t| && !t[a].Live()
  {
    var c := Toward(t, a, i);
    assert Placed(t, c);
  }

  /** Two live rows in one family are proof that one of its rows was rotated twice. */
  lemma TwoLiveNeedFork(t: Table, i: nat, j: nat) returns (p: nat, c: nat, d: nat)
    requires Forest(t) && i < |t| && j < |t| && i != j
    requires t[i].family == t[j].family && t[i].Live() && t[j].Live()
    ensures Fork(t, p, c, d) && t[p].family == t[i].family
  {
    if Above(t, i, j) {
      AboveIsRevoked(t, i, j);
    }
    if Above(t, j, i) {
      AboveIsRevoked(t, j, i);
    }
    p, c, d := FindFork(t, i, j);
  }

  lemma ChainHasOneLive(t: Table, family: Family)
    requires Forest(t) && Chain(t)
    ensures AtMostOneLive(t, family)
  {
    forall i, j | 0 <= i < j < |t| && t[i].family == t[j].family == family
      ensures !t[i].Live() || !t[j].Live()
    {
      if t[i].Live() && t[j].Live() {
        var p, c, d := TwoLiveNeedFork(t, i, j);
        assert if c < d then Siblings(t, c, d) else Siblings(t, d, c);
      }
    }
  }

  // ---------------------------------------------------------------------------
  // Each statement keeps the forest
  // ---------------------------------------------------------------------------

  lemma RevokingKeepsForest(t: Table, u: Table)
    requires Forest(t) && |u| == |t| && Extends(t, u)
    ensures Forest(u)
    ensures Chain(t) ==> Chain(u)
  {
    forall i, j | 0 <= i < j < |u|
      ensures Apart(u, i, j) && (Siblings(u, i, j) ==> Siblings(t, i, j))
    {
      assert RowKept(t, u, i) && RowKept(t, u, j) && Apart(t, i, j);
    }
    forall i | 0 <= i < |u|
      ensures Placed(u, i)
    {
      assert RowKept(t, u, i) && Placed(t, i);
      if u[i].parent.Some? {
        assert RowKept(t, u, u[i].parent.value);
      }
    }
  }

  lemma UpdateByIdKeepsForest(t: Table, id: nat, at: int, reason: Reason)
    requires Forest(t) && id < |t|
    ensures var u := UpdateById(t, id, at, reason);
            Extends(t, u) && Forest(u) && (Chain(t) ==> Chain(u))
  {
    RevokingKeepsForest(t, UpdateById(t, id, at, reason));
  }

  lemma UpdateFamilyKeepsForest(t: Table, family: Family, at: int, reason: Reason)
    requires Forest(t)
    ensures var u := UpdateFamily(t, family, at, reason);
            Extends(t, u) && Forest(u) && (Chain(t) ==> Chain(u)) && Dead(u, family)
  {
    RevokingKeepsForest(t, UpdateFamily(t, family, at, reason));
  }

  lemma InsertKeepsForest(t: Table, row: Row)
    requires Forest(t) && FindToken(t, row.token).None?
    requires row.parent.None? ==> forall i :: 0 <= i < |t| ==> t[i].family != row.family
    requires row.parent.Some? ==>
               var p := row.parent.value;
               p < |t| && t[p].user == row.user && t[p].family == row.family && !t[p].Live()
    ensures Extends(t, t + [row]) && Forest(t + [row])
  {
    var u := t + [row];
    forall i, j | 0 <= i < j < |u|
      ensures Apart(u, i, j)
    {
      if j < |t| {
        assert Apart(t, i, j);
      }
    }
    forall i | 0 <= i < |u|
      ensures Placed(u, i)
    {
      if i < |t| {
        assert Placed(t, i);
      }
    }
  }
}
