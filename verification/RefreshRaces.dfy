/**
 * What interleaving costs: exactly when a token is rotated twice, and exactly when a family that
 * was answered as reused still has a live row.
 */
module RefreshRaces {
  import opened Wrappers
  import opened Time
  import opened RefreshTokenTable
  import opened RefreshProtocol
  import opened RefreshSafety
  import opened RefreshTheorems
  import opened RefreshMoments
  import H = RefreshHandlers

  // ---------------------------------------------------------------------------
  // Rotating one token twice
  // ---------------------------------------------------------------------------

  ghost predicate Inserted(s: State, o: OpId, c: nat) {
    c in s.births && s.births[c] == o
  }

  /** A refresh request that presented row p's token and got past its INSERT. */
  ghost predicate Rotator(s: State, o: OpId, p: nat) {
    && p < |s.rows| && o in s.ops && s.ops[o].request.Refresh? && s.ops[o].request.token == s.rows[p].token
    && exists c :: Inserted(s, o, c)
  }

  lemma ChildHasRotator(s: State, p: nat, c: nat)
    requires Inv(s) && c < |s.rows| && s.rows[c].parent == Some(p)
    ensures c in s.births && Inserted(s, s.births[c], c) && Rotator(s, s.births[c], p) &&
            Wrote(s, s.ops[s.births[c]], p)
  {
    assert c in s.births;
    assert BirthOk(s, c) && Inserted(s, s.births[c], c);
  }

  lemma RotatorHasChild(s: State, o: OpId, p: nat) returns (c: nat)
    requires Inv(s) && Rotator(s, o, p)
    ensures Inserted(s, o, c) && c < |s.rows| && s.rows[c].parent == Some(p)
  {
    c :| Inserted(s, o, c);
    assert BirthOk(s, c);
    H.FindsRow(s.rows, s.rows[c].parent.value);
    H.FindsRow(s.rows, p);
  }

  lemma RunIsSafe(now: int, ttl: nat, steps: seq<Step>)
    ensures Inv(Run(Start(now, ttl), steps))
  {
    StartIsSafe(now, ttl);
    RunKeeps(Start(now, ttl), steps);
  }

  lemma ForkHasRotators(s: State, p: nat, c: nat, d: nat)
    requires Inv(s) && Fork(s.rows, p, c, d)
    ensures exists a: OpId, b: OpId :: TwoRotators(s, a, b, p)
  {
    ChildHasRotator(s, p, c);
    ChildHasRotator(s, p, d);
    assert OneBirth(s, c, d);
    assert TwoRotators(s, s.births[c], s.births[d], p);
  }

  ghost predicate TwoRotators(s: State, a: OpId, b: OpId, p: nat) {
    a != b && Rotator(s, a, p) && Rotator(s, b, p)
  }

  lemma RotatorsFork(s: State, a: OpId, b: OpId, p: nat)
    requires Inv(s) && TwoRotators(s, a, b, p)
    ensures Overlap(s, a, b, p) && exists c: nat, d: nat :: Fork(s.rows, p, c, d)
  {
    var c := RotatorHasChild(s, a, p);
    var d := RotatorHasChild(s, b, p);
    ChildHasRotator(s, p, c);
    ChildHasRotator(s, p, d);
    assert Fork(s.rows, p, c, d);
  }

  /**
   * A row is rotated twice if and only if two refresh requests that presented its token both got
   * past their INSERT; and any two such requests had both read the row before either wrote it.
   */
  lemma RotatedTwiceIff(now: int, ttl: nat, steps: seq<Step>, p: nat)
    ensures var s := Run(Start(now, ttl), steps);
            (exists c: nat, d: nat :: Fork(s.rows, p, c, d)) <==> (exists a: OpId, b: OpId :: TwoRotators(s, a, b, p))
    ensures var s := Run(Start(now, ttl), steps);
            forall a: OpId, b: OpId :: TwoRotators(s, a, b, p) ==> Overlap(s, a, b, p)
  {
    var s := Run(Start(now, ttl), steps);
    RunIsSafe(now, ttl, steps);
    if c: nat, d: nat :| Fork(s.rows, p, c, d) {
      ForkHasRotators(s, p, c, d);
    }
    forall a: OpId, b: OpId | TwoRotators(s, a, b, p)
      ensures Overlap(s, a, b, p) && exists c: nat, d: nat :: Fork(s.rows, p, c, d)
    {
      RotatorsFork(s, a, b, p);
    }
  }

  /** A refresh request answered with a new pair. */
  ghost predicate AnsweredPair(s: State, o: OpId) {
    o in s.ops && s.ops[o].request.Refresh? && s.ops[o].pc.Finished? && s.ops[o].pc.outcome.Issued?
  }

  lemma AnsweredRotated(s: State, o: OpId) returns (p: nat)
    requires Inv(s) && AnsweredPair(s, o)
    ensures Rotator(s, o, p) && FindToken(s.rows, s.ops[o].request.token) == Some(p)
  {
    assert OpOk(s, o);
    var c := FindToken(s.rows, s.ops[o].pc.outcome.pair.refresh).value;
    assert Inserted(s, o, c) && BirthOk(s, c);
    p := s.rows[c].parent.value;
    H.FindsRow(s.rows, p);
  }

  /** In particular, two requests that were both answered with a new pair for one token overlapped. */
  lemma AnsweredTwiceOverlapped(now: int, ttl: nat, steps: seq<Step>, a: OpId, b: OpId)
    requires var s := Run(Start(now, ttl), steps);
             a != b && AnsweredPair(s, a) && AnsweredPair(s, b) && s.ops[a].request.token == s.ops[b].request.token
    ensures exists p :: Overlap(Run(Start(now, ttl), steps), a, b, p)
  {
    var s := Run(Start(now, ttl), steps);
    RunIsSafe(now, ttl, steps);
    var p := AnsweredRotated(s, a);
    var q := AnsweredRotated(s, b);
    RotatorsFork(s, a, b, p);
  }

  // ---------------------------------------------------------------------------
  // Requests of a family
  // ---------------------------------------------------------------------------

  /** `o` was answered that its token's family is being reused. */
  ghost predicate AnsweredReuse(s: State, o: OpId) {
    o in s.ops && s.ops[o].pc == Finished(Denied(Reuse))
  }

  /** The family of a presented token that is in the table. */
  ghost predicate PresentedIn(s: State, o: OpId, family: Family) {
    o in s.ops && Presents(s, s.ops[o], family)
  }

  // ---------------------------------------------------------------------------
  // Families that come back to life
  // ---------------------------------------------------------------------------

  /** The family has a row, and no live one. */
  ghost predicate Over(t: Table, family: Family) {
    Dead(t, family) && exists i :: 0 <= i < |t| && t[i].family == family
  }

  /**
   * Row d of the family was inserted after step m, by a refresh request whose SELECT, before step
   * m, had found d's parent live; by then, at step m, the parent was revoked.
   */
  ghost predicate Straggler(now: int, ttl: nat, steps: seq<Step>, m: nat, family: Family, d: nat)
    requires m < |steps|
  {
    var past, s := Moment(now, ttl, steps, m + 1), Run(Start(now, ttl), steps);
    && |past.rows| <= d < |s.rows| && s.rows[d].family == family && s.rows[d].parent.Some?
    && d in s.births && s.births[d] in s.ops
    && var p, op := s.rows[d].parent.value, s.ops[s.births[d]];
       && op.request.Refresh? && op.readAt < m
       && FindsLive(Moment(now, ttl, steps, op.readAt), op.request.token, p)
       && p < |past.rows| && !past.rows[p].Live()
  }

  /** After k steps the family has a live row. */
  ghost predicate AliveAt(now: int, ttl: nat, steps: seq<Step>, family: Family, k: nat) {
    k <= |steps| && !Dead(Moment(now, ttl, steps, k).rows, family)
  }

  /** At some moment after step m the family has a live row. */
  ghost predicate Revives(now: int, ttl: nat, steps: seq<Step>, m: nat, family: Family) {
    exists k :: m < k && AliveAt(now, ttl, steps, family, k)
  }

  /** Some row of the family is a straggler. */
  ghost predicate HasStraggler(now: int, ttl: nat, steps: seq<Step>, m: nat, family: Family)
    requires m < |steps|
  {
    exists d: nat :: Straggler(now, ttl, steps, m, family, d)
  }

  lemma OverStaysRevoked(now: int, ttl: nat, steps: seq<Step>, m: nat, family: Family, k: nat, i: nat)
    requires m < k <= |steps| && Over(Moment(now, ttl, steps, m + 1).rows, family)
    requires i < |Moment(now, ttl, steps, m + 1).rows|
    ensures var t := Moment(now, ttl, steps, k).rows; i < |t| && (t[i].family == family ==> !t[i].Live())
  {
    SameRowLater(now, ttl, steps, m + 1, k, i);
  }

  lemma ChildIsStraggler(now: int, ttl: nat, steps: seq<Step>, m: nat, family: Family, d: nat, p: nat)
    requires m < |steps| && Over(Moment(now, ttl, steps, m + 1).rows, family)
    requires var s, size := Run(Start(now, ttl), steps), |Moment(now, ttl, steps, m + 1).rows|;
             size <= d < |s.rows| && s.rows[d].family == family && s.rows[d].parent == Some(p) && p < size
    ensures Straggler(now, ttl, steps, m, family, d)
  {
    var s := Run(Start(now, ttl), steps);
    RunIsSafe(now, ttl, steps);
    ChildHasRotator(s, p, d);
    assert Placed(s.rows, d);
    LastMoment(now, ttl, steps);
    SameRowLater(now, ttl, steps, m + 1, |steps|, p);
    MarkMeaning(now, ttl, steps, p, m + 1);
    RotatedWasReadLive(now, ttl, steps, |steps|, d, p);
  }

  /** A row inserted into the family after step m hangs below a straggler. */
  lemma {:induction false} FindStraggler(now: int, ttl: nat, steps: seq<Step>, m: nat, family: Family, i: nat)
    returns (d: nat)
    requires m < |steps| && Over(Moment(now, ttl, steps, m + 1).rows, family)
    requires Forest(Run(Start(now, ttl), steps).rows)
    requires var s := Run(Start(now, ttl), steps);
             |Moment(now, ttl, steps, m + 1).rows| <= i < |s.rows| && s.rows[i].family == family
    ensures Straggler(now, ttl, steps, m, family, d) && Above(Run(Start(now, ttl), steps).rows, d, i)
    decreases i
  {
    var t, size := Run(Start(now, ttl), steps).rows, |Moment(now, ttl, steps, m + 1).rows|;
    assert Placed(t, i);
    HasParent(now, ttl, steps, m, family, i);
    var p := t[i].parent.value;
    if p < size {
      ChildIsStraggler(now, ttl, steps, m, family, i, p);
      d := i;
    } else {
      d := FindStraggler(now, ttl, steps, m, family, p);
    }
  }

  lemma HasParent(now: int, ttl: nat, steps: seq<Step>, m: nat, family: Family, i: nat)
    requires m < |steps| && Over(Moment(now, ttl, steps, m + 1).rows, family)
    requires var t := Run(Start(now, ttl), steps).rows;
             Forest(t) && |Moment(now, ttl, steps, m + 1).rows| <= i < |t| && t[i].family == family
    ensures Run(Start(now, ttl), steps).rows[i].parent.Some?
  {
    var t, past := Run(Start(now, ttl), steps).rows, Moment(now, ttl, steps, m + 1).rows;
    var r :| 0 <= r < |past| && past[r].family == family;
    LastMoment(now, ttl, steps);
    SameRowLater(now, ttl, steps, m + 1, |steps|, r);
    FamilyIsOneTree(t, i, r);
  }

  lemma LiveIsLate(now: int, ttl: nat, steps: seq<Step>, m: nat, family: Family, k: nat, i: nat)
    requires m < k <= |steps| && Over(Moment(now, ttl, steps, m + 1).rows, family)
    requires var t := Moment(now, ttl, steps, k).rows; i < |t| && t[i].family == family && t[i].Live()
    ensures var t := Run(Start(now, ttl), steps).rows;
            |Moment(now, ttl, steps, m + 1).rows| <= i < |t| && t[i].family == family
  {
    if i < |Moment(now, ttl, steps, m + 1).rows| {
      OverStaysRevoked(now, ttl, steps, m, family, k, i);
    }
    SameRowLater(now, ttl, steps, k, |steps|, i);
    LastMoment(now, ttl, steps);
  }

  /** A row that was not there after step m was live at a later moment. */
  lemma BornAfter(now: int, ttl: nat, steps: seq<Step>, m: nat, d: nat) returns (k: nat)
    requires m < |steps| && |Moment(now, ttl, steps, m + 1).rows| <= d < |Moment(now, ttl, steps, |steps|).rows|
    ensures m < k <= |steps|
    ensures LiveIn(Moment(now, ttl, steps, k).rows, Moment(now, ttl, steps, |steps|).rows[d].family, d)
  {
    var j := BornLive(now, ttl, steps, |steps|, d);
    k := j + 1;
    if j <= m {
      LaterMoment(now, ttl, steps, k, m + 1);
    }
    SameRowLater(now, ttl, steps, k, |steps|, d);
  }

  lemma StragglerRevives(now: int, ttl: nat, steps: seq<Step>, m: nat, family: Family, d: nat)
    requires m < |steps| && Straggler(now, ttl, steps, m, family, d)
    ensures Revives(now, ttl, steps, m, family)
  {
    LastMoment(now, ttl, steps);
    var k := BornAfter(now, ttl, steps, m, d);
    assert AliveAt(now, ttl, steps, family, k);
  }

  ghost predicate LiveIn(t: Table, family: Family, i: nat) {
    i < |t| && t[i].family == family && t[i].Live()
  }

  /** A row of the final table hangs below a straggler, or is one. */
  ghost predicate BelowStraggler(now: int, ttl: nat, steps: seq<Step>, m: nat, family: Family, i: nat)
    requires m < |steps| && Forest(Run(Start(now, ttl), steps).rows) && i < |Run(Start(now, ttl), steps).rows|
  {
    exists d: nat ::
      Straggler(now, ttl, steps, m, family, d) && Above(Run(Start(now, ttl), steps).rows, d, i)
  }

  lemma SomeLive(t: Table, family: Family) returns (i: nat)
    requires !Dead(t, family)
    ensures LiveIn(t, family, i)
  {
    i :| 0 <= i < |t| && t[i].family == family && t[i].Live();
  }

  lemma RevivalNeedsStraggler(now: int, ttl: nat, steps: seq<Step>, m: nat, family: Family, k: nat)
    requires m < k && AliveAt(now, ttl, steps, family, k) && Over(Moment(now, ttl, steps, m + 1).rows, family)
    ensures HasStraggler(now, ttl, steps, m, family)
  {
    RunIsSafe(now, ttl, steps);
    var i := SomeLive(Moment(now, ttl, steps, k).rows, family);
    LiveIsLate(now, ttl, steps, m, family, k, i);
    var d := FindStraggler(now, ttl, steps, m, family, i);
  }

  /**
   * Exactly when a family that had no live row after step m has one again: if and only if a refresh
   * request that had read one of its tokens live before step m inserts its new row after it.
   */
  lemma OverFamilyRevives(now: int, ttl: nat, steps: seq<Step>, m: nat, family: Family)
    requires m < |steps| && Over(Moment(now, ttl, steps, m + 1).rows, family)
    ensures Revives(now, ttl, steps, m, family) <==> HasStraggler(now, ttl, steps, m, family)
  {
    if Revives(now, ttl, steps, m, family) {
      var k :| m < k && AliveAt(now, ttl, steps, family, k);
      RevivalNeedsStraggler(now, ttl, steps, m, family, k);
    }
    if d: nat :| Straggler(now, ttl, steps, m, family, d) {
      StragglerRevives(now, ttl, steps, m, family, d);
    }
  }

  /** Every live row of the family hangs below a straggler. */
  ghost predicate LiveBelowStragglers(now: int, ttl: nat, steps: seq<Step>, m: nat, family: Family)
    requires m < |steps|
  {
    var t := Run(Start(now, ttl), steps).rows;
    Forest(t) && forall i: nat {:trigger LiveIn(t, family, i)} ::
      LiveIn(t, family, i) ==> BelowStraggler(now, ttl, steps, m, family, i)
  }

  lemma RevivedBelowStraggler(now: int, ttl: nat, steps: seq<Step>, m: nat, family: Family, i: nat)
    requires m < |steps| && Over(Moment(now, ttl, steps, m + 1).rows, family)
    requires LiveIn(Run(Start(now, ttl), steps).rows, family, i)
    ensures Forest(Run(Start(now, ttl), steps).rows) && BelowStraggler(now, ttl, steps, m, family, i)
  {
    RunIsSafe(now, ttl, steps);
    LastMoment(now, ttl, steps);
    LiveIsLate(now, ttl, steps, m, family, |steps|, i);
    var d := FindStraggler(now, ttl, steps, m, family, i);
  }

  lemma RevivedBelowStragglers(now: int, ttl: nat, steps: seq<Step>, m: nat, family: Family)
    requires m < |steps| && Over(Moment(now, ttl, steps, m + 1).rows, family)
    ensures LiveBelowStragglers(now, ttl, steps, m, family)
  {
    RunIsSafe(now, ttl, steps);
    var t := Run(Start(now, ttl), steps).rows;
    forall i: nat | LiveIn(t, family, i)
      ensures BelowStraggler(now, ttl, steps, m, family, i)
    {
      RevivedBelowStraggler(now, ttl, steps, m, family, i);
    }
  }

  // ---------------------------------------------------------------------------
  // Reuse answers
  // ---------------------------------------------------------------------------

  /** The step at which an answered request found, or left, its token's family without a live row. */
  lemma ReuseWasSeen(now: int, ttl: nat, steps: seq<Step>, o: OpId, family: Family) returns (m: nat)
    requires var s := Run(Start(now, ttl), steps); AnsweredReuse(s, o) && PresentedIn(s, o, family)
    ensures m < |steps| && m == Run(Start(now, ttl), steps).ops[o].wroteAt
    ensures Over(Moment(now, ttl, steps, m + 1).rows, family)
  {
    LastMoment(now, ttl, steps);
    EndWasSeen(now, ttl, steps, |steps|, o, family);
    m := Run(Start(now, ttl), steps).ops[o].wroteAt;
  }

  /**
   * A reuse answer ends the family for a moment: after the answering request's last write, or its
   * SELECT that found nothing, no row of the family is live. The family comes back to life if and
   * only if a refresh request that had read one of its tokens live before that moment inserts its
   * new row after it; all its live rows then hang below such rows.
   */
  lemma ReuseLeavesStragglers(now: int, ttl: nat, steps: seq<Step>, o: OpId, family: Family) returns (m: nat)
    requires var s := Run(Start(now, ttl), steps); AnsweredReuse(s, o) && PresentedIn(s, o, family)
    ensures m == Run(Start(now, ttl), steps).ops[o].wroteAt < |steps|
    ensures Dead(Moment(now, ttl, steps, m + 1).rows, family)
    ensures Revives(now, ttl, steps, m, family) <==> HasStraggler(now, ttl, steps, m, family)
    ensures LiveBelowStragglers(now, ttl, steps, m, family)
  {
    m := ReuseWasSeen(now, ttl, steps, o, family);
    OverFamilyRevives(now, ttl, steps, m, family);
    RevivedBelowStragglers(now, ttl, steps, m, family);
  }

  /** What request q has inserted by the end of the run was inserted by step m. */
  ghost predicate DoneBy(now: int, ttl: nat, steps: seq<Step>, q: OpId, m: nat) {
    m < |steps| && forall c: nat {:trigger Inserted(Run(Start(now, ttl), steps), q, c)} ::
      Inserted(Run(Start(now, ttl), steps), q, c) ==> c < |Moment(now, ttl, steps, m + 1).rows|
  }

  /**
   * So a reuse answer ends the family for good unless some refresh of the family was under way: had
   * read its token before, and inserted a row after, the answering request saw the family dead.
   */
  lemma ReuseWithoutRaceEndsTheFamily(now: int, ttl: nat, steps: seq<Step>, o: OpId, family: Family, k: nat)
    requires var s := Run(Start(now, ttl), steps); AnsweredReuse(s, o) && PresentedIn(s, o, family)
    requires var s := Run(Start(now, ttl), steps);
             var m := s.ops[o].wroteAt;
             forall q :: PresentedIn(s, q, family) && s.ops[q].readAt < m ==>
               DoneBy(now, ttl, steps, q, m)
    requires Run(Start(now, ttl), steps).ops[o].wroteAt < k <= |steps|
    ensures Dead(Moment(now, ttl, steps, k).rows, family)
  {
    var s := Run(Start(now, ttl), steps);
    RunIsSafe(now, ttl, steps);
    var m := ReuseWasSeen(now, ttl, steps, o, family);
    OverFamilyRevives(now, ttl, steps, m, family);
    if d: nat :| Straggler(now, ttl, steps, m, family, d) {
      StragglerIsLate(now, ttl, steps, m, family, d);
    }
    assert !AliveAt(now, ttl, steps, family, k);
  }

  lemma StragglerIsLate(now: int, ttl: nat, steps: seq<Step>, m: nat, family: Family, d: nat)
    requires m < |steps| && Straggler(now, ttl, steps, m, family, d) && Inv(Run(Start(now, ttl), steps))
    ensures var s := Run(Start(now, ttl), steps);
            d in s.births && PresentedIn(s, s.births[d], family) && s.ops[s.births[d]].readAt < m &&
              !DoneBy(now, ttl, steps, s.births[d], m)
  {
    var s := Run(Start(now, ttl), steps);
    var p := s.rows[d].parent.value;
    assert Placed(s.rows, d) && Inserted(s, s.births[d], d);
    ChildHasRotator(s, p, d);
    H.FindsRow(s.rows, p);
  }

  // ---------------------------------------------------------------------------
  // A double submit
  // ---------------------------------------------------------------------------

  /** Request 2 finds the row revoked and its family without any live row. */
  lemma ReuseAnswered(s: State, row: Row, env: Env) returns (steps: seq<Step>)
    requires |s.rows| == 1 && s.rows[0].SameIdentity(row) && !s.rows[0].Live() && 1 in s.ops
    requires 2 in s.ops && s.ops[2].request == Refresh(row.token, None) && s.ops[2].pc.Selecting? && !s.ops[2].owns
    ensures var u := Run(s, steps);
            u.rows == s.rows && AnsweredReuse(u, 2) && u.ops == s.ops[2 := u.ops[2]] &&
              u.ops[2].request == s.ops[2].request
  {
    ReadsAsHandler(s, 2, env);
    SoloIsRun(s, 2, env, 2);
    var read := Solo(s, 2, env, 2);
    assert FindToken(read.rows, row.token) == Some(0);
    assert SelectLive(read.rows, row.family) == [];
    RunOf(read, [Go(2, env)], [read, Next(read, Go(2, env))]);
    var selects := seq(2, _ => Go(2, env));
    RunConcat(s, selects, [Go(2, env)]);
    steps := selects + [Go(2, env)];
  }

  /** Request 2 finds the row request 1 has just revoked, and request 1 inserts after that. */
  lemma ReuseDuringRotation(s: State, row: Row, at: int, env: Env) returns (steps: seq<Step>)
    requires s.rows == [row] && row.Live() && env.minted != row.token
    requires 1 in s.ops && s.ops[1].request == Refresh(row.token, None) && s.ops[1].pc == Updating(0, row, at)
    requires 2 in s.ops && s.ops[2].request == Refresh(row.token, None) && s.ops[2].pc.Selecting? && !s.ops[2].owns
    ensures var u := Run(s, steps);
            && AnsweredReuse(u, 2) && PresentedIn(u, 2, row.family)
            && |u.rows| == 2 && u.rows[1].Live() && u.rows[1].family == row.family
  {
    var updated := Next(s, Go(1, env));
    assert updated.rows == [row.Revoke(at, Rotation)];
    RunOf(s, [Go(1, env)], [s, updated]);
    var answer := ReuseAnswered(updated, row, env);
    var rest := InsertAfterwards(Run(updated, answer), row, env);
    RunConcat(updated, answer, rest);
    RunConcat(s, [Go(1, env)], answer + rest);
    steps := [Go(1, env)] + (answer + rest);
  }

  lemma InsertAfterwards(s: State, row: Row, env: Env) returns (steps: seq<Step>)
    requires |s.rows| == 1 && s.rows[0].SameIdentity(row) && env.minted != row.token
    requires 1 in s.ops && s.ops[1].request == Refresh(row.token, None) && s.ops[1].pc == Mirroring(0, row)
    requires AnsweredReuse(s, 2) && s.ops[2].request == Refresh(row.token, None)
    ensures var u := Run(s, steps);
            && AnsweredReuse(u, 2) && PresentedIn(u, 2, row.family)
            && |u.rows| == 2 && u.rows[1].Live() && u.rows[1].family == row.family
  {
    steps := [Go(1, env), Go(1, env)];
    var s1 := Next(s, Go(1, env));
    assert s1.rows == s.rows && s1.ops[1].pc == Inserting(0, row);
    assert FindToken(s1.rows, env.minted).None?;
    var s2 := Next(s1, Go(1, env));
    assert s2.rows
      == s.rows + [Row(row.user, env.minted, row.family, s1.now, SecondsFromNow(s1.now, s1.ttl), None, Some(0))];
    assert s2.rows[..1] == s.rows;
    assert FindToken(s2.rows[..1], row.token) == Some(0);
    RunOf(s, steps, [s, s1, s2]);
  }

  lemma BothBegin(s: State, row: Row) returns (steps: seq<Step>)
    requires s.rows == [row] && s.ops.Keys == {0}
    ensures var u := Run(s, steps);
            && u.rows == s.rows && u.now == s.now && 1 in u.ops && 2 in u.ops
            && u.ops[1] == u.ops[2] == Op(Refresh(row.token, None), false, Selecting, 0, 0, [])
  {
    var request := Refresh(row.token, None);
    steps := [Begin(1, request), Begin(2, request)];
    RunOf(s, steps, [s, Next(s, steps[0]), Next(Next(s, steps[0]), steps[1])]);
  }

  /** The token is submitted twice, and request 1 has read its row. */
  lemma DoubleSubmit(s: State, row: Row, env: Env) returns (steps: seq<Step>)
    requires s.rows == [row] && row.Live() && s.now < row.expiresAt && s.ops.Keys == {0}
    ensures var u := Run(s, steps);
            && u.rows == [row] && 1 in u.ops && 2 in u.ops
            && u.ops[1].request == Refresh(row.token, None) && u.ops[1].pc == Updating(0, row, s.now)
            && u.ops[2] == Op(Refresh(row.token, None), false, Selecting, 0, 0, [])
  {
    var begins := BothBegin(s, row);
    var begun := Run(s, begins);
    assert FindToken(begun.rows, row.token) == Some(0);
    ReadsAsHandler(begun, 1, env);
    SoloIsRun(begun, 1, env, 2);
    var selects := seq(2, _ => Go(1, env));
    RunConcat(s, begins, selects);
    steps := begins + selects;
  }

  /**
   * From a fresh start: a login, then its token submitted twice without a key. One request is told
   * that the session is revoked for reuse, and the session lives on under the other one's token.
   */
  lemma ReuseAnswerCanLeaveALiveRow(now: int, ttl: nat) returns (steps: seq<Step>)
    requires ttl > 0
    ensures var s := Run(Start(now, ttl), steps);
            exists o, family :: AnsweredReuse(s, o) && PresentedIn(s, o, family) && !Dead(s.rows, family)
  {
    var env := Env(8, 0, 0, true, 0);
    var row := Row(3, 7, 0, now, SecondsFromNow(now, ttl), None, None);
    var login := LoginRun(now, ttl);
    var s := Run(Start(now, ttl), login);
    var submits := DoubleSubmit(s, row, env);
    var rest := ReuseDuringRotation(Run(s, submits), row, now, env);
    RunConcat(s, submits, rest);
    RunConcat(Start(now, ttl), login, submits + rest);
    steps := login + (submits + rest);
  }
}
