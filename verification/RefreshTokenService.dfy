/**
 * refreshToken.service.ts as it updates its two stores statement by statement, proved against
 * the handlers of RefreshHandlers.
 */
module RefreshTokenService {
  import opened Wrappers
  import opened Time
  import opened RefreshTokenTable
  import H = RefreshHandlers

  class Service {
    var rows: Table
    var mirror: map<Token, int>
    const ttl: nat

    ghost function Store(): H.Store
      reads this
    {
      H.Store(rows, mirror)
    }

    constructor (ttlSeconds: nat)
      ensures Store() == H.Start(0, ttlSeconds).store && ttl == ttlSeconds
    {
      rows, mirror, ttl := [], map[], ttlSeconds;
    }

    /** Writes one `revoked:refresh:<hash>` key, unless it would be born expired. */
    method CacheRefreshTokenRevocation(token: Token, expiresAt: int, now: int)
      modifies this`mirror
      ensures mirror == H.MirrorRevocation(old(mirror), token, expiresAt, now)
      ensures expiresAt <= now ==> mirror == old(mirror)
      ensures now < expiresAt ==>
                && token in mirror && mirror == old(mirror)[token := mirror[token]]
                && expiresAt <= mirror[token] < expiresAt + 1000
    {
      var seconds := TtlSecondsUntil(now, expiresAt);
      if seconds <= 0 {
        return;
      }
      mirror := mirror[token := now + seconds * MS_PER_SECOND];
    }

    method IssueRefreshToken(user: User, family: Family, parent: Option<nat>, minted: Token, now: int)
      returns (ok: bool)
      modifies this`rows
      ensures var issued := H.Issue(old(Store()), now, ttl, user, minted, family, parent);
              ok == issued.Some? && Store() == if ok then issued.value else old(Store())
      ensures ok <==> forall i :: 0 <= i < |old(rows)| ==> old(rows)[i].token != minted
      ensures mirror == old(mirror)
      ensures rows == if ok then old(rows) + [Row(user, minted, family, now, now + ttl * 1000, None, parent)]
                      else old(rows)
    {
      var row := Row(user, minted, family, now, SecondsFromNow(now, ttl), None, parent);
      var inserted := Insert(rows, row);
      ok := inserted.Some?;
      if ok {
        rows := inserted.value;
      }
    }

    method RevokeSessionFamily(family: Family, reason: Reason, now: int)
      modifies this
      ensures Store() == H.RevokeFamily(old(Store()), now, family, reason)
      ensures Dead(rows, family)
      ensures |rows| == |old(rows)| && forall i :: 0 <= i < |rows| ==>
                rows[i] == if old(rows)[i].family == family && old(rows)[i].revoked.None?
                           then old(rows)[i].(revoked := Some(Revocation(now, reason)))
                           else old(rows)[i]
    {
      var activeRows := SelectLive(rows, family);
      if |activeRows| == 0 {
        NothingSelected(rows, family);
        return;
      }
      rows := UpdateFamily(rows, family, now, reason);
      var i := 0;
      while i < |activeRows|
        invariant 0 <= i <= |activeRows|
        invariant rows == UpdateFamily(old(rows), family, now, reason)
        invariant mirror == H.MirrorAll(old(mirror), activeRows[..i], now)
      {
        CacheRefreshTokenRevocation(activeRows[i].token, activeRows[i].expiresAt, now);
        H.MirrorAllSnoc(old(mirror), activeRows[..i], activeRows[i], now);
        assert activeRows[..i + 1] == activeRows[..i] + [activeRows[i]];
        i := i + 1;
      }
      assert activeRows[..i] == activeRows;
    }

    method RotateRefreshToken(token: Token, minted: Token, now: int) returns (outcome: H.RotateOutcome)
      modifies this
      ensures (Store(), outcome) == H.Rotate(old(Store()), now, ttl, token, minted)
      ensures outcome.Rotated? ==>
                var id := FindToken(old(rows), token).value;
                var row := old(rows)[id];
                && row.revoked.None? && now < row.expiresAt && outcome == H.Rotated(row.user, minted)
                && rows == old(rows)[id := row.(revoked := Some(Revocation(now, Rotation)))]
                     + [Row(row.user, minted, row.family, now, now + ttl * 1000, None, Some(id))]
      ensures outcome.Invalid? ==> rows == old(rows) && mirror == old(mirror)
      ensures outcome.Rotated? || outcome.InsertFailed? ==>
                var row := old(rows)[FindToken(old(rows), token).value];
                && token in mirror && mirror == old(mirror)[token := mirror[token]]
                && row.expiresAt <= mirror[token] < row.expiresAt + 1000
      ensures outcome.InsertFailed? ==>
                var id := FindToken(old(rows), token).value;
                rows == old(rows)[id := old(rows)[id].(revoked := Some(Revocation(now, Rotation)))]
      ensures outcome.Invalid? <==> forall i :: 0 <= i < |old(rows)| ==> old(rows)[i].token != token
      ensures var found := FindToken(old(rows), token);
              found.Some? ==>
                var row := old(rows)[found.value];
                && row.token == token
                && (row.revoked.Some? ==> outcome == H.Reuse(row.family))
                && (row.revoked.None? && row.expiresAt <= now ==>
                      outcome == H.Expired && rows == old(rows) && mirror == old(mirror))
                && (row.revoked.None? && now < row.expiresAt ==> outcome.InsertFailed? || outcome.Rotated?)
                && (row.revoked.None? && now < row.expiresAt ==>
                      (outcome.Rotated? <==> forall i :: 0 <= i < |old(rows)| ==> old(rows)[i].token != minted))
      ensures outcome.Reuse? ==>
                |rows| == |old(rows)| && forall i :: 0 <= i < |rows| ==>
                  rows[i] == if old(rows)[i].family == outcome.family && old(rows)[i].revoked.None?
                             then old(rows)[i].(revoked := Some(Revocation(now, ReuseDetected)))
                             else old(rows)[i]
    {
      var found := FindToken(rows, token);
      if found.None? {
        return H.Invalid;
      }
      var id := found.value;
      var row := rows[id];
      if !row.Live() {
        RevokeSessionFamily(row.family, ReuseDetected, now);
        return H.Reuse(row.family);
      }
      if row.expiresAt <= now {
        return H.Expired;
      }
      rows := UpdateById(rows, id, now, Rotation);
      CacheRefreshTokenRevocation(token, row.expiresAt, now);
      ghost var updated := rows;
      assert |updated| == |old(rows)|;
      assert forall i :: 0 <= i < |updated| ==> updated[i].token == old(rows)[i].token;
      var ok := IssueRefreshToken(row.user, row.family, Some(id), minted, now);
      outcome := if ok then H.Rotated(row.user, minted) else H.InsertFailed;
    }

    method RevokeRefreshTokenByHash(token: Token, now: int)
      modifies this
      ensures Store() == H.LogoutToken(old(Store()), now, token)
      ensures var found := FindToken(old(rows), token);
              rows == if found.Some? && old(rows)[found.value].revoked.None?
                      then old(rows)[found.value := old(rows)[found.value].(revoked := Some(Revocation(now, Logout)))]
                      else old(rows)
      ensures forall i :: 0 <= i < |rows| && i < |old(rows)| && old(rows)[i].token != token ==> rows[i] == old(rows)[i]
    {
      var found := FindToken(rows, token);
      if found.None? {
        return;
      }
      var row := rows[found.value];
      if !row.Live() {
        return;
      }
      rows := UpdateById(rows, found.value, now, Logout);
      CacheRefreshTokenRevocation(token, row.expiresAt, now);
    }

    method RevokeMostRecentRefreshTokenForUser(user: User, now: int)
      modifies this
      ensures (forall i :: 0 <= i < |old(rows)| && old(rows)[i].user == user ==> old(rows)[i].revoked.Some?) ==>
                Store() == old(Store())
      ensures (exists i :: 0 <= i < |old(rows)| && old(rows)[i].user == user && old(rows)[i].revoked.None?) ==>
                exists pick ::
                  && 0 <= pick < |old(rows)|
                  && old(rows)[pick].user == user && old(rows)[pick].revoked.None?
                  && (forall i :: 0 <= i < |old(rows)| && old(rows)[i].user == user && old(rows)[i].revoked.None? ==>
                        old(rows)[i].issuedAt <= old(rows)[pick].issuedAt)
                  && rows == old(rows)[pick := old(rows)[pick].(revoked := Some(Revocation(now, Logout)))]
      ensures NoneLive(old(rows), user) ==> Store() == old(Store())
      ensures !NoneLive(old(rows), user) ==>
                exists pick :: MostRecentLive(old(rows), user, pick) &&
                  Store() == H.RevokeRow(old(Store()), now, pick, Logout)
    {
      var found := SelectMostRecent(rows, user);
      if found.None? {
        return;
      }
      var row := rows[found.value];
      rows := UpdateById(rows, found.value, now, Logout);
      CacheRefreshTokenRevocation(row.token, row.expiresAt, now);
      assert MostRecentLive(old(rows), user, found.value);
    }
  }
}
