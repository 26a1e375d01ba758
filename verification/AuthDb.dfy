/** The token tables as crates/aver-server/src/auth.rs updates them: rows are inserted, marked used and marked
    revoked in place. */
module AuthDb {
  import opened Prelude
  import opened ScopeLists
  import opened Tokens

  /** The WHERE clause of a revocation, apart from revoked_at IS NULL. */
  datatype Clause = OfFamily(family: string) | OfGrant(userId: string, clientId: string) {
    predicate Holds(row: TokenRow) {
      match this
      case OfFamily(f) => row.familyId == f
      case OfGrant(u, c) => row.userId == u && row.clientId == Some(c)
    }
  }

  /** One UPDATE: rows that match and were not revoked are revoked now, an earlier revocation keeps its
      time, and every other row is untouched. */
  ghost predicate Marked(before: map<string, TokenRow>, after: map<string, TokenRow>, clause: Clause, now: int) {
    && after.Keys == before.Keys
    && forall t :: t in before ==>
         if clause.Holds(before[t]) && before[t].revokedAt.None? then after[t] == before[t].(revokedAt := Some(now))
         else after[t] == before[t]
  }

  lemma MarkedFamily(before: map<string, TokenRow>, after: map<string, TokenRow>, family: string, now: int)
    requires Marked(before, after, OfFamily(family), now)
    ensures after == RevokeFamily(before, family, now)
  {
  }

  lemma MarkedGrant(before: map<string, TokenRow>, after: map<string, TokenRow>, userId: string, clientId: string,
                    now: int)
    requires Marked(before, after, OfGrant(userId, clientId), now)
    ensures after == RevokeGrant(before, userId, clientId, now)
  {
  }

  /** The rows of a table, in whatever order the database visits them. */
  method MarkRevoked(rows: map<string, TokenRow>, clause: Clause, now: int)
    returns (updated: map<string, TokenRow>)
    ensures Marked(rows, updated, clause, now)
  {
    updated := rows;
    var unread := rows.Keys;
    while unread != {}
      invariant unread <= rows.Keys && updated.Keys == rows.Keys
      invariant forall t :: t in unread ==> updated[t] == rows[t]
      invariant forall t :: t in rows && t !in unread ==>
                  if clause.Holds(rows[t]) && rows[t].revokedAt.None?
                  then updated[t] == rows[t].(revokedAt := Some(now))
                  else updated[t] == rows[t]
      decreases unread
    {
      var t :| t in unread;
      if clause.Holds(rows[t]) && rows[t].revokedAt.None? {
        updated := updated[t := rows[t].(revokedAt := Some(now))];
      }
      unread := unread - {t};
    }
  }

  class AuthDb {
    var codes: map<string, CodeRow>
    var access: map<string, TokenRow>
    var refresh: map<string, TokenRow>
    var consents: map<(string, string), ConsentRow>
    ghost var families: map<string, Founding>

    ghost function Contents(): State reads this {
      State(codes, access, refresh, consents, families)
    }

    constructor ()
      ensures Contents() == Empty
    {
      codes, access, refresh, consents, families := map[], map[], map[], map[], map[];
    }

    method StoreAuthorizationCode(c: Call) returns (reply: Reply)
      requires c.StoreCode?
      modifies this
      ensures Outcome(Contents(), reply) == Step(old(Contents()), c)
      ensures CodeStored(old(Contents()), c, Contents(), reply)
    {
      StepSays(Contents(), c);
      if c.code in codes { return Refused(Constraint); }
      var row := CodeRow(c.clientId, c.userId, c.challenge, c.redirectUri, None, c.now + CodeTtl, Encode(c.scopes));
      codes := codes[c.code := row];
      reply := Done;
    }

    method StoreAccessTokenHash(c: Call) returns (reply: Reply)
      requires c.StoreAccess?
      modifies this
      ensures Outcome(Contents(), reply) == Step(old(Contents()), c)
      ensures AccessStored(old(Contents()), c, Contents(), reply)
    {
      StepSays(Contents(), c);
      access := access[c.token := FreshRow(c.now, AccessTtl, c.userId, None, c.family, Encode(c.scopes))];
      families := families[c.family := Founding(c.userId, None, Encode(c.scopes), None)];
      reply := Done;
    }

    method IssueTokenPair(now: int, userId: string, clientId: Option<string>, family: string, scopes: seq<string>,
                          newAccess: string, newRefresh: string)
      modifies this
      ensures Contents() == IssuePair(old(Contents()), now, userId, clientId, family, scopes, newAccess, newRefresh)
    {
      access := access[newAccess := FreshRow(now, AccessTtl, userId, clientId, family, Encode(scopes))];
      refresh := refresh[newRefresh := FreshRow(now, RefreshTtl, userId, clientId, family, Encode(scopes))];
    }

    /** exchange_authorization_code_for_tokens: the code is marked used before the pair is issued. */
    method ExchangeAuthorizationCode(c: Call) returns (reply: Reply)
      requires c.Exchange?
      modifies this
      ensures Outcome(Contents(), reply) == Step(old(Contents()), c)
      ensures Exchanged(old(Contents()), c, Contents(), reply)
    {
      StepSays(Contents(), c);
      if c.code !in codes { return Refused(UnknownCode); }
      var row := codes[c.code];
      if row.usedAt.Some? { return Refused(CodeUsed); }
      if row.clientId != c.clientId { return Refused(ClientMismatch); }
      if row.challenge != c.challenge { return Refused(PkceMismatch); }
      if c.now >= row.expiresAt { return Refused(CodeExpired); }
      if row.redirectUri != c.redirectUri { return Refused(RedirectMismatch); }
      codes := codes[c.code := row.(usedAt := Some(c.now))];
      var scopes := Decode(row.scopes);
      families := families[c.family := Founding(row.userId, Some(c.clientId), Encode(scopes), Some(c.code))];
      IssueTokenPair(c.now, row.userId, Some(c.clientId), c.family, scopes, c.newAccess, c.newRefresh);
      reply := Issued(c.newAccess, c.newRefresh);
    }

    /** revoke_token_family: one update per token table. The family is dead afterwards, and nothing outside
        it has changed. */
    method RevokeTokenFamily(family: string, now: int)
      modifies this`access, this`refresh
      ensures Marked(old(access), access, OfFamily(family), now)
      ensures Marked(old(refresh), refresh, OfFamily(family), now)
      ensures AllRevoked(access, family) && AllRevoked(refresh, family)
    {
      access := MarkRevoked(access, OfFamily(family), now);
      refresh := MarkRevoked(refresh, OfFamily(family), now);
    }

    method RefreshAccessToken(c: Call) returns (reply: Reply)
      requires c.Refresh?
      modifies this
      ensures Outcome(Contents(), reply) == Step(old(Contents()), c)
      ensures Refreshed(old(Contents()), c, Contents(), reply)
    {
      StepSays(Contents(), c);
      if c.token !in refresh { return Refused(UnknownToken); }
      var row := refresh[c.token];
      if row.revokedAt.Some? {
        RevokeTokenFamily(row.familyId, c.now);
        MarkedFamily(old(access), access, row.familyId, c.now);
        MarkedFamily(old(refresh), refresh, row.familyId, c.now);
        return Refused(ReuseDetected);
      }
      if c.now >= row.expiresAt { return Refused(TokenExpired); }
      refresh := refresh[c.token := row.(revokedAt := Some(c.now))];
      IssueTokenPair(c.now, row.userId, row.clientId, row.familyId, Decode(row.scopes), c.newAccess, c.newRefresh);
      reply := Issued(c.newAccess, c.newRefresh);
    }

    method RecordConsentRow(c: Call) returns (reply: Reply)
      requires c.RecordConsent?
      modifies this
      ensures Outcome(Contents(), reply) == Step(old(Contents()), c)
      ensures ConsentRecorded(old(Contents()), c, Contents(), reply)
    {
      StepSays(Contents(), c);
      if Blank(c.userId) || Blank(c.clientId) { return Refused(MissingId); }
      consents := consents[(c.userId, c.clientId) := ConsentRow(Encode(c.scopes), c.now, None)];
      reply := Done;
    }

    method RevokeConsentRow(c: Call) returns (reply: Reply)
      requires c.RevokeConsent?
      modifies this
      ensures Outcome(Contents(), reply) == Step(old(Contents()), c)
      ensures ConsentRevoked(old(Contents()), c, Contents(), reply)
      ensures Marked(old(access), access, OfGrant(c.userId, c.clientId), c.now)
      ensures Marked(old(refresh), refresh, OfGrant(c.userId, c.clientId), c.now)
      ensures consents.Keys == old(consents).Keys
      ensures forall key :: key in consents ==>
                if key == (c.userId, c.clientId) then consents[key].revokedAt == Some(c.now)
                else consents[key] == old(consents)[key]
      ensures codes == old(codes)
    {
      StepSays(Contents(), c);
      var key := (c.userId, c.clientId);
      if key in consents { consents := consents[key := consents[key].(revokedAt := Some(c.now))]; }
      access := MarkRevoked(access, OfGrant(c.userId, c.clientId), c.now);
      refresh := MarkRevoked(refresh, OfGrant(c.userId, c.clientId), c.now);
      MarkedGrant(old(access), access, c.userId, c.clientId, c.now);
      MarkedGrant(old(refresh), refresh, c.userId, c.clientId, c.now);
      reply := Done;
    }

    /** access_token_grant: the row's own grant while it is neither revoked nor expired; in a database grown
        from an empty one, that is what its family was founded with, and the family is not dead. */
    method AccessTokenGrant(token: string, now: int) returns (grant: Option<(string, Option<string>, string)>)
      ensures grant.Some? <==> token in access && access[token].revokedAt.None? && access[token].expiresAt > now
      ensures grant.Some? ==> grant.value == (access[token].userId, access[token].clientId, access[token].scopes)
      ensures grant.Some? && Inv(Contents()) ==>
                access[token].familyId in families && !Dead(Contents(), access[token].familyId)
                && var f := families[access[token].familyId]; grant.value == (f.userId, f.clientId, f.scopes)
    {
      if token !in access || access[token].revokedAt.Some? || access[token].expiresAt <= now { return None; }
      var row := access[token];
      assert Inv(Contents()) ==> row.familyId in families && Matches(row, families[row.familyId]);
      grant := Some((row.userId, row.clientId, row.scopes));
    }
  }
}
