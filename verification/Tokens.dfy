/** OAuth token families (crates/aver-server/src/auth.rs): authorization codes, refresh-token rotation
    with reuse detection (section 5.2.2.3 of RFC 6819), and revocation of a consent. */
module Tokens {
  import opened Prelude
  import opened ScopeLists

  const AccessTtl := 60 * 60
  const RefreshTtl := 30 * 24 * 60 * 60
  const CodeTtl := 600

  /** An authorization code, with the consent's user, client and scopes. */
  datatype CodeRow = CodeRow(
    clientId: string, userId: string, challenge: string, redirectUri: string, usedAt: Option<int>,
    expiresAt: int, scopes: string)

  /** A row of either token table, keyed by the token's hash. */
  datatype TokenRow = TokenRow(
    userId: string, clientId: Option<string>, familyId: string, createdAt: int, expiresAt: int,
    revokedAt: Option<int>, scopes: string)

  datatype ConsentRow = ConsentRow(scopes: string, grantedAt: int, revokedAt: Option<int>)

  /** What a family was founded with. A bookkeeping record: the schema has no such table. */
  datatype Founding = Founding(userId: string, clientId: Option<string>, scopes: string, code: Option<string>)

  datatype State = State(
    codes: map<string, CodeRow>, access: map<string, TokenRow>, refresh: map<string, TokenRow>,
    consents: map<(string, string), ConsentRow>, families: map<string, Founding>)

  /** One call. Randomly drawn values (codes, tokens' hashes, family ids) and the clock are arguments. */
  datatype Call =
    | StoreCode(now: int, code: string, clientId: string, userId: string, challenge: string, redirectUri: string,
                scopes: seq<string>)
    | StoreAccess(now: int, token: string, userId: string, family: string, scopes: seq<string>)
    | Exchange(now: int, code: string, clientId: string, challenge: string, redirectUri: string,
               family: string, newAccess: string, newRefresh: string)
    | Refresh(now: int, token: string, newAccess: string, newRefresh: string)
    | RecordConsent(now: int, userId: string, clientId: string, scopes: seq<string>)
    | RevokeConsent(now: int, userId: string, clientId: string)

  datatype Refusal =
    | UnknownCode | CodeUsed | ClientMismatch | PkceMismatch | CodeExpired | RedirectMismatch
    | UnknownToken | ReuseDetected | TokenExpired | MissingId | Constraint

  datatype Reply = Done | Issued(access: string, refresh: string) | Refused(why: Refusal)

  datatype Outcome = Outcome(state: State, reply: Reply)

  // ----- what a call does -----

  /** The checks of exchange_authorization_code_for_tokens, in order. */
  function ExchangeRefusal(s: State, c: Call): Option<Refusal>
    requires c.Exchange?
  {
    if c.code !in s.codes then Some(UnknownCode)
    else
      var row := s.codes[c.code];
      if row.usedAt.Some? then Some(CodeUsed)
      else if row.clientId != c.clientId then Some(ClientMismatch)
      else if row.challenge != c.challenge then Some(PkceMismatch)
      else if c.now >= row.expiresAt then Some(CodeExpired)
      else if row.redirectUri != c.redirectUri then Some(RedirectMismatch)
      else None
  }

  function FreshRow(now: int, ttl: int, userId: string, clientId: Option<string>, family: string, scopes: string)
    : TokenRow
  {
    TokenRow(userId, clientId, family, now, now + ttl, None, scopes)
  }

  /** issue_token_pair_in. */
  function IssuePair(s: State, now: int, userId: string, clientId: Option<string>, family: string, scopes: seq<string>,
                     newAccess: string, newRefresh: string): State
  {
    s.(access := s.access[newAccess := FreshRow(now, AccessTtl, userId, clientId, family, Encode(scopes))],
       refresh := s.refresh[newRefresh := FreshRow(now, RefreshTtl, userId, clientId, family, Encode(scopes))])
  }

  function Revoke(row: TokenRow, now: int): TokenRow {
    if row.revokedAt.None? then row.(revokedAt := Some(now)) else row
  }

  function RevokeFamily(rows: map<string, TokenRow>, family: string, now: int): map<string, TokenRow> {
    map t | t in rows :: if rows[t].familyId == family then Revoke(rows[t], now) else rows[t]
  }

  function RevokeGrant(rows: map<string, TokenRow>, userId: string, clientId: string, now: int): map<string, TokenRow> {
    map t | t in rows ::
      if rows[t].userId == userId && rows[t].clientId == Some(clientId) then Revoke(rows[t], now) else rows[t]
  }

  function Step(s: State, c: Call): Outcome {
    match c
    case StoreCode(now, code, clientId, userId, challenge, redirectUri, scopes) =>
      if code in s.codes then Outcome(s, Refused(Constraint))
      else Outcome(s.(codes := s.codes[code :=
             CodeRow(clientId, userId, challenge, redirectUri, None, now + CodeTtl, Encode(scopes))]), Done)
    case StoreAccess(now, token, userId, family, scopes) =>
      Outcome(s.(access := s.access[token := FreshRow(now, AccessTtl, userId, None, family, Encode(scopes))],
                 families := s.families[family := Founding(userId, None, Encode(scopes), None)]), Done)
    case Exchange(now, code, clientId, _, _, family, newAccess, newRefresh) =>
      var refusal := ExchangeRefusal(s, c);
      if refusal.Some? then Outcome(s, Refused(refusal.value))
      else
        var row := s.codes[code];
        var scopes := Decode(row.scopes);
        var used := s.(codes := s.codes[code := row.(usedAt := Some(now))],
                       families := s.families[family :=
                         Founding(row.userId, Some(clientId), Encode(scopes), Some(code))]);
        Outcome(IssuePair(used, now, row.userId, Some(clientId), family, scopes, newAccess, newRefresh),
                Issued(newAccess, newRefresh))
    case Refresh(now, token, newAccess, newRefresh) =>
      if token !in s.refresh then Outcome(s, Refused(UnknownToken))
      else
        var row := s.refresh[token];
        if row.revokedAt.Some? then
          Outcome(s.(access := RevokeFamily(s.access, row.familyId, now),
                     refresh := RevokeFamily(s.refresh, row.familyId, now)), Refused(ReuseDetected))
        else if now >= row.expiresAt then Outcome(s, Refused(TokenExpired))
        else
          var rotated := s.(refresh := s.refresh[token := row.(revokedAt := Some(now))]);
          Outcome(IssuePair(rotated, now, row.userId, row.clientId, row.familyId, Decode(row.scopes), newAccess,
                            newRefresh),
                  Issued(newAccess, newRefresh))
    case RecordConsent(now, userId, clientId, scopes) =>
      if Blank(userId) || Blank(clientId) then Outcome(s, Refused(MissingId))
      else Outcome(s.(consents := s.consents[(userId, clientId) := ConsentRow(Encode(scopes), now, None)]), Done)
    case RevokeConsent(now, userId, clientId) =>
      var key := (userId, clientId);
      Outcome(s.(consents := if key in s.consents then s.consents[key := s.consents[key].(revokedAt := Some(now))]
                             else s.consents,
                 access := RevokeGrant(s.access, userId, clientId, now),
                 refresh := RevokeGrant(s.refresh, userId, clientId, now)), Done)
  }

  // ----- what a call does, on the columns of the rows -----

  /** `t`'s row is as given, and every other row but that of `spent` is as before. */
  ghost predicate TokenWritten(before: map<string, TokenRow>, after: map<string, TokenRow>, spent: Option<string>,
                               t: string, now: int, expires: int, userId: string, clientId: Option<string>,
                               family: string, scopes: string) {
    && after.Keys == before.Keys + {t}
    && after[t].userId == userId && after[t].clientId == clientId && after[t].familyId == family
    && after[t].createdAt == now && after[t].expiresAt == expires && after[t].revokedAt == None
    && after[t].scopes == scopes
    && forall u :: u in before && u != t && Some(u) != spent ==> after[u] == before[u]
  }

  /** A pair for an hour and thirty days. */
  ghost predicate PairWritten(s: State, t: State, spent: Option<string>, now: int, userId: string,
                              clientId: Option<string>, family: string, scopes: seq<string>, newAccess: string,
                              newRefresh: string) {
    && TokenWritten(s.access, t.access, None, newAccess, now, now + 3600, userId, clientId, family, Encode(scopes))
    && TokenWritten(s.refresh, t.refresh, spent, newRefresh, now, now + 2592000, userId, clientId, family,
                    Encode(scopes))
    && t.consents == s.consents
  }

  /** Only `t`'s revocation, or that of no row, differs. */
  ghost predicate RevokedAlone(before: map<string, TokenRow>, after: map<string, TokenRow>, t: string, now: int)
    requires t in before && t in after
  {
    && after[t].revokedAt == Some(now)
    && after[t].userId == before[t].userId && after[t].clientId == before[t].clientId
    && after[t].familyId == before[t].familyId && after[t].scopes == before[t].scopes
    && after[t].createdAt == before[t].createdAt && after[t].expiresAt == before[t].expiresAt
  }

  /** An exchange succeeds exactly with a stored, unused code presented in time by its own client, with the
      challenge it was asked for under and its redirect URI; otherwise the first failing check is named and
      nothing changes. */
  ghost predicate Exchanged(s: State, c: Call, t: State, reply: Reply)
    requires c.Exchange?
  {
    && (reply == Refused(UnknownCode) <==> c.code !in s.codes)
    && (c.code !in s.codes ==> t == s)
    && (c.code in s.codes ==>
          var row := s.codes[c.code];
          && (reply == Issued(c.newAccess, c.newRefresh) <==>
                row.usedAt == None && row.clientId == c.clientId && row.challenge == c.challenge
                && c.now < row.expiresAt && row.redirectUri == c.redirectUri)
          && (reply == Refused(CodeUsed) <==> row.usedAt != None)
          && (reply == Refused(ClientMismatch) <==> row.usedAt == None && row.clientId != c.clientId)
          && (reply == Refused(PkceMismatch) <==>
                row.usedAt == None && row.clientId == c.clientId && row.challenge != c.challenge)
          && (reply == Refused(CodeExpired) <==>
                row.usedAt == None && row.clientId == c.clientId && row.challenge == c.challenge
                && row.expiresAt <= c.now)
          && (reply == Refused(RedirectMismatch) <==>
                row.usedAt == None && row.clientId == c.clientId && row.challenge == c.challenge
                && c.now < row.expiresAt && row.redirectUri != c.redirectUri)
          && (reply != Issued(c.newAccess, c.newRefresh) ==> t == s)
          && (reply == Issued(c.newAccess, c.newRefresh) ==> Redeemed(s, c, t, row)))
  }

  /** The code is marked used, and the pair carries its user, client and scopes. */
  ghost predicate Redeemed(s: State, c: Call, t: State, row: CodeRow)
    requires c.Exchange?
  {
    && PairWritten(s, t, None, c.now, row.userId, Some(c.clientId), c.family, Decode(row.scopes), c.newAccess,
                   c.newRefresh)
    && t.codes.Keys == s.codes.Keys + {c.code}
    && (forall k :: k in s.codes && k != c.code ==> t.codes[k] == s.codes[k])
    && t.codes[c.code].usedAt == Some(c.now) && t.codes[c.code].clientId == row.clientId
    && t.codes[c.code].userId == row.userId && t.codes[c.code].challenge == row.challenge
    && t.codes[c.code].redirectUri == row.redirectUri && t.codes[c.code].expiresAt == row.expiresAt
    && t.codes[c.code].scopes == row.scopes
  }

  /** A refresh succeeds exactly with a stored token that is neither revoked nor expired, and then revokes it; a
      revoked one has every unrevoked token of its family revoked, and otherwise nothing changes. */
  ghost predicate Refreshed(s: State, c: Call, t: State, reply: Reply)
    requires c.Refresh?
  {
    && (reply == Refused(UnknownToken) <==> c.token !in s.refresh)
    && (c.token !in s.refresh ==> t == s)
    && (c.token in s.refresh ==>
          var row := s.refresh[c.token];
          && (reply == Issued(c.newAccess, c.newRefresh) <==> row.revokedAt == None && c.now < row.expiresAt)
          && (reply == Refused(ReuseDetected) <==> row.revokedAt != None)
          && (reply == Refused(TokenExpired) <==> row.revokedAt == None && row.expiresAt <= c.now)
          && (reply == Issued(c.newAccess, c.newRefresh) ==> Rotated(s, c, t, row))
          && (reply == Refused(ReuseDetected) ==>
                && t.codes == s.codes && t.consents == s.consents && t.families == s.families
                && FamilyRevoked(s.access, t.access, row.familyId, c.now)
                && FamilyRevoked(s.refresh, t.refresh, row.familyId, c.now))
          && (reply == Refused(TokenExpired) ==> t == s))
  }

  ghost predicate Rotated(s: State, c: Call, t: State, row: TokenRow)
    requires c.Refresh? && c.token in s.refresh
  {
    && PairWritten(s, t, Some(c.token), c.now, row.userId, row.clientId, row.familyId, Decode(row.scopes), c.newAccess,
                   c.newRefresh)
    && t.codes == s.codes && t.families == s.families
    && (c.newRefresh != c.token ==> RevokedAlone(s.refresh, t.refresh, c.token, c.now))
  }

  ghost predicate FamilyRevoked(before: map<string, TokenRow>, after: map<string, TokenRow>, family: string, now: int) {
    && after.Keys == before.Keys
    && forall t :: t in before ==>
         if before[t].familyId == family && before[t].revokedAt == None then RevokedAlone(before, after, t, now)
         else after[t] == before[t]
  }

  ghost predicate GrantRevokedRows(before: map<string, TokenRow>, after: map<string, TokenRow>, userId: string,
                                   clientId: string, now: int) {
    && after.Keys == before.Keys
    && forall t :: t in before ==>
         if before[t].userId == userId && before[t].clientId == Some(clientId) && before[t].revokedAt == None
         then RevokedAlone(before, after, t, now) else after[t] == before[t]
  }

  /** A code stored is good for ten minutes, unused, under a value not stored before. */
  ghost predicate CodeStored(s: State, c: Call, t: State, reply: Reply)
    requires c.StoreCode?
  {
    && (reply == Done <==> c.code !in s.codes)
    && (reply == Refused(Constraint) <==> c.code in s.codes)
    && t.access == s.access && t.refresh == s.refresh && t.consents == s.consents && t.families == s.families
    && (reply != Done ==> t.codes == s.codes)
    && (reply == Done ==>
          && t.codes.Keys == s.codes.Keys + {c.code} && (forall k :: k in s.codes ==> t.codes[k] == s.codes[k])
          && t.codes[c.code].clientId == c.clientId && t.codes[c.code].userId == c.userId
          && t.codes[c.code].challenge == c.challenge && t.codes[c.code].redirectUri == c.redirectUri
          && t.codes[c.code].usedAt == None && t.codes[c.code].expiresAt == c.now + 600
          && t.codes[c.code].scopes == Encode(c.scopes))
  }

  /** An access token without a client, for an hour. */
  ghost predicate AccessStored(s: State, c: Call, t: State, reply: Reply)
    requires c.StoreAccess?
  {
    && reply == Done && t.codes == s.codes && t.refresh == s.refresh && t.consents == s.consents
    && TokenWritten(s.access, t.access, None, c.token, c.now, c.now + 3600, c.userId, None, c.family, Encode(c.scopes))
  }

  /** A consent replaces the earlier one of that user and client, its revocation included. */
  ghost predicate ConsentRecorded(s: State, c: Call, t: State, reply: Reply)
    requires c.RecordConsent?
  {
    && (reply == Refused(MissingId) <==> Blank(c.userId) || Blank(c.clientId))
    && (reply == Done <==> !Blank(c.userId) && !Blank(c.clientId))
    && t.codes == s.codes && t.access == s.access && t.refresh == s.refresh && t.families == s.families
    && (reply != Done ==> t.consents == s.consents)
    && (reply == Done ==>
          var key := (c.userId, c.clientId);
          && t.consents.Keys == s.consents.Keys + {key}
          && (forall k :: k in s.consents && k != key ==> t.consents[k] == s.consents[k])
          && t.consents[key].scopes == Encode(c.scopes) && t.consents[key].grantedAt == c.now
          && t.consents[key].revokedAt == None)
  }

  /** The consent, where there is one, is marked revoked now, and so is every unrevoked token of its user and
      client. */
  ghost predicate ConsentRevoked(s: State, c: Call, t: State, reply: Reply)
    requires c.RevokeConsent?
  {
    && reply == Done && t.codes == s.codes && t.families == s.families && t.consents.Keys == s.consents.Keys
    && (forall k :: k in s.consents ==>
          && t.consents[k].scopes == s.consents[k].scopes && t.consents[k].grantedAt == s.consents[k].grantedAt
          && t.consents[k].revokedAt == if k == (c.userId, c.clientId) then Some(c.now) else s.consents[k].revokedAt)
    && GrantRevokedRows(s.access, t.access, c.userId, c.clientId, c.now)
    && GrantRevokedRows(s.refresh, t.refresh, c.userId, c.clientId, c.now)
  }

  /** Every call does on the rows what is said above. */
  ghost predicate Says(s: State, c: Call, t: State, reply: Reply) {
    match c
    case StoreCode(_, _, _, _, _, _, _) => CodeStored(s, c, t, reply)
    case StoreAccess(_, _, _, _, _) => AccessStored(s, c, t, reply)
    case Exchange(_, _, _, _, _, _, _, _) => Exchanged(s, c, t, reply)
    case Refresh(_, _, _, _) => Refreshed(s, c, t, reply)
    case RecordConsent(_, _, _, _) => ConsentRecorded(s, c, t, reply)
    case RevokeConsent(_, _, _) => ConsentRevoked(s, c, t, reply)
  }

  lemma StepSays(s: State, c: Call)
    ensures Says(s, c, Step(s, c).state, Step(s, c).reply)
  {
    if c.Exchange? { ExchangeSays(s, c); }
    else if c.Refresh? { RefreshSays(s, c); }
    else if c.RevokeConsent? { RevocationSays(s, c); }
  }

  lemma ExchangeSays(s: State, c: Call)
    requires c.Exchange?
    ensures Exchanged(s, c, Step(s, c).state, Step(s, c).reply)
  {
    var t := Step(s, c).state;
    if c.code in s.codes && Step(s, c).reply.Issued? {
      var row := s.codes[c.code];
      assert Redeemed(s, c, t, row);
    }
  }

  lemma RefreshSays(s: State, c: Call)
    requires c.Refresh?
    ensures Refreshed(s, c, Step(s, c).state, Step(s, c).reply)
  {
    if c.token in s.refresh {
      if s.refresh[c.token].revokedAt.Some? { ReuseSays(s, c); }
      else if c.now < s.refresh[c.token].expiresAt { RotationSays(s, c); }
    }
  }

  lemma ReuseSays(s: State, c: Call)
    requires c.Refresh? && c.token in s.refresh && s.refresh[c.token].revokedAt.Some?
    ensures var (o, family) := (Step(s, c), s.refresh[c.token].familyId);
            && o.reply == Refused(ReuseDetected) && o.state.codes == s.codes && o.state.consents == s.consents
            && o.state.families == s.families && FamilyRevoked(s.access, o.state.access, family, c.now)
            && FamilyRevoked(s.refresh, o.state.refresh, family, c.now)
  {
  }

  lemma RotationSays(s: State, c: Call)
    requires c.Refresh? && c.token in s.refresh && s.refresh[c.token].revokedAt.None?
    requires c.now < s.refresh[c.token].expiresAt
    ensures Step(s, c).reply == Issued(c.newAccess, c.newRefresh)
    ensures Rotated(s, c, Step(s, c).state, s.refresh[c.token])
  {
  }

  lemma RevocationSays(s: State, c: Call)
    requires c.RevokeConsent?
    ensures ConsentRevoked(s, c, Step(s, c).state, Step(s, c).reply)
  {
  }

  function Run(s: State, calls: seq<Call>): State
    decreases |calls|
  {
    if calls == [] then s else Step(Run(s, calls[..|calls| - 1]), calls[|calls| - 1]).state
  }

  /** Family ids are drawn at random: a call that founds a family never draws one in use. */
  predicate DrawsFresh(s: State, c: Call) {
    match c
    case StoreAccess(_, _, _, family, _) => family !in s.families
    case Exchange(_, _, _, _, _, family, _, _) => family !in s.families
    case _ => true
  }

  ghost predicate AllFresh(s: State, calls: seq<Call>)
    decreases |calls|
  {
    calls != [] ==>
      AllFresh(s, calls[..|calls| - 1]) && DrawsFresh(Run(s, calls[..|calls| - 1]), calls[|calls| - 1])
  }

  // ----- the invariant -----

  predicate Matches(row: TokenRow, f: Founding) {
    row.userId == f.userId && row.clientId == f.clientId && row.scopes == f.scopes
  }

  ghost predicate Founded(s: State, rows: map<string, TokenRow>) {
    forall t :: t in rows ==> rows[t].familyId in s.families && Matches(rows[t], s.families[rows[t].familyId])
  }

  ghost predicate OneLive(rows: map<string, TokenRow>) {
    forall t, u | t in rows && u in rows && rows[t].revokedAt.None? && rows[u].revokedAt.None?
                  && rows[t].familyId == rows[u].familyId :: t == u
  }

  /** A code that founded a family is used, and founded no other. */
  ghost predicate CodesFoundOnce(s: State) {
    && (forall f :: f in s.families && s.families[f].code.Some? ==>
          s.families[f].code.value in s.codes && s.codes[s.families[f].code.value].usedAt.Some?)
    && (forall f, g | f in s.families && g in s.families && s.families[f].code.Some?
                      && s.families[f].code == s.families[g].code :: f == g)
  }

  /** Founding scopes are as a decoded list is stored. */
  ghost predicate ScopesStored(s: State) {
    forall f :: f in s.families && s.families[f].clientId.Some? ==>
        Encode(Decode(s.families[f].scopes)) == s.families[f].scopes
  }

  ghost predicate Inv(s: State) {
    RowsSound(s) && CodesFoundOnce(s) && ScopesStored(s)
  }

  /** `after` is `before` with some rows revoked. */
  ghost predicate SomeRevoked(before: map<string, TokenRow>, after: map<string, TokenRow>) {
    && after.Keys == before.Keys
    && forall t :: t in before ==>
         after[t] == before[t] || (after[t] == before[t].(revokedAt := after[t].revokedAt) && after[t].revokedAt.Some?)
  }

  lemma RevokingKeeps(s: State, before: map<string, TokenRow>, after: map<string, TokenRow>)
    requires SomeRevoked(before, after)
    ensures Founded(s, before) ==> Founded(s, after)
    ensures OneLive(before) ==> OneLive(after)
  {
  }

  lemma IssuingKeeps(s: State, rows: map<string, TokenRow>, t: string, row: TokenRow)
    requires Founded(s, rows) && row.familyId in s.families && Matches(row, s.families[row.familyId])
    ensures Founded(s, rows[t := row])
    ensures OneLive(rows) && AllRevoked(rows, row.familyId) ==> OneLive(rows[t := row])
  {
  }

  lemma FoundingKeeps(s: State, rows: map<string, TokenRow>, family: string, f: Founding)
    requires Founded(s, rows) && family !in s.families
    ensures Founded(s.(families := s.families[family := f]), rows) && AllRevoked(rows, family)
  {
  }

  ghost predicate RowsSound(s: State) {
    Founded(s, s.access) && Founded(s, s.refresh) && OneLive(s.refresh)
    && forall t :: t in s.refresh ==> s.refresh[t].clientId.Some?
  }

  lemma IssuePairKeeps(s: State, now: int, userId: string, clientId: Option<string>, family: string,
                       scopes: seq<string>,
                       newAccess: string, newRefresh: string)
    requires RowsSound(s) && family in s.families && s.families[family].userId == userId && clientId.Some?
    requires s.families[family].clientId == clientId && s.families[family].scopes == Encode(scopes)
    requires AllRevoked(s.refresh, family)
    ensures RowsSound(IssuePair(s, now, userId, clientId, family, scopes, newAccess, newRefresh))
  {
    IssuingKeeps(s, s.access, newAccess, FreshRow(now, AccessTtl, userId, clientId, family, Encode(scopes)));
    IssuingKeeps(s, s.refresh, newRefresh, FreshRow(now, RefreshTtl, userId, clientId, family, Encode(scopes)));
  }

  lemma RotationKeeps(s: State, now: int, token: string)
    requires Inv(s) && token in s.refresh && s.refresh[token].revokedAt.None?
    ensures var row := s.refresh[token];
            var rotated := s.(refresh := s.refresh[token := row.(revokedAt := Some(now))]);
            && RowsSound(rotated) && AllRevoked(rotated.refresh, row.familyId)
            && Matches(row, s.families[row.familyId]) && Encode(Decode(row.scopes)) == row.scopes
  {
    var row := s.refresh[token];
    RevokingKeeps(s, s.refresh, s.refresh[token := row.(revokedAt := Some(now))]);
    assert Matches(row, s.families[row.familyId]);
  }

  lemma StoreAccessKeeps(s: State, c: Call)
    requires RowsSound(s) && c.StoreAccess? && DrawsFresh(s, c)
    ensures RowsSound(Step(s, c).state)
  {
    var f := Founding(c.userId, None, Encode(c.scopes), None);
    FoundingKeeps(s, s.access, c.family, f);
    FoundingKeeps(s, s.refresh, c.family, f);
    IssuingKeeps(s.(families := s.families[c.family := f]), s.access, c.token,
                 FreshRow(c.now, AccessTtl, c.userId, None, c.family, Encode(c.scopes)));
  }

  lemma ExchangeKeeps(s: State, c: Call)
    requires RowsSound(s) && c.Exchange? && DrawsFresh(s, c)
    ensures RowsSound(Step(s, c).state)
  {
    if ExchangeRefusal(s, c).None? {
      var row := s.codes[c.code];
      var f := Founding(row.userId, Some(c.clientId), Encode(Decode(row.scopes)), Some(c.code));
      FoundingKeeps(s, s.access, c.family, f);
      FoundingKeeps(s, s.refresh, c.family, f);
      var used := s.(codes := s.codes[c.code := row.(usedAt := Some(c.now))], families := s.families[c.family := f]);
      assert RowsSound(used);
      IssuePairKeeps(used, c.now, row.userId, Some(c.clientId), c.family, Decode(row.scopes), c.newAccess,
                     c.newRefresh);
    }
  }

  lemma RefreshKeeps(s: State, c: Call)
    requires Inv(s) && c.Refresh?
    ensures RowsSound(Step(s, c).state)
  {
    if c.token in s.refresh {
      if s.refresh[c.token].revokedAt.Some? { ReuseKeeps(s, c); }
      else if c.now < s.refresh[c.token].expiresAt { TradeKeeps(s, c); }
    }
  }

  lemma ReuseKeeps(s: State, c: Call)
    requires Inv(s) && c.Refresh? && c.token in s.refresh && s.refresh[c.token].revokedAt.Some?
    ensures RowsSound(Step(s, c).state)
  {
    var family := s.refresh[c.token].familyId;
    FamilySomeRevoked(s.access, family, c.now);
    FamilySomeRevoked(s.refresh, family, c.now);
    RevokedTablesKeep(s, RevokeFamily(s.access, family, c.now), RevokeFamily(s.refresh, family, c.now));
  }

  lemma FamilySomeRevoked(rows: map<string, TokenRow>, family: string, now: int)
    ensures SomeRevoked(rows, RevokeFamily(rows, family, now))
  {
  }

  lemma GrantSomeRevoked(rows: map<string, TokenRow>, userId: string, clientId: string, now: int)
    ensures SomeRevoked(rows, RevokeGrant(rows, userId, clientId, now))
  {
  }

  lemma RevokedTablesKeep(s: State, access: map<string, TokenRow>, refresh: map<string, TokenRow>)
    requires RowsSound(s) && SomeRevoked(s.access, access) && SomeRevoked(s.refresh, refresh)
    ensures RowsSound(s.(access := access, refresh := refresh))
  {
    var t := s.(access := access, refresh := refresh);
    RevokingKeeps(s, s.access, access);
    RevokingKeeps(s, s.refresh, refresh);
    SameFamilies(s, t, access);
    SameFamilies(s, t, refresh);
  }

  lemma SameFamilies(s: State, t: State, rows: map<string, TokenRow>)
    requires t.families == s.families && Founded(s, rows)
    ensures Founded(t, rows)
  {
  }

  lemma TradeKeeps(s: State, c: Call)
    requires Inv(s) && c.Refresh? && c.token in s.refresh && s.refresh[c.token].revokedAt.None?
    requires c.now < s.refresh[c.token].expiresAt
    ensures RowsSound(Step(s, c).state)
  {
    var row := s.refresh[c.token];
    var rotated := s.(refresh := s.refresh[c.token := row.(revokedAt := Some(c.now))]);
    RotationKeeps(s, c.now, c.token);
    IssuePairKeeps(rotated, c.now, row.userId, row.clientId, row.familyId, Decode(row.scopes), c.newAccess,
                   c.newRefresh);
  }

  lemma RevokeConsentKeeps(s: State, c: Call)
    requires RowsSound(s) && c.RevokeConsent?
    ensures RowsSound(Step(s, c).state)
  {
    var access := RevokeGrant(s.access, c.userId, c.clientId, c.now);
    var refresh := RevokeGrant(s.refresh, c.userId, c.clientId, c.now);
    GrantSomeRevoked(s.access, c.userId, c.clientId, c.now);
    GrantSomeRevoked(s.refresh, c.userId, c.clientId, c.now);
    RevokedTablesKeep(s, access, refresh);
    SameTables(s.(access := access, refresh := refresh), Step(s, c).state);
  }

  lemma SameTables(s: State, t: State)
    requires RowsSound(s) && t.access == s.access && t.refresh == s.refresh && t.families == s.families
    ensures RowsSound(t)
  {
    SameFamilies(s, t, s.access);
    SameFamilies(s, t, s.refresh);
  }

  lemma RowsStep(s: State, c: Call)
    requires Inv(s) && DrawsFresh(s, c)
    ensures RowsSound(Step(s, c).state)
  {
    if c.StoreAccess? { StoreAccessKeeps(s, c); }
    else if c.Exchange? { ExchangeKeeps(s, c); }
    else if c.Refresh? { RefreshKeeps(s, c); }
    else if c.RevokeConsent? { RevokeConsentKeeps(s, c); }
  }

  lemma CodesStep(s: State, c: Call)
    requires Inv(s) && DrawsFresh(s, c)
    ensures CodesFoundOnce(Step(s, c).state) && ScopesStored(Step(s, c).state)
  {
    if c.Exchange? {
      ExchangeCodes(s, c);
    } else if c.StoreCode? || c.StoreAccess? {
      StoredCodes(s, c);
    } else {
      OthersKeepCodes(s, c);
    }
  }

  lemma OthersKeepCodes(s: State, c: Call)
    requires !c.Exchange? && !c.StoreCode? && !c.StoreAccess?
    ensures Step(s, c).state.codes == s.codes && Step(s, c).state.families == s.families
  {
  }

  lemma ExchangeCodes(s: State, c: Call)
    requires Inv(s) && DrawsFresh(s, c) && c.Exchange?
    ensures CodesFoundOnce(Step(s, c).state) && ScopesStored(Step(s, c).state)
  {
    if ExchangeRefusal(s, c).None? { Normalised(s.codes[c.code].scopes); }
  }

  lemma StoredCodes(s: State, c: Call)
    requires Inv(s) && DrawsFresh(s, c) && (c.StoreCode? || c.StoreAccess?)
    ensures CodesFoundOnce(Step(s, c).state) && ScopesStored(Step(s, c).state)
  {
  }

  lemma StepKeepsInv(s: State, c: Call)
    requires Inv(s) && DrawsFresh(s, c)
    ensures Inv(Step(s, c).state)
  {
    RowsStep(s, c);
    CodesStep(s, c);
  }

  const Empty := State(map[], map[], map[], map[], map[])

  /** Over every run from an empty database: at most one refresh token of a family is unrevoked, every token
      carries the founding user, client and scopes, and a code founds one family at most. */
  lemma {:induction false} RunKeepsInv(calls: seq<Call>)
    requires AllFresh(Empty, calls)
    ensures Inv(Run(Empty, calls))
    decreases |calls|
  {
    if calls != [] {
      RunKeepsInv(calls[..|calls| - 1]);
      StepKeepsInv(Run(Empty, calls[..|calls| - 1]), calls[|calls| - 1]);
    }
  }

  // ----- dead families stay dead -----

  ghost predicate AllRevoked(rows: map<string, TokenRow>, family: string) {
    forall t :: t in rows && rows[t].familyId == family ==> rows[t].revokedAt.Some?
  }

  /** The family was founded and holds no unrevoked token. */
  ghost predicate Dead(s: State, family: string) {
    family in s.families && AllRevoked(s.access, family) && AllRevoked(s.refresh, family)
  }

  lemma StepKeepsDead(s: State, c: Call, family: string)
    requires DrawsFresh(s, c) && Dead(s, family)
    ensures Dead(Step(s, c).state, family)
  {
  }

  lemma {:induction false} DeadStaysDead(s: State, calls: seq<Call>, family: string)
    requires Dead(s, family) && AllFresh(s, calls)
    ensures Dead(Run(s, calls), family)
    decreases |calls|
  {
    if calls != [] {
      DeadStaysDead(s, calls[..|calls| - 1], family);
      StepKeepsDead(Run(s, calls[..|calls| - 1]), calls[|calls| - 1], family);
    }
  }

  /** Presenting a revoked refresh token kills its family, and nothing outside it. */
  lemma ReuseKillsFamily(s: State, c: Call)
    requires Inv(s) && c.Refresh? && c.token in s.refresh && s.refresh[c.token].revokedAt.Some?
    ensures Step(s, c).reply == Refused(ReuseDetected) && Dead(Step(s, c).state, s.refresh[c.token].familyId)
    ensures forall t :: t in s.access && s.access[t].familyId != s.refresh[c.token].familyId ==>
              Step(s, c).state.access[t] == s.access[t]
    ensures forall t :: t in s.refresh && s.refresh[t].familyId != s.refresh[c.token].familyId ==>
              Step(s, c).state.refresh[t] == s.refresh[t]
  {
  }

  /** Revoking a consent kills exactly the families founded for that user and client. */
  lemma RevocationKillsGrant(s: State, now: int, userId: string, clientId: string, family: string)
    requires Inv(s) && family in s.families
    ensures var f := s.families[family];
            var t := Step(s, RevokeConsent(now, userId, clientId)).state;
            if f.userId == userId && f.clientId == Some(clientId) then Dead(t, family)
            else Dead(t, family) <==> Dead(s, family)
  {
    GrantRevoked(s, s.access, userId, clientId, now, family);
    GrantRevoked(s, s.refresh, userId, clientId, now, family);
  }

  lemma GrantRevoked(s: State, rows: map<string, TokenRow>, userId: string, clientId: string, now: int, family: string)
    requires Founded(s, rows) && family in s.families
    ensures var f := s.families[family];
            AllRevoked(RevokeGrant(rows, userId, clientId, now), family) <==>
              (f.userId == userId && f.clientId == Some(clientId)) || AllRevoked(rows, family)
  {
    var after := RevokeGrant(rows, userId, clientId, now);
    var f := s.families[family];
    forall t | t in rows && rows[t].familyId == family
      ensures after[t] == if f.userId == userId && f.clientId == Some(clientId) then Revoke(rows[t], now) else rows[t]
    {
      assert Matches(rows[t], f);
    }
  }

  // ----- a refresh token buys one pair -----

  /** Tokens are drawn at random: no later call mints this one again. */
  ghost predicate NeverMints(calls: seq<Call>, token: string) {
    forall i :: 0 <= i < |calls| ==>
      (calls[i].Exchange? || calls[i].Refresh?) ==> calls[i].newRefresh != token
  }

  ghost predicate RevokedIn(s: State, token: string, family: string) {
    token in s.refresh && s.refresh[token].revokedAt.Some? && s.refresh[token].familyId == family
  }

  lemma {:induction false} RevokedStaysRevoked(s: State, calls: seq<Call>, token: string, family: string)
    requires RevokedIn(s, token, family) && NeverMints(calls, token)
    ensures RevokedIn(Run(s, calls), token, family)
    decreases |calls|
  {
    if calls != [] {
      var front := calls[..|calls| - 1];
      assert forall i :: 0 <= i < |front| ==> front[i] == calls[i];
      RevokedStaysRevoked(s, front, token, family);
      StepKeepsRevoked(Run(s, front), calls[|calls| - 1], token, family);
    }
  }

  lemma StepKeepsRevoked(s: State, c: Call, token: string, family: string)
    requires RevokedIn(s, token, family) && (c.Exchange? || c.Refresh? ==> c.newRefresh != token)
    ensures RevokedIn(Step(s, c).state, token, family)
  {
  }

  lemma {:induction false} RunKeepsInvFrom(s: State, calls: seq<Call>)
    requires Inv(s) && AllFresh(s, calls)
    ensures Inv(Run(s, calls))
    decreases |calls|
  {
    if calls != [] {
      RunKeepsInvFrom(s, calls[..|calls| - 1]);
      StepKeepsInv(Run(s, calls[..|calls| - 1]), calls[|calls| - 1]);
    }
  }

  /** A token that has been traded in is refused ever after, and presenting it kills its family for good. */
  lemma TradedInTokenIsReuse(s: State, first: Call, calls: seq<Call>, again: Call, later: seq<Call>)
    requires Inv(s) && first.Refresh? && Step(s, first).reply.Issued? && first.newRefresh != first.token
    requires var t := Step(s, first).state;
             AllFresh(t, calls) && NeverMints(calls, first.token) && again.Refresh? && again.token == first.token
    requires AllFresh(Step(Run(Step(s, first).state, calls), again).state, later)
    ensures var u := Run(Step(s, first).state, calls);
            && Step(u, again).reply == Refused(ReuseDetected)
            && Dead(Run(Step(u, again).state, later), s.refresh[first.token].familyId)
  {
    var family := s.refresh[first.token].familyId;
    var t := Step(s, first).state;
    StepKeepsInv(s, first);
    RunKeepsInvFrom(t, calls);
    RevokedStaysRevoked(t, calls, first.token, family);
    ReuseKillsFamily(Run(t, calls), again);
    DeadStaysDead(Step(Run(t, calls), again).state, later, family);
  }
}
