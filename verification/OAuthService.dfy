/**
One request at a time: consenting, exchanging a code, refreshing, and authenticating
with an access token (Approve, exchangeCode, refresh and Authenticate of internal/application/
oauth.go), over the store of OAuth.
*/
module OAuthService {
  import opened Core
  import opened Policy
  import opened OAuthScopes
  import opened OAuth
  import opened OAuthRuns
  import FormAnswers

  datatype OAuthError = Forbidden | InvalidGrant | InvalidScope | Unauthorized

  lemma UsableNext(role: Role, scopes: seq<ApiScope>, i: nat)
    requires i < |scopes|
    ensures Usable(role, scopes[i..]) ==
            (if ScopeUsable(role, scopes[i]) then [scopes[i]] else []) + Usable(role, scopes[i + 1..])
  {
    assert scopes[i..][1..] == scopes[i + 1..];
  }

  method UsableScopes(role: Role, scopes: seq<ApiScope>) returns (kept: seq<ApiScope>)
    ensures kept == Usable(role, scopes)
  {
    kept := [];
    assert scopes[0..] == scopes;
    for i := 0 to |scopes|
      invariant kept + Usable(role, scopes[i..]) == Usable(role, scopes)
    {
      UsableNext(role, scopes, i);
      if ScopeUsable(role, scopes[i]) {
        kept := kept + [scopes[i]];
      }
    }
  }

  // Only an active person consents; the code carries the scopes their role can use,
  // and nothing is stored when none is left.
  method Approve(store: OAuthStore, consent: Approval, code: Secret) returns (r: Result<Code, OAuthError>)
    modifies store
    ensures r.Ok? <==> consent.user.active && !consent.user.service && Usable(consent.user.role, consent.requested) != []
    ensures r.Ok? ==> r.value == CodeOf(consent) && store.Now() == CodeStored(old(store.Now()), code, r.value, consent.at)
    ensures r.Err? ==> store.Now() == old(store.Now())
  {
    if consent.user.service || !consent.user.active {
      return Err(Forbidden);
    }
    var scopes := UsableScopes(consent.user.role, consent.requested);
    if |scopes| == 0 {
      return Err(InvalidScope);
    }
    var stored := Code(consent.client, consent.user.id, consent.redirect, consent.challenge, scopes, consent.resource,
                       consent.at + CodeTtl, false, None);
    store.CreateCode(code, stored, consent.at);
    return Ok(stored);
  }

  // The code is spent before it is checked, so a failed exchange spends it too; a
  // code presented again only revokes.
  method ExchangeCode(store: OAuthStore, users: map<UserId, User>, rules: Rules, code: Secret, ask: Exchange,
      now: Instant, pair: Pair)
      returns (r: Result<Grant, OAuthError>)
    modifies store
    ensures var before := old(store.Now());
            r.Ok? <==> code in before.codes && !before.codes[code].used && Matches(rules, before.codes[code], ask, now) &&
                       ActivePerson(users, before.codes[code].user)
    ensures r.Ok? ==> store.Now() == GrantStored(CodeConsumed(old(store.Now()), code), r.value, code, pair, now)
    ensures r.Ok? ==> r.value == GrantOf(old(store.codes)[code], ask)
    ensures r.Err? ==> store.Now() == CodeConsumed(old(store.Now()), code)
  {
    var consumed := store.ConsumeCode(code);
    if consumed.Err? {
      return Err(InvalidGrant);
    }
    var c := consumed.value;
    if now >= c.expires || c.client != ask.client || c.redirect != ask.redirect || !rules.validVerifier(ask.verifier) {
      return Err(InvalidGrant);
    }
    if rules.challengeOf(ask.verifier) != c.challenge {
      return Err(InvalidGrant);
    }
    if ask.resource != "" && !rules.same(ask.resource, c.resource) {
      return Err(InvalidGrant);
    }
    if !ActivePerson(users, c.user) {
      return Err(InvalidGrant);
    }
    var grant := GrantOf(c, ask);
    var stored := store.CreateGrant(grant, code, pair, now);
    return Ok(grant);
  }

  // The refresh asks for nothing the grant does not already carry.
  ghost predicate AsksWithin(scope: string, isSpace: char -> bool, granted: seq<ApiScope>) {
    FormAnswers.Trim(scope, isSpace) == "" ||
    exists asked :: McpParsesTo(scope, isSpace, asked) && forall s :: s in asked ==> s in granted
  }

  // A scope text asks for one list at most, and for none when the parser refuses it.
  lemma ParseUnique(scope: string, isSpace: char -> bool)
    ensures forall a, b :: McpParsesTo(scope, isSpace, a) && McpParsesTo(scope, isSpace, b) ==> a == b
    ensures Mentions(Fields(scope, isSpace), TicketsAll) || HasUnknown(Fields(scope, isSpace)) ==>
              forall a :: !McpParsesTo(scope, isSpace, a)
  {
    forall a, b | McpParsesTo(scope, isSpace, a) && McpParsesTo(scope, isSpace, b)
      ensures a == b
    {
      if Fields(scope, isSpace) != [] {
        AscendingUnique(a, b);
      }
    }
  }

  // The token can be spent by this client now: unexpired, of a live grant of this
  // client whose person is active.
  predicate Refreshable(db: Db, users: map<UserId, User>, client: nat, token: Secret, now: Instant) {
    && Spendable(db, token) && now < db.tokens[token].expires && db.tokens[token].grant in db.grants
    && var g := db.grants[db.tokens[token].grant];
       g.client == client && !g.revoked && ActivePerson(users, g.user)
  }

  // A refresh succeeds if and only if the token can be spent and the request stays
  // within the grant; the new pair carries the grant's own scopes.  A spent token
  // only revokes its grant, and any other failure changes nothing.
  method Refresh(store: OAuthStore, users: map<UserId, User>, client: nat, token: Secret, scope: string,
      isSpace: char -> bool, now: Instant, pair: Pair)
      returns (r: Result<seq<ApiScope>, OAuthError>)
    modifies store
    ensures var before := old(store.Now());
            r.Ok? <==> Refreshable(before, users, client, token, now) &&
                       AsksWithin(scope, isSpace, before.grants[before.tokens[token].grant].scopes)
    ensures r.Ok? ==>
              && r.value == old(store.grants)[old(store.tokens)[token].grant].scopes
              && store.Now() == TokenRotated(old(store.Now()), token, Some(pair), now)
    ensures r.Err? ==>
              var before := old(store.Now());
              store.Now() == if token in before.tokens && before.tokens[token].kind == TokenKind.Refresh && before.tokens[token].used
                             then Revoked(before, before.tokens[token].grant) else before
    ensures r.Err? ==> r.error == if Refreshable(old(store.Now()), users, client, token, now) then InvalidScope else InvalidGrant
  {
    ParseUnique(scope, isSpace);
    if token !in store.tokens {
      return Err(InvalidGrant);
    }
    var t := store.tokens[token];
    if t.kind != TokenKind.Refresh {
      return Err(InvalidGrant);
    }
    if t.used {
      var rotated := store.RotateRefreshToken(token, None, now);
      return Err(InvalidGrant);
    }
    if t.grant !in store.grants {
      return Err(InvalidGrant);
    }
    var g := store.grants[t.grant];
    if now >= t.expires || g.client != client || g.revoked {
      return Err(InvalidGrant);
    }
    if !ActivePerson(users, g.user) {
      return Err(InvalidGrant);
    }
    if FormAnswers.Trim(scope, isSpace) != "" {
      var asked := ParseMcpScopes(scope, isSpace);
      if asked.Err? {
        return Err(InvalidScope);
      }
      var within := ScopesWithin(asked.value, g.scopes);
      if !within {
        return Err(InvalidScope);
      }
    }
    var rotated := store.RotateRefreshToken(token, Some(pair), now);
    return Ok(g.scopes);
  }

  datatype Principal = Principal(user: User, grant: nat, scopes: seq<ApiScope>, capabilities: set<Capability>)

  // An unexpired access token of a live grant for this resource, whose person is active.
  predicate TokenActs(db: Db, users: map<UserId, User>, rules: Rules, token: Secret, now: Instant) {
    && token in db.tokens && db.tokens[token].kind == Access && now < db.tokens[token].expires
    && db.tokens[token].grant in db.grants
    && var g := db.grants[db.tokens[token].grant];
       !g.revoked && g.resource == rules.resource && ActivePerson(users, g.user)
  }

  // An access token acts for its person if and only if it is an unexpired access
  // token of a live grant for this resource and the person is active; it then
  // carries what the person's present role holds and the grant's scopes allow.
  method Authenticate(store: OAuthStore, users: map<UserId, User>, rules: Rules, token: Secret, now: Instant)
      returns (r: Result<Principal, OAuthError>)
    ensures r.Ok? <==> TokenActs(store.Now(), users, rules, token, now)
    ensures r.Ok? ==>
              && r.value.grant == store.tokens[token].grant
              && var g := store.grants[r.value.grant];
              && r.value.user == users[g.user] && r.value.scopes == g.scopes
              && forall c :: c in r.value.capabilities <==>
                   c in Capabilities(r.value.user.role) && exists s :: s in g.scopes && c in ScopeCapabilities(s)
  {
    if token !in store.tokens {
      return Err(Unauthorized);
    }
    var t := store.tokens[token];
    if t.kind != Access || now >= t.expires {
      return Err(Unauthorized);
    }
    if t.grant !in store.grants {
      return Err(Unauthorized);
    }
    var g := store.grants[t.grant];
    if g.revoked || g.resource != rules.resource {
      return Err(Unauthorized);
    }
    if !ActivePerson(users, g.user) {
      return Err(Unauthorized);
    }
    var caps := ScopedCapabilities(users[g.user].role, g.scopes);
    return Ok(Principal(users[g.user], t.grant, g.scopes, caps));
  }
}
