/**
The MCP authorization server's store (internal/adapters/sqlite/oauth_store.go over
migration 0042): each method is one transaction.  A code or token is named by its
secret: secrets are drawn fresh and their digests do not collide.
*/
module OAuth {
  import opened Core
  import opened OAuthScopes

  type Secret = nat

  datatype TokenKind = Access | Refresh

  datatype Code = Code(
    client: nat, user: UserId, redirect: string, challenge: string, scopes: seq<ApiScope>, resource: string,
    expires: Instant, used: bool, grant: Option<nat>)

  datatype Grant = Grant(user: UserId, client: nat, scopes: seq<ApiScope>, resource: string, revoked: bool)

  datatype Token = Token(grant: nat, kind: TokenKind, expires: Instant, used: bool)

  datatype Pair = Pair(access: Secret, refresh: Secret)

  datatype Db = Db(codes: map<Secret, Code>, grants: map<nat, Grant>, tokens: map<Secret, Token>, nextGrant: nat)

  // Seconds.
  const CodeTtl: int := 60
  const AccessTtl: int := 3600
  const RefreshTtl: int := 30 * 24 * 3600

  // ---- One transaction each, on values --------------------------------------------

  function Revoked(db: Db, g: nat): Db {
    if g in db.grants then db.(grants := db.grants[g := db.grants[g].(revoked := true)]) else db
  }

  function WithPair(db: Db, g: nat, pair: Pair, now: Instant): Db {
    db.(tokens := db.tokens[pair.access := Token(g, Access, now + AccessTtl, false)]
                           [pair.refresh := Token(g, Refresh, now + RefreshTtl, false)])
  }

  // A new code; never-used codes that expired are dropped.
  function CodeStored(db: Db, s: Secret, c: Code, now: Instant): Db {
    db.(codes := (map k | k in db.codes && !(!db.codes[k].used && db.codes[k].expires < now) :: db.codes[k])[s := c])
  }

  // A code is spent once; spending it again revokes the grant it was exchanged for.
  function CodeConsumed(db: Db, s: Secret): Db {
    if s !in db.codes then db
    else if db.codes[s].used then (if db.codes[s].grant.Some? then Revoked(db, db.codes[s].grant.value) else db)
    else db.(codes := db.codes[s := db.codes[s].(used := true)])
  }

  // A grant, the link from its code, and its first pair; without the code, nothing.
  function GrantStored(db: Db, grant: Grant, s: Secret, pair: Pair, now: Instant): Db {
    if s !in db.codes then db
    else
      WithPair(db.(grants := db.grants[db.nextGrant := grant],
                   codes := db.codes[s := db.codes[s].(grant := Some(db.nextGrant))],
                   nextGrant := db.nextGrant + 1),
               db.nextGrant, pair, now)
  }

  predicate Spendable(db: Db, s: Secret) {
    s in db.tokens && db.tokens[s].kind == Refresh && !db.tokens[s].used
  }

  // A rotation spends the token, drops the grant's expired tokens and stores the
  // new pair; a token that cannot be spent revokes its grant instead.
  function TokenRotated(db: Db, s: Secret, pair: Option<Pair>, now: Instant): Db {
    if Spendable(db, s) then
      var g := db.tokens[s].grant;
      var spent := db.tokens[s := db.tokens[s].(used := true)];
      var kept := db.(tokens := map k | k in spent && !(spent[k].grant == g && spent[k].expires < now) :: spent[k]);
      if pair.Some? then WithPair(kept, g, pair.value, now) else kept
    else if s in db.tokens then Revoked(db, db.tokens[s].grant)
    else db
  }

  function OwnGrantRevoked(db: Db, g: nat, user: UserId): Db {
    if g in db.grants && db.grants[g].user == user && !db.grants[g].revoked then Revoked(db, g) else db
  }

  // Clients no grant references may be pruned, with their codes.
  function ClientsPruned(db: Db, clients: set<nat>): Db
    requires forall g :: g in db.grants ==> db.grants[g].client !in clients
  {
    db.(codes := map k | k in db.codes && db.codes[k].client !in clients :: db.codes[k])
  }

  // Deactivating people revokes their live grants.
  function PeopleDeactivated(db: Db, people: set<UserId>): Db {
    db.(grants := map g | g in db.grants :: if db.grants[g].user in people then db.grants[g].(revoked := true) else db.grants[g])
  }

  datatype CodeError = NotFound | Reused

  class OAuthStore {
    var codes: map<Secret, Code>
    var grants: map<nat, Grant>
    var tokens: map<Secret, Token>
    var nextGrant: nat

    function Now(): Db
      reads this
    {
      Db(codes, grants, tokens, nextGrant)
    }

    constructor ()
      ensures Now() == Db(map[], map[], map[], 1)
    {
      codes, grants, tokens, nextGrant := map[], map[], map[], 1;
    }

    method RevokeByTkt(g: nat)
      modifies this`grants
      ensures Now() == Revoked(old(Now()), g)
    {
      if g in grants {
        grants := grants[g := grants[g].(revoked := true)];
      }
    }

    method InsertPair(g: nat, pair: Pair, now: Instant)
      modifies this`tokens
      ensures Now() == WithPair(old(Now()), g, pair, now)
    {
      tokens := tokens[pair.access := Token(g, Access, now + AccessTtl, false)];
      tokens := tokens[pair.refresh := Token(g, Refresh, now + RefreshTtl, false)];
    }

    method CreateCode(s: Secret, c: Code, now: Instant)
      modifies this`codes
      ensures Now() == CodeStored(old(Now()), s, c, now)
    {
      codes := map k | k in codes && !(!codes[k].used && codes[k].expires < now) :: codes[k];
      codes := codes[s := c];
    }

    // Answers the code as it was before it was spent.
    method ConsumeCode(s: Secret) returns (r: Result<Code, CodeError>)
      modifies this`codes, this`grants
      ensures Now() == CodeConsumed(old(Now()), s)
      ensures r == if s !in old(codes) then Err(NotFound) else if old(codes)[s].used then Err(Reused) else Ok(old(codes)[s])
    {
      if s !in codes {
        return Err(NotFound);
      }
      var c := codes[s];
      if c.used {
        if c.grant.Some? {
          RevokeByTkt(c.grant.value);
        }
        return Err(Reused);
      }
      codes := codes[s := c.(used := true)];
      return Ok(c);
    }

    method CreateGrant(grant: Grant, s: Secret, pair: Pair, now: Instant) returns (stored: bool)
      modifies this
      ensures Now() == GrantStored(old(Now()), grant, s, pair, now)
      ensures stored == (s in old(codes))
    {
      if s !in codes {
        return false;
      }
      var id := nextGrant;
      grants := grants[id := grant];
      nextGrant := nextGrant + 1;
      codes := codes[s := codes[s].(grant := Some(id))];
      InsertPair(id, pair, now);
      return true;
    }

    method RotateRefreshToken(s: Secret, pair: Option<Pair>, now: Instant) returns (rotated: bool)
      modifies this`tokens, this`grants
      ensures Now() == TokenRotated(old(Now()), s, pair, now)
      ensures rotated == Spendable(old(Now()), s)
    {
      if s !in tokens {
        return false;
      }
      var t := tokens[s];
      if t.kind != Refresh || t.used {
        RevokeByTkt(t.grant);
        return false;
      }
      tokens := tokens[s := t.(used := true)];
      tokens := map k | k in tokens && !(tokens[k].grant == t.grant && tokens[k].expires < now) :: tokens[k];
      if pair.Some? {
        InsertPair(t.grant, pair.value, now);
      }
      return true;
    }

    method RevokeGrant(g: nat, user: UserId) returns (revoked: bool)
      modifies this`grants
      ensures Now() == OwnGrantRevoked(old(Now()), g, user)
      ensures revoked == (g in old(grants) && old(grants)[g].user == user && !old(grants)[g].revoked)
    {
      if g !in grants || grants[g].user != user || grants[g].revoked {
        return false;
      }
      grants := grants[g := grants[g].(revoked := true)];
      return true;
    }
  }
}
