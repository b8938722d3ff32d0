/**
Every interleaving of the authorization server's requests
(internal/application/oauth.go): consent, code exchange, refresh, a request with
an access token, revocation, deactivation, pruning.  A consent is a read of the
session's person and one transaction, an exchange two transactions and a refresh two
reads and one transaction; any other step may fall between them, and a request may
stop at any point.
*/
module OAuthRuns {
  import opened Core
  import opened Policy
  import opened OAuthScopes
  import opened OAuth

  // What the service computes with: the PKCE transformation, the verifier syntax,
  // and resource equality.
  datatype Rules = Rules(challengeOf: string -> string, validVerifier: string -> bool, same: (string, string) -> bool, resource: string)

  datatype Exchange = Exchange(client: nat, redirect: string, verifier: string, resource: string)

  datatype Request =
    // A consent whose session has read the person.
    | Consenting(approval: Approval)
    // An exchange that spent its code, and one whose checks passed.
    | Exchanging(code: Secret, stored: Code, ask: Exchange)
    | Redeeming(code: Secret, stored: Code, ask: Exchange, at: Instant)
    // A refresh that read its token: already spent, or to be checked, or checked.
    | Replaying(token: Secret)
    | Refreshing(token: Secret, read: Token)
    | Rotating(token: Secret, grant: nat)
    // A request with an access token, and one whose grant was found live.
    | Presenting(grant: nat)
    | Opened(grant: nat)

  // A person's consent, as it was given.
  datatype Approval = Approval(
    user: User, client: nat, redirect: string, challenge: string, requested: seq<ApiScope>, resource: string, at: Instant)

  // How a code became a grant.
  datatype Redemption = Redemption(code: Secret, ask: Exchange, at: Instant)

  // `drawn`, `approvals`, `redemptions` and `chain` are history, not stored state;
  // `chain[g]` lists the refresh tokens of grant `g` in the order they were minted.
  datatype World = World(
    db: Db,
    users: map<UserId, User>,
    pending: map<nat, Request>,
    drawn: set<Secret>,
    approvals: map<Secret, Approval>,
    redemptions: map<nat, Redemption>,
    chain: map<nat, seq<Secret>>)

  datatype Label =
    | ReadConsent(id: nat, approval: Approval)
    | Approve(id: nat, code: Secret)
    | Consume(id: nat, code: Secret, ask: Exchange)
    | Check(id: nat, at: Instant)
    | Redeem(id: nat, pair: Pair)
    | ReadRefresh(id: nat, token: Secret)
    | Replay(id: nat, at: Instant)
    | CheckRefresh(id: nat, client: nat, at: Instant)
    | Rotate(id: nat, pair: Pair, at: Instant)
    | Present(id: nat, token: Secret, at: Instant)
    | Open(id: nat)
    | Accept(id: nat)
    | Revoke(grant: nat, user: UserId)
    | ChangePeople(users: map<UserId, User>)
    | Prune(clients: set<nat>)
    | Abandon(id: nat)

  predicate ActivePerson(users: map<UserId, User>, u: UserId) {
    u in users && users[u].active && !users[u].service
  }

  predicate FreshPair(w: World, pair: Pair) {
    pair.access !in w.drawn && pair.refresh !in w.drawn && pair.access != pair.refresh
  }

  // The exchange matches the code: not expired, same client and redirect, and the
  // verifier hashes to the challenge.
  predicate Matches(rules: Rules, c: Code, ask: Exchange, at: Instant) {
    && at < c.expires && c.client == ask.client && c.redirect == ask.redirect
    && rules.validVerifier(ask.verifier) && rules.challengeOf(ask.verifier) == c.challenge
    && (ask.resource != "" ==> rules.same(ask.resource, c.resource))
  }

  function Deactivated(before: map<UserId, User>, after: map<UserId, User>): set<UserId> {
    set u | u in before && u in after && before[u].active && !after[u].active
  }

  function CodeOf(a: Approval): Code {
    Code(a.client, a.user.id, a.redirect, a.challenge, Usable(a.user.role, a.requested), a.resource, a.at + CodeTtl, false, None)
  }

  function GrantOf(c: Code, ask: Exchange): Grant { Grant(c.user, ask.client, c.scopes, c.resource, false) }

  ghost predicate Steps(rules: Rules, w: World, l: Label, w': World) {
    match l
    case ReadConsent(id, a) =>
      && id !in w.pending && a.user.id in w.users && w.users[a.user.id] == a.user
      && w' == w.(pending := w.pending[id := Consenting(a)])
    case Approve(id, s) =>
      && id in w.pending && w.pending[id].Consenting?
      && var a := w.pending[id].approval;
      && a.user.active && !a.user.service && Grantable(a.requested) && Usable(a.user.role, a.requested) != [] && s !in w.drawn
      && w' == w.(db := CodeStored(w.db, s, CodeOf(a), a.at), pending := w.pending - {id},
                  drawn := w.drawn + {s}, approvals := w.approvals[s := a])
    case Consume(id, s, ask) =>
      && id !in w.pending
      && w' == w.(db := CodeConsumed(w.db, s),
                  pending := if s in w.db.codes && !w.db.codes[s].used then w.pending[id := Exchanging(s, w.db.codes[s], ask)] else w.pending)
    case Check(id, at) =>
      && id in w.pending && w.pending[id].Exchanging?
      && var p := w.pending[id];
      && Matches(rules, p.stored, p.ask, at) && ActivePerson(w.users, p.stored.user)
      && w' == w.(pending := w.pending[id := Redeeming(p.code, p.stored, p.ask, at)])
    case Redeem(id, pair) =>
      && id in w.pending && w.pending[id].Redeeming? && FreshPair(w, pair)
      && var p := w.pending[id];
         var linked := p.code in w.db.codes;
      && w' == w.(db := GrantStored(w.db, GrantOf(p.stored, p.ask), p.code, pair, p.at),
                  pending := w.pending - {id},
                  drawn := w.drawn + {pair.access, pair.refresh},
                  redemptions := if linked then w.redemptions[w.db.nextGrant := Redemption(p.code, p.ask, p.at)] else w.redemptions,
                  chain := if linked then w.chain[w.db.nextGrant := [pair.refresh]] else w.chain)
    case ReadRefresh(id, s) =>
      && id !in w.pending && s in w.db.tokens && w.db.tokens[s].kind == Refresh
      && w' == w.(pending := w.pending[id := if w.db.tokens[s].used then Replaying(s) else Refreshing(s, w.db.tokens[s])])
    case Replay(id, at) =>
      && id in w.pending && w.pending[id].Replaying?
      && w' == w.(db := TokenRotated(w.db, w.pending[id].token, None, at), pending := w.pending - {id})
    case CheckRefresh(id, client, at) =>
      && id in w.pending && w.pending[id].Refreshing?
      && var p := w.pending[id];
      && p.read.grant in w.db.grants && at < p.read.expires
      && var g := w.db.grants[p.read.grant];
      && g.client == client && !g.revoked && ActivePerson(w.users, g.user)
      && w' == w.(pending := w.pending[id := Rotating(p.token, p.read.grant)])
    case Rotate(id, pair, at) =>
      && id in w.pending && w.pending[id].Rotating? && FreshPair(w, pair)
      && var s := w.pending[id].token;
      && w' == w.(db := TokenRotated(w.db, s, Some(pair), at),
                  pending := w.pending - {id},
                  drawn := w.drawn + {pair.access, pair.refresh},
                  chain := if Spendable(w.db, s) && w.db.tokens[s].grant in w.chain
                           then w.chain[w.db.tokens[s].grant := w.chain[w.db.tokens[s].grant] + [pair.refresh]] else w.chain)
    case Present(id, s, at) =>
      && id !in w.pending && s in w.db.tokens && w.db.tokens[s].kind == Access && at < w.db.tokens[s].expires
      && w' == w.(pending := w.pending[id := Presenting(w.db.tokens[s].grant)])
    case Open(id) =>
      && id in w.pending && w.pending[id].Presenting?
      && var g := w.pending[id].grant;
      && g in w.db.grants && !w.db.grants[g].revoked && w.db.grants[g].resource == rules.resource
      && w' == w.(pending := w.pending[id := Opened(g)])
    case Accept(id) =>
      && id in w.pending && w.pending[id].Opened? && w.pending[id].grant in w.db.grants
      && ActivePerson(w.users, w.db.grants[w.pending[id].grant].user)
      && w' == w.(pending := w.pending - {id})
    case Revoke(g, user) => w' == w.(db := OwnGrantRevoked(w.db, g, user))
    case ChangePeople(users) =>
      w' == w.(users := users, db := PeopleDeactivated(w.db, Deactivated(w.users, users)))
    case Prune(clients) =>
      && (forall g :: g in w.db.grants ==> w.db.grants[g].client !in clients)
      && w' == w.(db := ClientsPruned(w.db, clients))
    case Abandon(id) => w' == w.(pending := w.pending - {id})
  }

  ghost predicate Initial(w: World) {
    && w.db == Db(map[], map[], map[], 1) && w.pending == map[] && w.drawn == {}
    && w.approvals == map[] && w.redemptions == map[] && w.chain == map[]
  }

  ghost predicate IsRun(rules: Rules, trace: seq<World>, labels: seq<Label>) {
    && |trace| == |labels| + 1 && Initial(trace[0])
    && forall i :: 0 <= i < |labels| ==> StepAt(rules, trace, labels, i)
  }

  ghost predicate StepAt(rules: Rules, trace: seq<World>, labels: seq<Label>, i: nat) {
    i < |labels| && i + 1 < |trace| && Steps(rules, trace[i], labels[i], trace[i + 1])
  }

  // ---- What every run keeps ------------------------------------------------------

  // The code is the one a consent created: an active person's, for scopes a client
  // may be granted, narrowed to what the person's role can use.
  ghost predicate FromApproval(w: World, s: Secret, c: Code) {
    && s in w.drawn && s in w.approvals
    && var a := w.approvals[s];
    && a.user.active && !a.user.service && Grantable(a.requested) && Usable(a.user.role, a.requested) != []
    && c.(used := false, grant := None) == CodeOf(a)
  }

  ghost predicate CodesOk(w: World) {
    forall s :: s in w.db.codes ==>
      && FromApproval(w, s, w.db.codes[s])
      && (w.db.codes[s].grant.Some? ==>
            var g := w.db.codes[s].grant.value;
            g in w.db.grants && g in w.redemptions && w.redemptions[g].code == s && w.db.codes[s].used)
  }

  // A grant comes from one consent of an active person, redeemed once, in time, by
  // the same client, with the same redirect and the consent's own verifier; its
  // scopes are the consented ones and its code is still there to be replayed.
  ghost predicate Redeemed(rules: Rules, w: World, g: nat) {
    && g in w.db.grants && g in w.redemptions
    && var r := w.redemptions[g];
    && r.code in w.db.codes
    && var c := w.db.codes[r.code];
    && c.grant == Some(g)
    && Matches(rules, c, r.ask, r.at)
    && w.db.grants[g].(revoked := false) == GrantOf(c, r.ask)
  }

  ghost predicate GrantsOk(rules: Rules, w: World) {
    && (forall g :: g in w.db.grants <==> g in w.redemptions)
    && (forall g :: g in w.db.grants ==> g < w.db.nextGrant && Redeemed(rules, w, g))
  }

  // The refresh tokens of a grant are one chain: no secret twice, and every stored
  // one but the last is spent.
  ghost predicate ChainOk(w: World, g: nat) {
    g in w.chain && Line(w.chain[g], w.drawn, w.db.tokens)
  }

  ghost predicate Line(chain: seq<Secret>, drawn: set<Secret>, tokens: map<Secret, Token>) {
    && |chain| > 0
    && (forall i, j :: 0 <= i < j < |chain| ==> chain[i] != chain[j])
    && (forall s :: s in chain ==> s in drawn)
    && forall s :: s in chain && s in tokens && s != chain[|chain| - 1] ==> tokens[s].used
  }

  lemma LineExtends(chain: seq<Secret>, drawn: set<Secret>, tokens: map<Secret, Token>, next: Secret,
      drawn': set<Secret>, tokens': map<Secret, Token>)
    requires Line(chain, drawn, tokens) && next !in drawn && drawn <= drawn' && next in drawn'
    requires forall s :: s in chain && s in tokens' ==> tokens'[s].used
    ensures Line(chain + [next], drawn', tokens')
  {
    var longer := chain + [next];
    forall i, j | 0 <= i < j < |longer|
      ensures longer[i] != longer[j]
    {
      if j == |chain| {
        assert chain[i] in chain;
      }
    }
    assert longer[|longer| - 1] == next;
  }

  lemma LineKept(chain: seq<Secret>, drawn: set<Secret>, tokens: map<Secret, Token>, drawn': set<Secret>,
      tokens': map<Secret, Token>)
    requires Line(chain, drawn, tokens) && drawn <= drawn'
    requires forall s :: s in chain && s in tokens' ==> s in tokens && (tokens[s].used ==> tokens'[s].used)
    ensures Line(chain, drawn', tokens')
  {
  }

  ghost predicate TokensOk(w: World) {
    && (forall g :: g in w.db.grants <==> g in w.chain)
    && (forall g :: g in w.db.grants ==> ChainOk(w, g))
    && forall s :: s in w.db.tokens ==> StoredOk(w, s)
  }

  ghost predicate StoredOk(w: World, s: Secret) {
    s in w.db.tokens ==>
      && s in w.drawn && w.db.tokens[s].grant in w.db.grants && w.db.tokens[s].grant in w.chain
      && (w.db.tokens[s].kind == Refresh ==> s in w.chain[w.db.tokens[s].grant])
  }

  // The code an exchange under way has spent.
  function Held(r: Request): Option<Secret> {
    if r.Exchanging? || r.Redeeming? then Some(r.code) else None
  }

  ghost predicate RequestOk(rules: Rules, w: World, r: Request) {
    Held(r).Some? ==>
      && FromApproval(w, r.code, r.stored) && r.stored.grant.None? && !r.stored.used
      && (r.code in w.db.codes ==> w.db.codes[r.code] == r.stored.(used := true))
      && (r.Redeeming? ==> Matches(rules, r.stored, r.ask, r.at))
  }

  // Two exchanges never hold the same code.
  ghost predicate Apart(w: World) {
    forall id, other :: id in w.pending && other in w.pending && id != other && Held(w.pending[id]).Some? ==>
      Held(w.pending[id]) != Held(w.pending[other])
  }

  ghost predicate RequestsOk(rules: Rules, w: World) {
    && (forall id :: id in w.pending ==> RequestOk(rules, w, w.pending[id]))
    && Apart(w)
  }

  ghost predicate Invariant(rules: Rules, w: World) {
    CodesOk(w) && GrantsOk(rules, w) && TokensOk(w) && RequestsOk(rules, w) && w.approvals.Keys <= w.drawn
  }

  // ---- What most steps leave alone -------------------------------------------------

  predicate HistoryKept(w: World, w': World) {
    w.drawn <= w'.drawn && w.approvals.Keys <= w'.approvals.Keys && forall s :: s in w.approvals ==> w'.approvals[s] == w.approvals[s]
  }

  // Codes are only spent or dropped.
  predicate CodesOnlySpent(db: Db, db': Db) {
    forall s :: s in db'.codes ==>
      s in db.codes && db'.codes[s].(used := true) == db.codes[s].(used := true) && (db.codes[s].used ==> db'.codes[s].used)
  }

  // Grants are only revoked.
  predicate GrantsOnlyRevoked(db: Db, db': Db) {
    && db'.grants.Keys == db.grants.Keys && db'.nextGrant == db.nextGrant
    && forall g :: g in db.grants ==> db'.grants[g].(revoked := false) == db.grants[g].(revoked := false)
  }

  predicate LinkedKept(db: Db, db': Db) {
    forall s :: s in db.codes && db.codes[s].grant.Some? ==> s in db'.codes
  }

  // What each transaction does to codes and grants.
  predicate Quiet(db: Db, db': Db) {
    CodesOnlySpent(db, db') && GrantsOnlyRevoked(db, db') && LinkedKept(db, db')
  }

  lemma ConsumeIsQuiet(db: Db, s: Secret)
    ensures Quiet(db, CodeConsumed(db, s)) && CodeConsumed(db, s).tokens == db.tokens
    ensures forall k :: k in db.codes && db.codes[k].used ==> CodeConsumed(db, s).codes[k] == db.codes[k]
  {
  }

  lemma RotationIsQuiet(db: Db, s: Secret, pair: Option<Pair>, at: Instant)
    ensures Quiet(db, TokenRotated(db, s, pair, at)) && TokenRotated(db, s, pair, at).codes == db.codes
    ensures !Spendable(db, s) ==> TokenRotated(db, s, pair, at).tokens == db.tokens
  {
  }

  lemma RevocationIsQuiet(db: Db, g: nat, user: UserId, people: set<UserId>)
    ensures Quiet(db, OwnGrantRevoked(db, g, user)) && Quiet(db, PeopleDeactivated(db, people))
  {
  }

  lemma PruningIsQuiet(rules: Rules, w: World, clients: set<nat>)
    requires GrantsOk(rules, w) && CodesOk(w) && forall g :: g in w.db.grants ==> w.db.grants[g].client !in clients
    ensures Quiet(w.db, ClientsPruned(w.db, clients))
  {
    forall s | s in w.db.codes && w.db.codes[s].grant.Some?
      ensures s in ClientsPruned(w.db, clients).codes
    {
      assert Redeemed(rules, w, w.db.codes[s].grant.value);
    }
  }

  lemma CodesFrame(w: World, w': World)
    requires CodesOk(w) && HistoryKept(w, w') && CodesOnlySpent(w.db, w'.db)
    requires w.db.grants.Keys == w'.db.grants.Keys && w'.redemptions == w.redemptions
    ensures CodesOk(w')
  {
    forall s | s in w'.db.codes
      ensures FromApproval(w', s, w'.db.codes[s])
    {
      assert FromApproval(w, s, w.db.codes[s]);
      assert w'.db.codes[s].(used := false, grant := None) == w.db.codes[s].(used := true).(used := false, grant := None);
    }
  }

  lemma GrantsFrame(rules: Rules, w: World, w': World)
    requires GrantsOk(rules, w) && GrantsOnlyRevoked(w.db, w'.db) && w'.redemptions == w.redemptions
    requires LinkedKept(w.db, w'.db)
    requires forall s :: s in w'.db.codes && s in w.db.codes ==> w'.db.codes[s].(used := true) == w.db.codes[s].(used := true)
    ensures GrantsOk(rules, w')
  {
    forall g | g in w'.db.grants
      ensures Redeemed(rules, w', g)
    {
      assert Redeemed(rules, w, g);
      var s := w.redemptions[g].code;
      assert w'.db.codes[s].(used := true) == w.db.codes[s].(used := true);
    }
  }

  lemma TokensFrame(w: World, w': World)
    requires TokensOk(w) && w'.db.tokens == w.db.tokens && w'.chain == w.chain && w.drawn <= w'.drawn
    requires w'.db.grants.Keys == w.db.grants.Keys
    ensures TokensOk(w')
  {
    forall g | g in w'.db.grants
      ensures ChainOk(w', g)
    {
      assert ChainOk(w, g);
    }
  }

  lemma RequestsFrame(rules: Rules, w: World, w': World)
    requires RequestsOk(rules, w) && HistoryKept(w, w')
    requires forall id :: id in w'.pending && Held(w'.pending[id]).Some? ==> id in w.pending && w'.pending[id] == w.pending[id]
    requires forall s :: s in w'.db.codes && s in w.drawn ==> s in w.db.codes && (w.db.codes[s].used ==> w'.db.codes[s] == w.db.codes[s])
    ensures RequestsOk(rules, w')
  {
    forall id | id in w'.pending
      ensures RequestOk(rules, w', w'.pending[id])
    {
      if Held(w'.pending[id]).Some? {
        assert RequestOk(rules, w, w.pending[id]);
      }
    }
  }

  // ---- Step by step ----------------------------------------------------------------

  lemma ApproveKeeps(rules: Rules, w: World, l: Label, w': World)
    requires Invariant(rules, w) && l.Approve? && Steps(rules, w, l, w')
    ensures Invariant(rules, w')
  {
    forall s | s in w.db.codes
      ensures s in w.drawn
    {
      assert FromApproval(w, s, w.db.codes[s]);
    }
    var a := w.pending[l.id].approval;
    ApprovedCodes(w, l.code, CodeOf(a), a.at, w');
    GrantsFrame(rules, w, w');
    TokensFrame(w, w');
    RequestsFrame(rules, w, w');
  }

  lemma ApprovedCodes(w: World, s: Secret, c: Code, at: Instant, w': World)
    requires CodesOk(w) && HistoryKept(w, w') && w'.redemptions == w.redemptions && w'.db == CodeStored(w.db, s, c, at)
    requires s !in w.db.codes && FromApproval(w', s, c) && c.grant.None?
    ensures CodesOk(w')
  {
    var rest := w'.(db := w'.db.(codes := w'.db.codes - {s}));
    CodesFrame(w, rest);
    NewCode(w', s, rest);
  }

  lemma NewCode(w: World, s: Secret, rest: World)
    requires s in w.db.codes && FromApproval(w, s, w.db.codes[s]) && w.db.codes[s].grant.None?
    requires rest == w.(db := w.db.(codes := w.db.codes - {s})) && CodesOk(rest)
    ensures CodesOk(w)
  {
    forall k | k in w.db.codes
      ensures FromApproval(w, k, w.db.codes[k])
    {
      if k != s {
        assert FromApproval(rest, k, rest.db.codes[k]);
      }
    }
    forall k | k in w.db.codes && w.db.codes[k].grant.Some?
      ensures var g := w.db.codes[k].grant.value;
              g in w.db.grants && g in w.redemptions && w.redemptions[g].code == k && w.db.codes[k].used
    {
      assert k in rest.db.codes && rest.db.codes[k] == w.db.codes[k];
    }
  }

  lemma ConsumeKeeps(rules: Rules, w: World, l: Label, w': World)
    requires Invariant(rules, w) && l.Consume? && Steps(rules, w, l, w')
    ensures Invariant(rules, w')
  {
    ConsumeIsQuiet(w.db, l.code);
    QuietKeeps(rules, w, w');
    TokensFrame(w, w');
    if l.code in w.db.codes && !w.db.codes[l.code].used {
      NewExchange(rules, w, l, w');
    } else {
      RequestsFrame(rules, w, w');
    }
  }

  lemma QuietKeeps(rules: Rules, w: World, w': World)
    requires CodesOk(w) && GrantsOk(rules, w) && Quiet(w.db, w'.db) && HistoryKept(w, w') && w'.redemptions == w.redemptions
    ensures CodesOk(w') && GrantsOk(rules, w')
  {
    CodesFrame(w, w');
    GrantsFrame(rules, w, w');
  }

  // The exchange that spends the code is the only one that holds it.
  lemma NewExchange(rules: Rules, w: World, l: Label, w': World)
    requires CodesOk(w) && RequestsOk(rules, w) && l.Consume? && Steps(rules, w, l, w')
    requires l.code in w.db.codes && !w.db.codes[l.code].used
    ensures RequestsOk(rules, w')
  {
    assert FromApproval(w, l.code, w.db.codes[l.code]);
    ConsumeSpends(rules, w, l, w');
    forall id | id in w.pending
      ensures Held(w.pending[id]) != Some(l.code) && RequestOk(rules, w', w.pending[id])
    {
      assert RequestOk(rules, w, w.pending[id]);
    }
    assert RequestOk(rules, w', w'.pending[l.id]);
  }

  lemma ConsumeSpends(rules: Rules, w: World, l: Label, w': World)
    requires l.Consume? && Steps(rules, w, l, w') && l.code in w.db.codes && !w.db.codes[l.code].used
    ensures l.id !in w.pending && w'.pending == w.pending[l.id := Exchanging(l.code, w.db.codes[l.code], l.ask)]
    ensures w'.db.codes == w.db.codes[l.code := w.db.codes[l.code].(used := true)]
    ensures w'.approvals == w.approvals && w'.drawn == w.drawn
  {
  }

  lemma RedeemKeeps(rules: Rules, w: World, l: Label, w': World)
    requires Invariant(rules, w) && l.Redeem? && Steps(rules, w, l, w')
    ensures Invariant(rules, w')
  {
    assert RequestOk(rules, w, w.pending[l.id]);
    if w.pending[l.id].code in w.db.codes {
      LinkedRedeemKeeps(rules, w, l, w');
    } else {
      QuietKeeps(rules, w, w');
      TokensFrame(w, w');
      RequestsFrame(rules, w, w');
    }
  }

  lemma GrantStoredIs(db: Db, grant: Grant, s: Secret, pair: Pair, at: Instant)
    requires s in db.codes && pair.access != pair.refresh
    ensures var g, db' := db.nextGrant, GrantStored(db, grant, s, pair, at);
            && db'.codes == db.codes[s := db.codes[s].(grant := Some(g))]
            && db'.grants == db.grants[g := grant] && db'.nextGrant == g + 1
            && db'.tokens.Keys == db.tokens.Keys + {pair.access, pair.refresh}
            && (forall k :: k in db.tokens && k != pair.access && k != pair.refresh ==> db'.tokens[k] == db.tokens[k])
            && db'.tokens[pair.access] == Token(g, Access, at + AccessTtl, false)
            && db'.tokens[pair.refresh] == Token(g, Refresh, at + RefreshTtl, false)
  {
  }

  // An exchange redeems its code for grant `g`.
  ghost predicate Linked(w: World, p: Request, g: nat, pair: Pair, w': World) {
    && p.Redeeming? && p.code in w.db.codes && g == w.db.nextGrant && FreshPair(w, pair)
    && w'.db == GrantStored(w.db, GrantOf(p.stored, p.ask), p.code, pair, p.at)
    && w'.drawn == w.drawn + {pair.access, pair.refresh} && w'.approvals == w.approvals
    && w'.redemptions == w.redemptions[g := Redemption(p.code, p.ask, p.at)]
    && w'.chain == w.chain[g := [pair.refresh]]
  }

  lemma LinkedCodes(rules: Rules, w: World, p: Request, g: nat, pair: Pair, w': World)
    requires CodesOk(w) && g !in w.db.grants && RequestOk(rules, w, p) && Linked(w, p, g, pair, w')
    ensures CodesOk(w')
  {
    GrantStoredIs(w.db, GrantOf(p.stored, p.ask), p.code, pair, p.at);
    assert w.db.codes[p.code].used;
    RedeemedCodes(w, p.code, g, w');
  }

  lemma LinkedGrants(rules: Rules, w: World, p: Request, g: nat, pair: Pair, w': World)
    requires GrantsOk(rules, w) && RequestOk(rules, w, p) && Linked(w, p, g, pair, w')
    ensures GrantsOk(rules, w')
  {
    GrantStoredIs(w.db, GrantOf(p.stored, p.ask), p.code, pair, p.at);
    RedeemedGrants(rules, w, p, g, w');
  }

  lemma LinkedTokens(w: World, p: Request, g: nat, pair: Pair, w': World)
    requires TokensOk(w) && g !in w.db.grants && Linked(w, p, g, pair, w')
    ensures TokensOk(w')
  {
    GrantStoredIs(w.db, GrantOf(p.stored, p.ask), p.code, pair, p.at);
    RedeemedTokens(w, g, pair, w');
  }

  lemma LinkedRedeemKeeps(rules: Rules, w: World, l: Label, w': World)
    requires Invariant(rules, w) && l.Redeem? && Steps(rules, w, l, w')
    requires w.pending[l.id].code in w.db.codes && RequestOk(rules, w, w.pending[l.id])
    ensures Invariant(rules, w')
  {
    RedeemLinks(rules, w, l, w');
    assert w.db.nextGrant !in w.db.grants;
    LinkedCodes(rules, w, w.pending[l.id], w.db.nextGrant, l.pair, w');
    LinkedGrants(rules, w, w.pending[l.id], w.db.nextGrant, l.pair, w');
    LinkedTokens(w, w.pending[l.id], w.db.nextGrant, l.pair, w');
    RedeemedRequests(rules, w, l, w');
  }

  lemma RedeemLinks(rules: Rules, w: World, l: Label, w': World)
    requires l.Redeem? && Steps(rules, w, l, w') && w.pending[l.id].code in w.db.codes
    ensures Linked(w, w.pending[l.id], w.db.nextGrant, l.pair, w')
  {
  }

  lemma RedeemedCodes(w: World, s: Secret, g: nat, w': World)
    requires CodesOk(w) && s in w.db.codes && w.db.codes[s].used && HistoryKept(w, w')
    requires w'.db.codes == w.db.codes[s := w.db.codes[s].(grant := Some(g))]
    requires g in w'.redemptions && w'.redemptions[g].code == s && g in w'.db.grants && g !in w.db.grants
    requires forall k :: k in w.db.grants ==> k in w'.db.grants
    requires forall k :: k in w.redemptions && k != g ==> k in w'.redemptions && w'.redemptions[k] == w.redemptions[k]
    ensures CodesOk(w')
  {
    forall k | k in w'.db.codes
      ensures FromApproval(w', k, w'.db.codes[k])
    {
      assert FromApproval(w, k, w.db.codes[k]);
    }
  }

  lemma RedeemedGrants(rules: Rules, w: World, p: Request, g: nat, w': World)
    requires GrantsOk(rules, w) && p.Redeeming? && g == w.db.nextGrant && Matches(rules, p.stored, p.ask, p.at)
    requires p.code in w.db.codes && w.db.codes[p.code] == p.stored.(used := true) && p.stored.grant.None?
    requires w'.db.codes == w.db.codes[p.code := w.db.codes[p.code].(grant := Some(g))]
    requires w'.db.grants == w.db.grants[g := GrantOf(p.stored, p.ask)] && w'.db.nextGrant == g + 1
    requires w'.redemptions == w.redemptions[g := Redemption(p.code, p.ask, p.at)]
    ensures GrantsOk(rules, w')
  {
    assert Redeemed(rules, w', g);
    forall k | k in w.db.grants
      ensures Redeemed(rules, w', k)
    {
      assert Redeemed(rules, w, k);
    }
  }

  lemma RedeemedTokens(w: World, g: nat, pair: Pair, w': World)
    requires TokensOk(w) && g !in w.db.grants && FreshPair(w, pair)
    requires w'.db.grants.Keys == w.db.grants.Keys + {g} && w'.chain == w.chain[g := [pair.refresh]]
    requires w'.drawn == w.drawn + {pair.access, pair.refresh}
    requires forall s :: s in w'.db.tokens <==> s in w.db.tokens || s == pair.access || s == pair.refresh
    requires forall s :: s in w.db.tokens ==> w'.db.tokens[s] == w.db.tokens[s]
    requires w'.db.tokens[pair.access].grant == g == w'.db.tokens[pair.refresh].grant && w'.db.tokens[pair.access].kind == Access
    ensures TokensOk(w')
  {
    forall k | k in w'.db.grants
      ensures ChainOk(w', k)
    {
      if k != g {
        assert ChainOk(w, k);
      }
    }
  }

  lemma RedeemedRequests(rules: Rules, w: World, l: Label, w': World)
    requires RequestsOk(rules, w) && l.Redeem? && Steps(rules, w, l, w') && w.pending[l.id].code in w.db.codes
    ensures RequestsOk(rules, w')
  {
    forall id | id in w'.pending
      ensures RequestOk(rules, w', w'.pending[id])
    {
      assert RequestOk(rules, w, w.pending[id]);
    }
  }

  // What a rotation step changes.
  ghost predicate RotationStep(w: World, s: Secret, pair: Option<Pair>, at: Instant, w': World) {
    && w'.db == TokenRotated(w.db, s, pair, at)
    && w'.redemptions == w.redemptions && w'.approvals == w.approvals && w.drawn <= w'.drawn
    && (forall id :: id in w'.pending ==> id in w.pending && w'.pending[id] == w.pending[id])
    && (Spendable(w.db, s) && w.db.tokens[s].grant in w.chain ==> Rotates(w, s, pair, at, w'))
    && (!Spendable(w.db, s) ==> w'.chain == w.chain)
  }

  lemma RotateSteps(rules: Rules, w: World, l: Label, w': World)
    requires (l.Rotate? || l.Replay?) && Steps(rules, w, l, w')
    ensures RotationStep(w, w.pending[l.id].token, if l.Rotate? then Some(l.pair) else None, l.at, w')
  {
    if l.Replay? && Spendable(w.db, w.pending[l.id].token) && w.db.tokens[w.pending[l.id].token].grant in w.chain {
      assert w'.chain == w.chain && w'.drawn == w.drawn;
    }
  }

  lemma RotationKeeps(rules: Rules, w: World, s: Secret, pair: Option<Pair>, at: Instant, w': World)
    requires Invariant(rules, w) && RotationStep(w, s, pair, at, w')
    ensures Invariant(rules, w')
  {
    RotationIsQuiet(w.db, s, pair, at);
    QuietKeeps(rules, w, w');
    RequestsFrame(rules, w, w');
    RotationTokens(w, s, pair, at, w');
  }

  lemma RotationTokens(w: World, s: Secret, pair: Option<Pair>, at: Instant, w': World)
    requires TokensOk(w) && RotationStep(w, s, pair, at, w')
    ensures TokensOk(w')
  {
    if Spendable(w.db, s) {
      assert StoredOk(w, s);
      RotatedTokens(w, s, pair, at, w');
    } else {
      RotationIsQuiet(w.db, s, pair, at);
      TokensFrame(w, w');
    }
  }

  // A rotation of `s`, which extends its grant's chain when it stores a new pair.
  ghost predicate Rotates(w: World, s: Secret, pair: Option<Pair>, at: Instant, w': World) {
    && Spendable(w.db, s) && (pair.Some? ==> FreshPair(w, pair.value))
    && w'.db == TokenRotated(w.db, s, pair, at)
    && var g := w.db.tokens[s].grant;
    && g in w.chain
    && w'.chain == (if pair.Some? then w.chain[g := w.chain[g] + [pair.value.refresh]] else w.chain)
    && w'.drawn == if pair.Some? then w.drawn + {pair.value.access, pair.value.refresh} else w.drawn
  }

  // The spent token was the chain's last; the new one takes its place.
  lemma RotatedTokens(w: World, s: Secret, pair: Option<Pair>, at: Instant, w': World)
    requires TokensOk(w) && Rotates(w, s, pair, at, w')
    ensures TokensOk(w')
  {
    RotatedStore(w.db, s, pair, at);
    forall k | k in w'.db.grants
      ensures ChainOk(w', k)
    {
      RotatedChain(w, s, pair, at, w', k);
    }
    forall t | t in w'.db.tokens
      ensures StoredOk(w', t)
    {
      RotatedToken(w, s, pair, at, w', t);
    }
  }

  lemma RotatedChain(w: World, s: Secret, pair: Option<Pair>, at: Instant, w': World, k: nat)
    requires TokensOk(w) && Rotates(w, s, pair, at, w') && k in w.db.grants
    ensures ChainOk(w', k)
  {
    SpendableIsLast(w, s);
    assert ChainOk(w, k);
    if k == w.db.tokens[s].grant {
      ChainExtends(w, s, pair, at, w');
    } else {
      ChainKept(w, s, pair, at, w', k);
    }
  }

  lemma RotatedToken(w: World, s: Secret, pair: Option<Pair>, at: Instant, w': World, t: Secret)
    requires TokensOk(w) && Rotates(w, s, pair, at, w') && t in w'.db.tokens
    ensures StoredOk(w', t)
  {
    RotatedStore(w.db, s, pair, at);
    assert StoredOk(w, s);
    if pair.Some? && (t == pair.value.access || t == pair.value.refresh) {
      assert w'.db.tokens[t].grant == w.db.tokens[s].grant;
    } else {
      assert StoredOk(w, t);
    }
  }

  // What a rotation leaves of the stored tokens.
  lemma RotatedStore(db: Db, s: Secret, pair: Option<Pair>, at: Instant)
    requires Spendable(db, s)
    ensures var db' := TokenRotated(db, s, pair, at); var g := db.tokens[s].grant;
            && db'.grants == db.grants
            && (forall k :: k in db'.tokens ==> k in db.tokens || (pair.Some? && (k == pair.value.access || k == pair.value.refresh)))
            && (forall k :: k in db'.tokens && !(pair.Some? && (k == pair.value.access || k == pair.value.refresh)) ==>
                  db'.tokens[k] == if k == s then db.tokens[s].(used := true) else db.tokens[k])
            && (pair.Some? ==> db'.tokens[pair.value.refresh] == Token(g, Refresh, at + RefreshTtl, false))
            && (pair.Some? && pair.value.access != pair.value.refresh ==> db'.tokens[pair.value.access] == Token(g, Access, at + AccessTtl, false))
  {
  }

  lemma ChainExtends(w: World, s: Secret, pair: Option<Pair>, at: Instant, w': World)
    requires TokensOk(w) && Rotates(w, s, pair, at, w')
    requires ChainOk(w, w.db.tokens[s].grant) && w.chain[w.db.tokens[s].grant][|w.chain[w.db.tokens[s].grant]| - 1] == s
    ensures ChainOk(w', w.db.tokens[s].grant)
  {
    var chain := w.chain[w.db.tokens[s].grant];
    SpentChain(w, s, pair, at, w');
    if pair.Some? {
      LineExtends(chain, w.drawn, w.db.tokens, pair.value.refresh, w'.drawn, w'.db.tokens);
    } else {
      LineKept(chain, w.drawn, w.db.tokens, w'.drawn, w'.db.tokens);
    }
  }

  // Whatever the rotation leaves of the grant's chain is spent.
  lemma SpentChain(w: World, s: Secret, pair: Option<Pair>, at: Instant, w': World)
    requires Rotates(w, s, pair, at, w') && ChainOk(w, w.db.tokens[s].grant)
    requires w.chain[w.db.tokens[s].grant][|w.chain[w.db.tokens[s].grant]| - 1] == s
    ensures forall k :: k in w.chain[w.db.tokens[s].grant] && k in w'.db.tokens ==> k in w.db.tokens && w'.db.tokens[k].used
  {
    RotatedStore(w.db, s, pair, at);
    forall k | k in w.chain[w.db.tokens[s].grant] && k in w'.db.tokens
      ensures k in w.db.tokens && w'.db.tokens[k].used
    {
      assert k in w.drawn;
    }
  }

  lemma ChainKept(w: World, s: Secret, pair: Option<Pair>, at: Instant, w': World, k: nat)
    requires TokensOk(w) && Rotates(w, s, pair, at, w') && k != w.db.tokens[s].grant && ChainOk(w, k)
    ensures ChainOk(w', k)
  {
    RotatedStore(w.db, s, pair, at);
    forall t | t in w.chain[k] && t in w'.db.tokens
      ensures t in w.db.tokens && (w.db.tokens[t].used ==> w'.db.tokens[t].used)
    {
      assert t in w.drawn;
    }
    LineKept(w.chain[k], w.drawn, w.db.tokens, w'.drawn, w'.db.tokens);
  }

  lemma SpendableIsLast(w: World, s: Secret)
    requires TokensOk(w) && Spendable(w.db, s)
    ensures var g := w.db.tokens[s].grant;
            g in w.chain && |w.chain[g]| > 0 && w.chain[g][|w.chain[g]| - 1] == s
  {
    var g := w.db.tokens[s].grant;
    assert ChainOk(w, g);
    var i :| 0 <= i < |w.chain[g]| && w.chain[g][i] == s;
  }

  // The step neither grants nor rotates: the store at most loses codes or revokes
  // grants, and no exchange appears or changes.
  ghost predicate Bystander(w: World, w': World) {
    && Quiet(w.db, w'.db) && w'.db.tokens == w.db.tokens
    && (forall s :: s in w'.db.codes ==> s in w.db.codes && w'.db.codes[s] == w.db.codes[s])
    && w'.redemptions == w.redemptions && w'.chain == w.chain && w'.drawn == w.drawn && w'.approvals == w.approvals
    && (forall id :: id in w'.pending && Held(w'.pending[id]).Some? ==> id in w.pending && w'.pending[id] == w.pending[id])
  }

  lemma BystanderKeeps(rules: Rules, w: World, w': World)
    requires Invariant(rules, w) && Bystander(w, w')
    ensures Invariant(rules, w')
  {
    QuietKeeps(rules, w, w');
    TokensFrame(w, w');
    RequestsFrame(rules, w, w');
  }

  lemma ReadsAreBystanders(rules: Rules, w: World, l: Label, w': World)
    requires Steps(rules, w, l, w') && (l.ReadRefresh? || l.Present?)
    ensures Bystander(w, w')
  {
    assert w'.db == w.db;
  }

  lemma IdleAreBystanders(rules: Rules, w: World, l: Label, w': World)
    requires Steps(rules, w, l, w') && (l.Abandon? || l.ReadConsent?)
    ensures Bystander(w, w')
  {
    assert w'.db == w.db;
  }

  lemma ChecksAreBystanders(rules: Rules, w: World, l: Label, w': World)
    requires Steps(rules, w, l, w') && (l.CheckRefresh? || l.Open? || l.Accept?)
    ensures Bystander(w, w')
  {
    assert w'.db == w.db;
  }

  lemma RevocationsAreBystanders(rules: Rules, w: World, l: Label, w': World)
    requires Steps(rules, w, l, w') && (l.Revoke? || l.ChangePeople?)
    ensures Bystander(w, w')
  {
    if l.Revoke? {
      RevocationIsQuiet(w.db, l.grant, l.user, {});
    } else {
      RevocationIsQuiet(w.db, 0, 0, Deactivated(w.users, l.users));
    }
  }

  lemma PruningIsBystander(rules: Rules, w: World, l: Label, w': World)
    requires CodesOk(w) && GrantsOk(rules, w) && Steps(rules, w, l, w') && l.Prune?
    ensures Bystander(w, w')
  {
    PruningIsQuiet(rules, w, l.clients);
  }

  lemma CheckKeeps(rules: Rules, w: World, l: Label, w': World)
    requires Invariant(rules, w) && l.Check? && Steps(rules, w, l, w')
    ensures Invariant(rules, w')
  {
    CodesFrame(w, w');
    GrantsFrame(rules, w, w');
    TokensFrame(w, w');
    forall id | id in w'.pending
      ensures RequestOk(rules, w', w'.pending[id])
    {
      assert RequestOk(rules, w, w.pending[id]);
    }
  }

  lemma StepKeeps(rules: Rules, w: World, l: Label, w': World)
    requires Invariant(rules, w) && Steps(rules, w, l, w')
    ensures Invariant(rules, w')
  {
    if l.Approve? {
      ApproveKeeps(rules, w, l, w');
    } else if l.Consume? {
      ConsumeKeeps(rules, w, l, w');
    } else if l.Check? {
      CheckKeeps(rules, w, l, w');
    } else if l.Redeem? {
      RedeemKeeps(rules, w, l, w');
    } else if l.Rotate? || l.Replay? {
      RotateSteps(rules, w, l, w');
      RotationKeeps(rules, w, w.pending[l.id].token, if l.Rotate? then Some(l.pair) else None, l.at, w');
    } else {
      if l.Prune? {
        PruningIsBystander(rules, w, l, w');
      } else if l.Revoke? || l.ChangePeople? {
        RevocationsAreBystanders(rules, w, l, w');
      } else if l.Abandon? || l.ReadConsent? {
        IdleAreBystanders(rules, w, l, w');
      } else if l.ReadRefresh? || l.Present? {
        ReadsAreBystanders(rules, w, l, w');
      } else {
        ChecksAreBystanders(rules, w, l, w');
      }
      BystanderKeeps(rules, w, w');
    }
  }
}
