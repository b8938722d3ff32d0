/**
What the authorization server promises over every run of OAuthRuns.
*/
module OAuthResults {
  import opened Core
  import opened Policy
  import opened OAuthScopes
  import opened OAuth
  import opened OAuthRuns

  lemma {:induction false} EveryRunKeepsInvariant(rules: Rules, trace: seq<World>, labels: seq<Label>, n: nat)
    requires IsRun(rules, trace, labels) && n < |trace|
    ensures Invariant(rules, trace[n])
  {
    if n > 0 {
      EveryRunKeepsInvariant(rules, trace, labels, n - 1);
      assert StepAt(rules, trace, labels, n - 1);
      StepKeeps(rules, trace[n - 1], labels[n - 1], trace[n]);
    }
  }

  // A code yields at most one grant.
  lemma OneGrantPerCode(rules: Rules, trace: seq<World>, labels: seq<Label>, n: nat, g: nat, h: nat)
    requires IsRun(rules, trace, labels) && n < |trace|
    requires g in trace[n].redemptions && h in trace[n].redemptions && trace[n].redemptions[g].code == trace[n].redemptions[h].code
    ensures g == h
  {
    EveryRunKeepsInvariant(rules, trace, labels, n);
    assert Redeemed(rules, trace[n], g) && Redeemed(rules, trace[n], h);
  }

  // A grant has at most one refresh token that can still be spent: the last of its
  // chain.  So every successful rotation extends the chain at its end.
  lemma OneUnspentRefreshToken(rules: Rules, trace: seq<World>, labels: seq<Label>, n: nat, s: Secret, t: Secret)
    requires IsRun(rules, trace, labels) && n < |trace| && Spendable(trace[n].db, s)
    ensures var w := trace[n]; var g := w.db.tokens[s].grant;
            && g in w.chain && |w.chain[g]| > 0 && w.chain[g][|w.chain[g]| - 1] == s
            && (Spendable(w.db, t) && w.db.tokens[t].grant == g ==> t == s)
  {
    EveryRunKeepsInvariant(rules, trace, labels, n);
    LastOfChain(trace[n], s, t);
  }

  lemma LastOfChain(w: World, s: Secret, t: Secret)
    requires TokensOk(w) && Spendable(w.db, s)
    ensures var g := w.db.tokens[s].grant;
            && g in w.chain && |w.chain[g]| > 0 && w.chain[g][|w.chain[g]| - 1] == s
            && (Spendable(w.db, t) && w.db.tokens[t].grant == g ==> t == s)
  {
    SpendableIsLast(w, s);
    if Spendable(w.db, t) {
      SpendableIsLast(w, t);
    }
  }

  // Presenting a code revokes a live grant if and only if it is the code that grant
  // was redeemed from.  In particular such a code is never forgotten, and a code
  // presented again before its grant exists revokes nothing.
  lemma CodeReplayRevokes(rules: Rules, trace: seq<World>, labels: seq<Label>, n: nat, s: Secret, g: nat)
    requires IsRun(rules, trace, labels) && n < |trace| && g in trace[n].db.grants && !trace[n].db.grants[g].revoked
    ensures g in trace[n].redemptions
    ensures CodeConsumed(trace[n].db, s).grants[g].revoked <==> trace[n].redemptions[g].code == s
  {
    EveryRunKeepsInvariant(rules, trace, labels, n);
    OwnCodeRevokes(rules, trace[n], s, g);
  }

  lemma OwnCodeRevokes(rules: Rules, w: World, s: Secret, g: nat)
    requires CodesOk(w) && Redeemed(rules, w, g) && !w.db.grants[g].revoked
    ensures CodeConsumed(w.db, s).grants[g].revoked <==> w.redemptions[g].code == s
  {
    if s in w.db.codes && w.db.codes[s].grant == Some(g) {
      assert w.redemptions[g].code == s;
    }
  }

  // The step lets a request in with a token of the grant: it opens it for an access
  // token, or passes a refresh token's checks.
  predicate Uses(w: World, l: Label, g: nat) {
    || (l.Open? && l.id in w.pending && w.pending[l.id] == Presenting(g))
    || (l.CheckRefresh? && l.id in w.pending && w.pending[l.id].Refreshing? && w.pending[l.id].read.grant == g)
  }

  predicate GrantKept(db: Db, db': Db, g: nat) {
    g in db.grants ==>
      && g in db'.grants && db'.grants[g].(revoked := false) == db.grants[g].(revoked := false)
      && (db.grants[g].revoked ==> db'.grants[g].revoked)
  }

  // Once a grant exists it keeps its person, client, scopes and resource for good;
  // once revoked it stays revoked, and nothing uses it again.
  lemma {:induction false} RevokedForGood(rules: Rules, trace: seq<World>, labels: seq<Label>, i: nat, j: nat, g: nat)
    requires IsRun(rules, trace, labels) && i <= j < |trace| && g in trace[i].db.grants
    ensures GrantKept(trace[i].db, trace[j].db, g)
    ensures trace[i].db.grants[g].revoked && j < |labels| ==> !Uses(trace[j], labels[j], g)
    decreases j - i
  {
    if i < j {
      RevokedForGood(rules, trace, labels, i, j - 1, g);
      GrantStaysAt(rules, trace, labels, j - 1, g);
      KeptTwice(trace[i].db, trace[j - 1].db, trace[j].db, g);
    }
    if j < |labels| && Uses(trace[j], labels[j], g) {
      assert StepAt(rules, trace, labels, j);
      UsesLive(rules, trace[j], labels[j], trace[j + 1], g);
    }
  }

  lemma KeptTwice(a: Db, b: Db, c: Db, g: nat)
    requires g in a.grants && GrantKept(a, b, g) && GrantKept(b, c, g)
    ensures GrantKept(a, c, g)
  {
    assert c.grants[g].(revoked := false) == b.grants[g].(revoked := false) == a.grants[g].(revoked := false);
  }

  lemma GrantStaysAt(rules: Rules, trace: seq<World>, labels: seq<Label>, j: nat, g: nat)
    requires IsRun(rules, trace, labels) && j < |labels| && g in trace[j].db.grants
    ensures GrantKept(trace[j].db, trace[j + 1].db, g)
  {
    EveryRunKeepsInvariant(rules, trace, labels, j);
    assert StepAt(rules, trace, labels, j);
    GrantStays(rules, trace[j], labels[j], trace[j + 1], g);
  }

  lemma UsesLive(rules: Rules, w: World, l: Label, w': World, g: nat)
    requires Steps(rules, w, l, w') && Uses(w, l, g)
    ensures g in w.db.grants && !w.db.grants[g].revoked
  {
  }

  lemma RotationKeepsGrant(db: Db, s: Secret, pair: Option<Pair>, at: Instant, g: nat)
    ensures GrantKept(db, TokenRotated(db, s, pair, at), g)
    ensures GrantKept(db, CodeConsumed(db, s), g)
  {
  }

  lemma RevocationKeepsGrant(db: Db, h: nat, user: UserId, people: set<UserId>, g: nat)
    ensures GrantKept(db, OwnGrantRevoked(db, h, user), g) && GrantKept(db, PeopleDeactivated(db, people), g)
  {
  }

  lemma RedeemKeepsGrant(db: Db, grant: Grant, s: Secret, pair: Pair, at: Instant, g: nat)
    requires g in db.grants ==> g != db.nextGrant
    ensures GrantKept(db, GrantStored(db, grant, s, pair, at), g)
  {
  }

  lemma QuietStepsKeepGrants(rules: Rules, w: World, l: Label, w': World)
    requires Steps(rules, w, l, w')
    requires l.ReadConsent? || l.Approve? || l.Prune? || l.Check? || l.Abandon? || l.ReadRefresh? || l.CheckRefresh? || l.Present? || l.Open? || l.Accept?
    ensures w'.db.grants == w.db.grants
  {
  }

  lemma StepStore(rules: Rules, w: World, l: Label, w': World, g: nat)
    requires Steps(rules, w, l, w') && (g in w.db.grants ==> g != w.db.nextGrant)
    requires l.Consume? || l.Rotate? || l.Replay? || l.Revoke? || l.ChangePeople? || l.Redeem?
    ensures GrantKept(w.db, w'.db, g)
  {
    if l.Consume? {
      RotationKeepsGrant(w.db, l.code, None, 0, g);
    } else if l.Rotate? {
      RotationKeepsGrant(w.db, w.pending[l.id].token, Some(l.pair), l.at, g);
    } else if l.Replay? {
      RotationKeepsGrant(w.db, w.pending[l.id].token, None, l.at, g);
    } else if l.Revoke? {
      RevocationKeepsGrant(w.db, l.grant, l.user, {}, g);
    } else if l.ChangePeople? {
      RevocationKeepsGrant(w.db, 0, 0, Deactivated(w.users, l.users), g);
    } else {
      var p := w.pending[l.id];
      RedeemKeepsGrant(w.db, GrantOf(p.stored, p.ask), p.code, l.pair, p.at, g);
    }
  }

  lemma GrantStays(rules: Rules, w: World, l: Label, w': World, g: nat)
    requires GrantsOk(rules, w) && Steps(rules, w, l, w') && g in w.db.grants
    ensures GrantKept(w.db, w'.db, g)
  {
    if l.Consume? || l.Rotate? || l.Replay? || l.Revoke? || l.ChangePeople? || l.Redeem? {
      StepStore(rules, w, l, w', g);
    } else {
      QuietStepsKeepGrants(rules, w, l, w');
    }
  }

  // The session read this person from the directory, in some state up to `n`.
  ghost predicate WasRead(trace: seq<World>, n: nat, user: User) {
    exists j :: 0 <= j <= n && j < |trace| && Listed(trace[j], user)
  }

  predicate Listed(w: World, user: User) { user.id in w.users && w.users[user.id] == user }

  ghost predicate AllRead(trace: seq<World>, n: nat)
    requires n < |trace|
  {
    && (forall s :: s in trace[n].approvals ==> WasRead(trace, n, trace[n].approvals[s].user))
    && forall id :: id in trace[n].pending && trace[n].pending[id].Consenting? ==> WasRead(trace, n, trace[n].pending[id].approval.user)
  }

  lemma ConsentStep(rules: Rules, w: World, l: Label, w': World)
    requires Steps(rules, w, l, w')
    ensures forall id :: id in w'.pending && w'.pending[id].Consenting? ==>
              (id in w.pending && w.pending[id] == w'.pending[id]) || Listed(w, w'.pending[id].approval.user)
  {
  }

  lemma ApprovalStep(rules: Rules, w: World, l: Label, w': World)
    requires Steps(rules, w, l, w')
    ensures forall s :: s in w'.approvals ==>
              || (s in w.approvals && w.approvals[s] == w'.approvals[s])
              || (l.Approve? && l.id in w.pending && w.pending[l.id] == Consenting(w'.approvals[s]))
  {
  }

  lemma ReadBefore(trace: seq<World>, n: nat, user: User)
    requires n > 0 && (WasRead(trace, n - 1, user) || (n - 1 < |trace| && Listed(trace[n - 1], user)))
    ensures WasRead(trace, n, user)
  {
    if WasRead(trace, n - 1, user) {
      var j :| 0 <= j <= n - 1 && j < |trace| && Listed(trace[j], user);
    }
  }

  lemma {:induction false} ConsentsAreRead(rules: Rules, trace: seq<World>, labels: seq<Label>, n: nat)
    requires IsRun(rules, trace, labels) && n < |trace|
    ensures AllRead(trace, n)
  {
    if n > 0 {
      ConsentsAreRead(rules, trace, labels, n - 1);
      assert StepAt(rules, trace, labels, n - 1);
      ConsentStep(rules, trace[n - 1], labels[n - 1], trace[n]);
      ApprovalStep(rules, trace[n - 1], labels[n - 1], trace[n]);
      forall s | s in trace[n].approvals
        ensures WasRead(trace, n, trace[n].approvals[s].user)
      {
        ReadBefore(trace, n, trace[n].approvals[s].user);
      }
      forall id | id in trace[n].pending && trace[n].pending[id].Consenting?
        ensures WasRead(trace, n, trace[n].pending[id].approval.user)
      {
        ReadBefore(trace, n, trace[n].pending[id].approval.user);
      }
    }
  }

  // Every stored token traces to one consent of a person the session had read as
  // active, for the same client, redirect and PKCE challenge, redeemed before the code
  // expired; its grant's scopes are those of the consent the role could use, never
  // every ticket.
  lemma TokensTraceToConsent(rules: Rules, trace: seq<World>, labels: seq<Label>, n: nat, t: Secret)
    requires IsRun(rules, trace, labels) && n < |trace| && t in trace[n].db.tokens
    ensures var w := trace[n]; var g := w.db.tokens[t].grant;
            && g in w.db.grants && g in w.redemptions && w.redemptions[g].code in w.approvals
            && var r := w.redemptions[g]; var a := w.approvals[r.code]; var grant := w.db.grants[g];
            && a.user.active && !a.user.service && grant.user == a.user.id && WasRead(trace, n, a.user)
            && grant.client == r.ask.client == a.client && r.ask.redirect == a.redirect && grant.resource == a.resource
            && rules.validVerifier(r.ask.verifier) && rules.challengeOf(r.ask.verifier) == a.challenge
            && r.at < a.at + CodeTtl
            && Grantable(grant.scopes)
            && forall x :: x in grant.scopes <==> x in a.requested && ScopeUsable(a.user.role, x)
  {
    EveryRunKeepsInvariant(rules, trace, labels, n);
    ConsentsAreRead(rules, trace, labels, n);
    var w := trace[n];
    var g := w.db.tokens[t].grant;
    assert Redeemed(rules, w, g);
    var s := w.redemptions[g].code;
    assert FromApproval(w, s, w.db.codes[s]);
    UsableKeepsGrantable(w.approvals[s].user.role, w.approvals[s].requested);
  }
}
