/**
From a consent to a working access token, over every run of OAuthRuns: what the token
of a completed exchange opens, and for how long.
*/
module OAuthAccess {
  import opened Core
  import opened Policy
  import opened OAuthScopes
  import opened OAuth
  import opened OAuthRuns
  import opened OAuthResults
  import opened OAuthReplay
  import opened OAuthService

  // The step completes an exchange of the code of this consent.
  predicate Completes(w: World, l: Label, s: Secret) {
    l.Redeem? && l.id in w.pending && w.pending[l.id].Redeeming? && w.pending[l.id].code == s && s in w.db.codes
  }

  // What the consent and the exchange say the grant is: the person, scopes and resource
  // consented to, and the client that asked.
  predicate Granted(g: Grant, a: Approval) {
    && g.user == a.user.id && g.client == a.client && g.resource == a.resource
    && forall x :: x in g.scopes <==> x in a.requested && ScopeUsable(a.user.role, x)
  }

  // A listed, active account that is no service account.
  predicate IsActivePerson(users: map<UserId, User>, who: UserId) {
    who in users && match users[who] case User(_, _, active, service) => active && !service
  }

  lemma NewToken(rules: Rules, trace: seq<World>, labels: seq<Label>, i: nat, s: Secret)
    requires IsRun(rules, trace, labels) && i < |labels| && Completes(trace[i], labels[i], s)
    ensures s in trace[i].approvals
    ensures var db, p, a := trace[i + 1].db, trace[i].pending[labels[i].id], trace[i].approvals[s];
            var t := labels[i].pair.access;
            && t in db.tokens && db.tokens[t].kind == Access && db.tokens[t].expires == p.at + 3600 && p.at < a.at + 60
            && db.tokens[t].grant in db.grants && Granted(db.grants[db.tokens[t].grant], a)
            && !db.grants[db.tokens[t].grant].revoked
  {
    var w, w', l := trace[i], trace[i + 1], labels[i];
    var p := w.pending[l.id];
    EveryRunKeepsInvariant(rules, trace, labels, i);
    assert RequestOk(rules, w, p);
    assert StepAt(rules, trace, labels, i);
    RedeemLinks(rules, w, l, w');
    GrantStoredIs(w.db, GrantOf(p.stored, p.ask), p.code, l.pair, p.at);
    UsableKeepsGrantable(w.approvals[s].user.role, w.approvals[s].requested);
  }

  // Rotations read a clock that is not ahead of this instant.
  predicate ClockedBy(labels: seq<Label>, i: nat, n: nat, at: Instant) {
    forall m :: i <= m < n && m < |labels| && labels[m].Rotate? ==> labels[m].at <= at
  }

  lemma TokenStaysUntilExpiry(rules: Rules, trace: seq<World>, labels: seq<Label>, i: nat, n: nat, t: Secret, at: Instant)
    requires IsRun(rules, trace, labels) && i <= n < |trace| && t in trace[i].db.tokens
    requires at < trace[i].db.tokens[t].expires && ClockedBy(labels, i, n, at)
    ensures t in trace[n].db.tokens && TokenKept(trace[i].db, trace[n].db, t)
  {
    TokenLasts(rules, trace, labels, i, n, t);
    if m :| i <= m < n && DroppedAt(trace, labels, m, t) {
      TokenLasts(rules, trace, labels, i, m, t);
      assert false;
    }
  }

  // The access token of a completed exchange acts, at every instant within an hour of the
  // exchange and whatever happened since, exactly while the consent was for this
  // resource, its grant is live and its person is active.  It then stands for that person
  // with the consented scopes their role could use.
  lemma ExchangedTokenActs(rules: Rules, trace: seq<World>, labels: seq<Label>, i: nat, n: nat, s: Secret, at: Instant)
    requires IsRun(rules, trace, labels) && i < n < |trace| && i < |labels| && Completes(trace[i], labels[i], s)
    requires at < trace[i].pending[labels[i].id].at + 3600 && ClockedBy(labels, i + 1, n, at)
    ensures s in trace[i].approvals
    ensures var a, db, t := trace[i].approvals[s], trace[n].db, labels[i].pair.access;
            && t in db.tokens && db.tokens[t].grant in db.grants && Granted(db.grants[db.tokens[t].grant], a)
            && (TokenActs(db, trace[n].users, rules, t, at) <==>
                  a.resource == rules.resource && !db.grants[db.tokens[t].grant].revoked && IsActivePerson(trace[n].users, a.user.id))
  {
    NewToken(rules, trace, labels, i, s);
    var t := labels[i].pair.access;
    TokenStaysUntilExpiry(rules, trace, labels, i + 1, n, t, at);
    RevokedForGood(rules, trace, labels, i + 1, n, trace[i + 1].db.tokens[t].grant);
  }

  // A second later than that hour, it acts no more.
  lemma ExchangedTokenExpires(rules: Rules, trace: seq<World>, labels: seq<Label>, i: nat, n: nat, s: Secret, at: Instant)
    requires IsRun(rules, trace, labels) && i < n < |trace| && i < |labels| && Completes(trace[i], labels[i], s)
    requires at >= trace[i].pending[labels[i].id].at + 3600
    ensures !TokenActs(trace[n].db, trace[n].users, rules, labels[i].pair.access, at)
  {
    NewToken(rules, trace, labels, i, s);
    TokenLasts(rules, trace, labels, i + 1, n, labels[i].pair.access);
  }

  // A rotation's new access token acts on the same terms as the grant it was rotated
  // within, for an hour; its new refresh token can be spent for thirty days.
  lemma RotatedPairActs(db: Db, s: Secret, pair: Pair, users: map<UserId, User>, rules: Rules, now: Instant, at: Instant)
    requires Spendable(db, s) && db.tokens[s].grant in db.grants && pair.access != pair.refresh
    ensures var db', g := TokenRotated(db, s, Some(pair), now), db.tokens[s].grant;
            && (TokenActs(db', users, rules, pair.access, at) <==>
                  && at < now + 3600 && !db.grants[g].revoked && db.grants[g].resource == rules.resource
                  && IsActivePerson(users, db.grants[g].user))
            && (Refreshable(db', users, db.grants[g].client, pair.refresh, at) <==>
                  at < now + 2592000 && !db.grants[g].revoked && IsActivePerson(users, db.grants[g].user))
  {
  }

  // ---- What ends a grant, and what drops a code -----------------------------------

  // The grant's own code presented again, one of its tokens presented that cannot be
  // spent, its own person's revocation, or that person's deactivation.
  predicate Ends(w: World, l: Label, g: nat)
    requires g in w.db.grants
  {
    match l
    case Consume(_, s, _) => g in w.redemptions && w.redemptions[g].code == s
    case Replay(id, _) => id in w.pending && w.pending[id].Replaying? && TurnedDown(w.db, w.pending[id].token, g)
    case Rotate(id, _, _) => id in w.pending && w.pending[id].Rotating? && TurnedDown(w.db, w.pending[id].token, g)
    case Revoke(h, user) => h == g && user == w.db.grants[g].user
    case ChangePeople(users) =>
      var u := w.db.grants[g].user;
      u in w.users && u in users && w.users[u].active && !users[u].active
    case _ => false
  }

  predicate TurnedDown(db: Db, s: Secret, g: nat) {
    s in db.tokens && db.tokens[s].grant == g && (db.tokens[s].kind == Access || db.tokens[s].used)
  }

  // In every run a live grant ends by these and by nothing else.
  lemma GrantEndsIff(rules: Rules, trace: seq<World>, labels: seq<Label>, i: nat, g: nat)
    requires IsRun(rules, trace, labels) && i < |labels| && g in trace[i].db.grants && !trace[i].db.grants[g].revoked
    ensures EndedBy(trace[i], labels[i], trace[i + 1], g)
  {
    var w, l, w' := trace[i], labels[i], trace[i + 1];
    EveryRunKeepsInvariant(rules, trace, labels, i);
    assert StepAt(rules, trace, labels, i);
    if l.Consume? {
      CodeReplayRevokes(rules, trace, labels, i, l.code, g);
      ConsumeEnds(rules, w, l, w', g);
    } else if l.Redeem? {
      RedeemEnds(rules, w, l, w', g);
    } else if l.Replay? || l.Rotate? {
      TokenEnds(rules, w, l, w', g);
    } else if l.Revoke? || l.ChangePeople? {
      PersonEnds(rules, w, l, w', g);
    } else {
      QuietStepsKeepGrants(rules, w, l, w');
    }
  }

  ghost predicate EndedBy(w: World, l: Label, w': World, g: nat)
    requires g in w.db.grants
  {
    g in w'.db.grants && (w'.db.grants[g].revoked <==> Ends(w, l, g))
  }

  lemma ConsumeEnds(rules: Rules, w: World, l: Label, w': World, g: nat)
    requires l.Consume? && Steps(rules, w, l, w') && g in w.db.grants && !w.db.grants[g].revoked && g in w.redemptions
    requires CodeConsumed(w.db, l.code).grants.Keys == w.db.grants.Keys ==>
               (CodeConsumed(w.db, l.code).grants[g].revoked <==> w.redemptions[g].code == l.code)
    ensures EndedBy(w, l, w', g)
  {
    ConsumeIsQuiet(w.db, l.code);
  }

  lemma RedeemEnds(rules: Rules, w: World, l: Label, w': World, g: nat)
    requires l.Redeem? && Steps(rules, w, l, w') && g in w.db.grants && !w.db.grants[g].revoked && g < w.db.nextGrant
    ensures EndedBy(w, l, w', g)
  {
    var p := w.pending[l.id];
    GrantStoredKeepsOthers(w.db, GrantOf(p.stored, p.ask), p.code, l.pair, p.at, g);
  }

  lemma TokenEnds(rules: Rules, w: World, l: Label, w': World, g: nat)
    requires (l.Replay? || l.Rotate?) && Steps(rules, w, l, w') && g in w.db.grants && !w.db.grants[g].revoked
    ensures EndedBy(w, l, w', g)
  {
    RotationEnds(w.db, w.pending[l.id].token, if l.Rotate? then Some(l.pair) else None, l.at, g);
  }

  lemma PersonEnds(rules: Rules, w: World, l: Label, w': World, g: nat)
    requires (l.Revoke? || l.ChangePeople?) && Steps(rules, w, l, w') && g in w.db.grants && !w.db.grants[g].revoked
    ensures EndedBy(w, l, w', g)
  {
  }

  lemma RotationEnds(db: Db, s: Secret, pair: Option<Pair>, at: Instant, g: nat)
    requires g in db.grants && !db.grants[g].revoked
    ensures g in TokenRotated(db, s, pair, at).grants
    ensures TokenRotated(db, s, pair, at).grants[g].revoked <==> TurnedDown(db, s, g)
  {
  }

  lemma GrantStoredKeepsOthers(db: Db, grant: Grant, s: Secret, pair: Pair, at: Instant, g: nat)
    requires g in db.grants && g < db.nextGrant
    ensures g in GrantStored(db, grant, s, pair, at).grants && GrantStored(db, grant, s, pair, at).grants[g] == db.grants[g]
  {
  }

  // A code is dropped by a later consent once it has expired unused, and with its client,
  // and not otherwise.
  predicate Drops(w: World, l: Label, s: Secret)
    requires s in w.db.codes
  {
    var c := w.db.codes[s];
    || (l.Approve? && l.id in w.pending && w.pending[l.id].Consenting? && !c.used && c.expires < w.pending[l.id].approval.at)
    || (l.Prune? && c.client in l.clients)
  }

  lemma CodeDroppedIff(rules: Rules, trace: seq<World>, labels: seq<Label>, i: nat, s: Secret)
    requires IsRun(rules, trace, labels) && i < |labels| && s in trace[i].db.codes
    ensures s !in trace[i + 1].db.codes <==> Drops(trace[i], labels[i], s)
  {
    var w, l, w' := trace[i], labels[i], trace[i + 1];
    EveryRunKeepsInvariant(rules, trace, labels, i);
    assert FromApproval(w, s, w.db.codes[s]);
    assert StepAt(rules, trace, labels, i);
    if l.Approve? || l.Prune? {
      ConsentDrops(rules, w, l, w', s);
    } else {
      OthersKeepCodes(rules, w, l, w');
    }
  }

  lemma ConsentDrops(rules: Rules, w: World, l: Label, w': World, s: Secret)
    requires (l.Approve? || l.Prune?) && Steps(rules, w, l, w') && s in w.db.codes && s in w.drawn
    ensures s !in w'.db.codes <==> Drops(w, l, s)
  {
  }

  lemma OthersKeepCodes(rules: Rules, w: World, l: Label, w': World)
    requires !l.Approve? && !l.Prune? && Steps(rules, w, l, w')
    ensures w'.db.codes.Keys == w.db.codes.Keys
  {
    if l.Replay? {
      RotationIsQuiet(w.db, w.pending[l.id].token, None, l.at);
    } else if l.Rotate? {
      RotationIsQuiet(w.db, w.pending[l.id].token, Some(l.pair), l.at);
    } else if l.Consume? {
      ConsumeKeepsCodes(w.db, l.code);
    } else if l.Redeem? {
      StoringKeepsCodes(w.db, GrantOf(w.pending[l.id].stored, w.pending[l.id].ask), w.pending[l.id].code, l.pair, w.pending[l.id].at);
    }
  }

  lemma ConsumeKeepsCodes(db: Db, s: Secret)
    ensures CodeConsumed(db, s).codes.Keys == db.codes.Keys
  {
  }

  lemma StoringKeepsCodes(db: Db, grant: Grant, s: Secret, pair: Pair, at: Instant)
    ensures GrantStored(db, grant, s, pair, at).codes.Keys == db.codes.Keys
  {
  }
}
