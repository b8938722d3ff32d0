/**
The steps of OAuthRuns, taken without anything in between, are the requests of
OAuthService: possible exactly when the request succeeds, and leaving the same store.
*/
module OAuthRequests {
  import opened Core
  import opened OAuthScopes
  import opened OAuth
  import opened OAuthRuns
  import opened OAuthService

  ghost predicate TwoSteps(rules: Rules, w: World, a: Label, w1: World, b: Label, w2: World) {
    Steps(rules, w, a, w1) && Steps(rules, w1, b, w2)
  }

  ghost predicate ThreeSteps(rules: Rules, w: World, a: Label, w1: World, b: Label, w2: World, c: Label, w3: World) {
    TwoSteps(rules, w, a, w1, b, w2) && Steps(rules, w2, c, w3)
  }

  // Nobody is left waiting and nobody changed.
  predicate Settled(w: World, w': World) { w'.pending == w.pending && w'.users == w.users }

  // ---- A consent ---------------------------------------------------------------------

  lemma ConsentAsRequest(rules: Rules, w: World, id: nat, a: Approval, code: Secret)
    requires id !in w.pending
    ensures (exists w1, w2 :: TwoSteps(rules, w, ReadConsent(id, a), w1, Label.Approve(id, code), w2)) <==>
              && a.user.id in w.users && w.users[a.user.id] == a.user && a.user.active && !a.user.service
              && Grantable(a.requested) && Usable(a.user.role, a.requested) != [] && code !in w.drawn
    ensures forall w1, w2 :: TwoSteps(rules, w, ReadConsent(id, a), w1, Label.Approve(id, code), w2) ==>
              w2.db == CodeStored(w.db, code, CodeOf(a), a.at) && Settled(w, w2)
  {
    if a.user.id in w.users && w.users[a.user.id] == a.user && a.user.active && !a.user.service
       && Grantable(a.requested) && Usable(a.user.role, a.requested) != [] && code !in w.drawn {
      var w1 := w.(pending := w.pending[id := Consenting(a)]);
      var w2 := w1.(db := CodeStored(w.db, code, CodeOf(a), a.at), pending := w1.pending - {id},
                    drawn := w.drawn + {code}, approvals := w.approvals[code := a]);
      assert TwoSteps(rules, w, ReadConsent(id, a), w1, Label.Approve(id, code), w2);
    }
    forall w1, w2 | TwoSteps(rules, w, ReadConsent(id, a), w1, Label.Approve(id, code), w2)
      ensures Settled(w, w2)
    {
      PutAndTaken(w.pending, id, Consenting(a));
    }
  }

  lemma PutAndTaken(m: map<nat, Request>, id: nat, r: Request)
    requires id !in m
    ensures m[id := r] - {id} == m
  {
  }

  // ---- An exchange -------------------------------------------------------------------

  predicate Exchanges(rules: Rules, w: World, code: Secret, ask: Exchange, at: Instant) {
    && code in w.db.codes && !w.db.codes[code].used && Matches(rules, w.db.codes[code], ask, at)
    && ActivePerson(w.users, w.db.codes[code].user)
  }

  lemma ExchangeAsRequest(rules: Rules, w: World, id: nat, code: Secret, ask: Exchange, at: Instant, pair: Pair)
    requires id !in w.pending && FreshPair(w, pair)
    ensures (exists w1, w2, w3 :: ThreeSteps(rules, w, Consume(id, code, ask), w1, Check(id, at), w2, Redeem(id, pair), w3)) <==>
            Exchanges(rules, w, code, ask, at)
    ensures forall w1, w2, w3 :: ThreeSteps(rules, w, Consume(id, code, ask), w1, Check(id, at), w2, Redeem(id, pair), w3) ==>
              w3.db == GrantStored(CodeConsumed(w.db, code), GrantOf(w.db.codes[code], ask), code, pair, at) && Settled(w, w3)
  {
    if Exchanges(rules, w, code, ask, at) {
      var w1, w2 := Exchanging2(rules, w, id, code, ask, at);
      var p := w2.pending[id];
      var w3 := w2.(db := GrantStored(w2.db, GrantOf(p.stored, ask), code, pair, at), pending := w2.pending - {id},
                    drawn := w2.drawn + {pair.access, pair.refresh},
                    redemptions := w2.redemptions[w2.db.nextGrant := Redemption(code, ask, at)],
                    chain := w2.chain[w2.db.nextGrant := [pair.refresh]]);
      assert Steps(rules, w2, Redeem(id, pair), w3);
      assert ThreeSteps(rules, w, Consume(id, code, ask), w1, Check(id, at), w2, Redeem(id, pair), w3);
    }
    forall w1, w2, w3 | ThreeSteps(rules, w, Consume(id, code, ask), w1, Check(id, at), w2, Redeem(id, pair), w3)
      ensures Exchanges(rules, w, code, ask, at)
      ensures w3.db == GrantStored(CodeConsumed(w.db, code), GrantOf(w.db.codes[code], ask), code, pair, at) && Settled(w, w3)
    {
      ExchangeSteps(rules, w, id, code, ask, at, w1, w2);
      PutAndTaken(w.pending, id, w2.pending[id]);
    }
  }

  lemma Exchanging2(rules: Rules, w: World, id: nat, code: Secret, ask: Exchange, at: Instant) returns (w1: World, w2: World)
    requires id !in w.pending && Exchanges(rules, w, code, ask, at)
    ensures TwoSteps(rules, w, Consume(id, code, ask), w1, Check(id, at), w2)
    ensures w2 == w.(db := CodeConsumed(w.db, code), pending := w.pending[id := Redeeming(code, w.db.codes[code], ask, at)])
  {
    w1 := w.(db := CodeConsumed(w.db, code), pending := w.pending[id := Exchanging(code, w.db.codes[code], ask)]);
    w2 := w1.(pending := w1.pending[id := Redeeming(code, w.db.codes[code], ask, at)]);
    assert w1.pending[id := w2.pending[id]] == w.pending[id := w2.pending[id]];
  }

  lemma ExchangeSteps(rules: Rules, w: World, id: nat, code: Secret, ask: Exchange, at: Instant, w1: World, w2: World)
    requires id !in w.pending && TwoSteps(rules, w, Consume(id, code, ask), w1, Check(id, at), w2)
    ensures Exchanges(rules, w, code, ask, at)
    ensures w2 == w.(db := CodeConsumed(w.db, code), pending := w.pending[id := Redeeming(code, w.db.codes[code], ask, at)])
  {
    assert w1.pending[id := w2.pending[id]] == w.pending[id := w2.pending[id]];
  }

  // ---- A refresh ---------------------------------------------------------------------

  lemma RefreshAsRequest(rules: Rules, w: World, id: nat, token: Secret, client: nat, at: Instant, pair: Pair)
    requires id !in w.pending && FreshPair(w, pair)
    ensures (exists w1, w2, w3 ::
               ThreeSteps(rules, w, ReadRefresh(id, token), w1, CheckRefresh(id, client, at), w2, Rotate(id, pair, at), w3)) <==>
            Refreshable(w.db, w.users, client, token, at)
    ensures forall w1, w2, w3 ::
              ThreeSteps(rules, w, ReadRefresh(id, token), w1, CheckRefresh(id, client, at), w2, Rotate(id, pair, at), w3) ==>
                w3.db == TokenRotated(w.db, token, Some(pair), at) && Settled(w, w3)
  {
    if Refreshable(w.db, w.users, client, token, at) {
      var w1, w2 := Refreshing2(rules, w, id, token, client, at);
      var g := w.db.tokens[token].grant;
      var w3 := w2.(db := TokenRotated(w.db, token, Some(pair), at), pending := w2.pending - {id},
                    drawn := w2.drawn + {pair.access, pair.refresh},
                    chain := if g in w.chain then w.chain[g := w.chain[g] + [pair.refresh]] else w.chain);
      assert Steps(rules, w2, Rotate(id, pair, at), w3);
      assert ThreeSteps(rules, w, ReadRefresh(id, token), w1, CheckRefresh(id, client, at), w2, Rotate(id, pair, at), w3);
    }
    forall w1, w2, w3 | ThreeSteps(rules, w, ReadRefresh(id, token), w1, CheckRefresh(id, client, at), w2, Rotate(id, pair, at), w3)
      ensures Refreshable(w.db, w.users, client, token, at)
      ensures w3.db == TokenRotated(w.db, token, Some(pair), at) && Settled(w, w3)
    {
      RefreshSteps(rules, w, id, token, client, at, w1, w2);
      PutAndTaken(w.pending, id, w2.pending[id]);
    }
  }

  lemma Refreshing2(rules: Rules, w: World, id: nat, token: Secret, client: nat, at: Instant) returns (w1: World, w2: World)
    requires id !in w.pending && Refreshable(w.db, w.users, client, token, at)
    ensures TwoSteps(rules, w, ReadRefresh(id, token), w1, CheckRefresh(id, client, at), w2)
    ensures w2 == w.(pending := w.pending[id := Rotating(token, w.db.tokens[token].grant)])
  {
    w1 := w.(pending := w.pending[id := Refreshing(token, w.db.tokens[token])]);
    w2 := w1.(pending := w1.pending[id := Rotating(token, w.db.tokens[token].grant)]);
    assert w1.pending[id := w2.pending[id]] == w.pending[id := w2.pending[id]];
  }

  lemma RefreshSteps(rules: Rules, w: World, id: nat, token: Secret, client: nat, at: Instant, w1: World, w2: World)
    requires id !in w.pending && TwoSteps(rules, w, ReadRefresh(id, token), w1, CheckRefresh(id, client, at), w2)
    ensures Refreshable(w.db, w.users, client, token, at)
    ensures w2 == w.(pending := w.pending[id := Rotating(token, w.db.tokens[token].grant)])
  {
    assert w1.pending[id := w2.pending[id]] == w.pending[id := w2.pending[id]];
  }

  // A spent token presented again.
  lemma ReplayAsRequest(rules: Rules, w: World, id: nat, token: Secret, at: Instant)
    requires id !in w.pending
    ensures (exists w1, w2 :: TwoSteps(rules, w, ReadRefresh(id, token), w1, Replay(id, at), w2)) <==>
            token in w.db.tokens && w.db.tokens[token].kind == TokenKind.Refresh && w.db.tokens[token].used
    ensures forall w1, w2 :: TwoSteps(rules, w, ReadRefresh(id, token), w1, Replay(id, at), w2) ==>
              w2.db == Revoked(w.db, w.db.tokens[token].grant) && Settled(w, w2)
  {
    if token in w.db.tokens && w.db.tokens[token].kind == TokenKind.Refresh && w.db.tokens[token].used {
      var w1 := w.(pending := w.pending[id := Replaying(token)]);
      var w2 := w1.(db := TokenRotated(w.db, token, None, at), pending := w1.pending - {id});
      assert TwoSteps(rules, w, ReadRefresh(id, token), w1, Replay(id, at), w2);
    }
    forall w1, w2 | TwoSteps(rules, w, ReadRefresh(id, token), w1, Replay(id, at), w2)
      ensures token in w.db.tokens && w.db.tokens[token].kind == TokenKind.Refresh && w.db.tokens[token].used
      ensures w2.db == Revoked(w.db, w.db.tokens[token].grant) && Settled(w, w2)
    {
      ReplaySteps(rules, w, id, token, at, w1, w2);
    }
  }

  lemma ReplaySteps(rules: Rules, w: World, id: nat, token: Secret, at: Instant, w1: World, w2: World)
    requires id !in w.pending && TwoSteps(rules, w, ReadRefresh(id, token), w1, Replay(id, at), w2)
    ensures token in w.db.tokens && w.db.tokens[token].kind == TokenKind.Refresh && w.db.tokens[token].used
    ensures w2.db == Revoked(w.db, w.db.tokens[token].grant) && Settled(w, w2)
  {
    PutAndTaken(w.pending, id, Replaying(token));
  }

  // ---- A request with an access token -------------------------------------------------

  lemma AuthenticateAsRequest(rules: Rules, w: World, id: nat, token: Secret, at: Instant)
    requires id !in w.pending
    ensures (exists w1, w2, w3 :: ThreeSteps(rules, w, Present(id, token, at), w1, Open(id), w2, Accept(id), w3)) <==>
            TokenActs(w.db, w.users, rules, token, at)
    ensures forall w1, w2, w3 :: ThreeSteps(rules, w, Present(id, token, at), w1, Open(id), w2, Accept(id), w3) ==>
              w3 == w
  {
    if TokenActs(w.db, w.users, rules, token, at) {
      var g := w.db.tokens[token].grant;
      var w1 := w.(pending := w.pending[id := Presenting(g)]);
      var w2 := w1.(pending := w1.pending[id := Opened(g)]);
      var w3 := w2.(pending := w2.pending - {id});
      assert TwoSteps(rules, w, Present(id, token, at), w1, Open(id), w2);
      assert ThreeSteps(rules, w, Present(id, token, at), w1, Open(id), w2, Accept(id), w3);
    }
    forall w1, w2, w3 | ThreeSteps(rules, w, Present(id, token, at), w1, Open(id), w2, Accept(id), w3)
      ensures TokenActs(w.db, w.users, rules, token, at) && w3 == w
    {
      var g := w.db.tokens[token].grant;
      assert w1.pending[id := Opened(g)] == w.pending[id := Opened(g)];
      PutAndTaken(w.pending, id, Opened(g));
    }
  }
}
