/**
Refresh tokens over every run of OAuthRuns: how long one stays stored, and what
presenting a spent one does, whatever happens in between.
*/
module OAuthReplay {
  import opened OAuth
  import opened OAuthRuns
  import opened OAuthResults

  // The step hands the token to the store's rotation: a refresh that passed its
  // checks, or one that read the token as already spent.
  predicate Presents(w: World, l: Label, s: Secret) {
    && (l.Rotate? || l.Replay?) && l.id in w.pending
    && (if l.Rotate? then w.pending[l.id].Rotating? else w.pending[l.id].Replaying?) && w.pending[l.id].token == s
  }

  // The step is a rotation within the token's grant, later than the token expired.
  predicate Drops(w: World, l: Label, s: Secret) {
    && l.Rotate? && l.id in w.pending && w.pending[l.id].Rotating?
    && var t := w.pending[l.id].token;
    && Spendable(w.db, t) && s in w.db.tokens && w.db.tokens[s].grant == w.db.tokens[t].grant
    && w.db.tokens[s].expires < l.at
  }

  predicate DroppedAt(trace: seq<World>, labels: seq<Label>, m: nat, s: Secret) {
    m < |trace| && m < |labels| && Drops(trace[m], labels[m], s)
  }

  // A rotation dropped the token in one of the steps `i`, ..., `k - 1`.
  ghost predicate Dropped(trace: seq<World>, labels: seq<Label>, i: nat, k: nat, s: Secret) {
    exists m :: i <= m < k && DroppedAt(trace, labels, m, s)
  }

  predicate TokenKept(db: Db, db': Db, s: Secret) {
    s in db.tokens && s in db'.tokens ==>
      db'.tokens[s].(used := false) == db.tokens[s].(used := false) && (db.tokens[s].used ==> db'.tokens[s].used)
  }

  // ---- One step ----------------------------------------------------------------------

  // A refresh that found its token spent holds one that cannot be spent any more.
  ghost predicate ReplaysSpent(w: World) {
    forall id :: id in w.pending && w.pending[id].Replaying? ==>
      w.pending[id].token in w.drawn && !Spendable(w.db, w.pending[id].token)
  }

  lemma StillTokens(rules: Rules, w: World, l: Label, w': World)
    requires Steps(rules, w, l, w') && !l.Redeem? && !l.Rotate? && !l.Replay?
    ensures w'.db.tokens == w.db.tokens && w.drawn <= w'.drawn
  {
  }

  lemma RedeemTokens(rules: Rules, w: World, l: Label, w': World, s: Secret)
    requires Steps(rules, w, l, w') && l.Redeem? && s in w.drawn
    ensures s in w'.drawn && (s in w'.db.tokens <==> s in w.db.tokens)
    ensures s in w.db.tokens ==> w'.db.tokens[s] == w.db.tokens[s]
  {
  }

  lemma RotateTokens(rules: Rules, w: World, l: Label, w': World, s: Secret)
    requires Steps(rules, w, l, w') && l.Rotate? && s in w.drawn
    ensures s in w'.drawn && TokenKept(w.db, w'.db, s)
    ensures s in w'.db.tokens <==> s in w.db.tokens && !Drops(w, l, s)
  {
  }

  lemma ReplayTokens(rules: Rules, w: World, l: Label, w': World)
    requires Steps(rules, w, l, w') && l.Replay? && ReplaysSpent(w)
    ensures w'.db.tokens == w.db.tokens && w'.drawn == w.drawn
  {
  }

  // A drawn token stays stored, the same but for being spent, until a rotation drops
  // it; one that is not stored never comes back.
  lemma TokenStep(rules: Rules, w: World, l: Label, w': World, s: Secret)
    requires ReplaysSpent(w) && Steps(rules, w, l, w') && s in w.drawn
    ensures s in w'.drawn && TokenKept(w.db, w'.db, s)
    ensures s in w'.db.tokens <==> s in w.db.tokens && !Drops(w, l, s)
  {
    if l.Redeem? {
      RedeemTokens(rules, w, l, w', s);
    } else if l.Rotate? {
      RotateTokens(rules, w, l, w', s);
    } else if l.Replay? {
      ReplayTokens(rules, w, l, w');
    } else {
      StillTokens(rules, w, l, w');
    }
  }

  // A refresh that holds a spent token held it before, or has just read it.
  lemma NewReplays(rules: Rules, w: World, l: Label, w': World, id: nat)
    requires Steps(rules, w, l, w') && id in w'.pending && w'.pending[id].Replaying?
    ensures || (id in w.pending && w.pending[id] == w'.pending[id])
            || (l.ReadRefresh? && w'.pending[id].token in w.db.tokens && w.db.tokens[w'.pending[id].token].used)
  {
  }

  lemma ReplaysStaySpent(rules: Rules, w: World, l: Label, w': World)
    requires TokensOk(w) && ReplaysSpent(w) && Steps(rules, w, l, w')
    ensures ReplaysSpent(w')
  {
    forall id | id in w'.pending && w'.pending[id].Replaying?
      ensures w'.pending[id].token in w'.drawn && !Spendable(w'.db, w'.pending[id].token)
    {
      var s := w'.pending[id].token;
      NewReplays(rules, w, l, w', id);
      assert StoredOk(w, s);
      TokenStep(rules, w, l, w', s);
    }
  }

  // ---- Every run ---------------------------------------------------------------------

  lemma {:induction false} ReplaysAreSpent(rules: Rules, trace: seq<World>, labels: seq<Label>, n: nat)
    requires IsRun(rules, trace, labels) && n < |trace|
    ensures ReplaysSpent(trace[n])
  {
    if n > 0 {
      ReplaysAreSpent(rules, trace, labels, n - 1);
      EveryRunKeepsInvariant(rules, trace, labels, n - 1);
      assert StepAt(rules, trace, labels, n - 1);
      ReplaysStaySpent(rules, trace[n - 1], labels[n - 1], trace[n]);
    }
  }

  lemma {:induction false} TokenLasts(rules: Rules, trace: seq<World>, labels: seq<Label>, i: nat, k: nat, s: Secret)
    requires IsRun(rules, trace, labels) && i <= k < |trace| && s in trace[i].db.tokens
    ensures s in trace[k].drawn && TokenKept(trace[i].db, trace[k].db, s)
    ensures s in trace[k].db.tokens <==> !Dropped(trace, labels, i, k, s)
    decreases k - i
  {
    if i == k {
      EveryRunKeepsInvariant(rules, trace, labels, i);
      assert StoredOk(trace[i], s);
    } else {
      TokenLasts(rules, trace, labels, i, k - 1, s);
      ReplaysAreSpent(rules, trace, labels, k - 1);
      assert StepAt(rules, trace, labels, k - 1);
      TokenStep(rules, trace[k - 1], labels[k - 1], trace[k], s);
      DroppedGrows(trace, labels, i, k, s);
    }
  }

  lemma DroppedGrows(trace: seq<World>, labels: seq<Label>, i: nat, k: nat, s: Secret)
    requires i < k
    ensures Dropped(trace, labels, i, k, s) <==> Dropped(trace, labels, i, k - 1, s) || DroppedAt(trace, labels, k - 1, s)
  {
    if Dropped(trace, labels, i, k, s) {
      var m :| i <= m < k && DroppedAt(trace, labels, m, s);
      assert m == k - 1 || Dropped(trace, labels, i, k - 1, s);
    }
    if Dropped(trace, labels, i, k - 1, s) {
      var m :| i <= m < k - 1 && DroppedAt(trace, labels, m, s);
    }
  }

  // From state `k` on the grant is revoked and no request is let in with it.
  ghost predicate Closed(trace: seq<World>, labels: seq<Label>, k: nat, g: nat) {
    forall n :: k <= n < |trace| ==> ClosedAt(trace, labels, n, g)
  }

  predicate ClosedAt(trace: seq<World>, labels: seq<Label>, n: nat, g: nat)
    requires n < |trace|
  {
    && g in trace[n].db.grants && trace[n].db.grants[g].revoked
    && (n < |labels| ==> !Uses(trace[n], labels[n], g))
  }

  lemma RevokedCloses(rules: Rules, trace: seq<World>, labels: seq<Label>, k: nat, g: nat)
    requires IsRun(rules, trace, labels) && k < |trace| && g in trace[k].db.grants && trace[k].db.grants[g].revoked
    ensures Closed(trace, labels, k, g)
  {
    forall n | k <= n < |trace|
      ensures ClosedAt(trace, labels, n, g)
    {
      RevokedForGood(rules, trace, labels, k, n, g);
    }
  }

  lemma PresentedToStore(rules: Rules, w: World, l: Label, w': World, s: Secret)
    requires Steps(rules, w, l, w') && Presents(w, l, s) && !Spendable(w.db, s)
    ensures w'.db == if s in w.db.tokens then Revoked(w.db, w.db.tokens[s].grant) else w.db
  {
  }

  lemma PresentedAt(rules: Rules, trace: seq<World>, labels: seq<Label>, k: nat, s: Secret)
    requires IsRun(rules, trace, labels) && k < |labels| && Presents(trace[k], labels[k], s) && !Spendable(trace[k].db, s)
    ensures trace[k + 1].db == if s in trace[k].db.tokens then Revoked(trace[k].db, trace[k].db.tokens[s].grant) else trace[k].db
  {
    assert StepAt(rules, trace, labels, k);
    PresentedToStore(rules, trace[k], labels[k], trace[k + 1], s);
  }

  lemma GrantOfToken(rules: Rules, trace: seq<World>, labels: seq<Label>, i: nat, k: nat, s: Secret)
    requires IsRun(rules, trace, labels) && i <= k < |trace| && s in trace[i].db.tokens
    ensures trace[i].db.tokens[s].grant in trace[k].db.grants
  {
    EveryRunKeepsInvariant(rules, trace, labels, i);
    assert StoredOk(trace[i], s);
    RevokedForGood(rules, trace, labels, i, k, trace[i].db.tokens[s].grant);
  }

  // A stored token presented when it cannot be spent closes its grant for good; if a
  // rotation has dropped it, presenting it changes nothing.
  lemma PresentedAgain(rules: Rules, trace: seq<World>, labels: seq<Label>, i: nat, k: nat, s: Secret)
    requires IsRun(rules, trace, labels) && i <= k < |labels|
    requires s in trace[i].db.tokens && Presents(trace[k], labels[k], s) && !Spendable(trace[k].db, s)
    ensures var g := trace[i].db.tokens[s].grant;
            && g in trace[k].db.grants && g in trace[k + 1].db.grants
            && (!trace[k + 1].db.grants[g].revoked <==> !trace[k].db.grants[g].revoked && Dropped(trace, labels, i, k, s))
            && (trace[k + 1].db.grants[g].revoked ==> Closed(trace, labels, k + 1, g))
            && (Dropped(trace, labels, i, k, s) ==> trace[k + 1].db == trace[k].db)
  {
    var g := trace[i].db.tokens[s].grant;
    GrantOfToken(rules, trace, labels, i, k, s);
    TokenLasts(rules, trace, labels, i, k, s);
    PresentedAt(rules, trace, labels, k, s);
    if trace[k + 1].db.grants[g].revoked {
      RevokedCloses(rules, trace, labels, k + 1, g);
    }
  }

  // A request that reads a spent refresh token at step `j` and replays it at step `k`
  // leaves the token's grant live if and only if it was live and a rotation in
  // between dropped the expired token.  Otherwise the grant is closed for good.
  lemma TokenReplayRevokes(rules: Rules, trace: seq<World>, labels: seq<Label>, j: nat, k: nat, id: nat, s: Secret)
    requires IsRun(rules, trace, labels) && j < k < |labels|
    requires labels[j] == ReadRefresh(id, s) && s in trace[j].db.tokens && trace[j].db.tokens[s].used
    requires labels[k].Replay? && labels[k].id == id && Presents(trace[k], labels[k], s)
    ensures var g := trace[j].db.tokens[s].grant;
            && g in trace[k].db.grants && g in trace[k + 1].db.grants
            && (!trace[k + 1].db.grants[g].revoked <==> !trace[k].db.grants[g].revoked && Dropped(trace, labels, j, k, s))
            && (trace[k + 1].db.grants[g].revoked ==> Closed(trace, labels, k + 1, g))
            && (Dropped(trace, labels, j, k, s) ==> trace[k + 1].db == trace[k].db)
  {
    TokenLasts(rules, trace, labels, j, k, s);
    PresentedAgain(rules, trace, labels, j, k, s);
  }

  // A rotation leaves the token it spends marked, if it leaves it at all.
  lemma Spends(rules: Rules, w: World, l: Label, w': World, s: Secret)
    requires Steps(rules, w, l, w') && l.Rotate? && Presents(w, l, s) && Spendable(w.db, s) && s in w.drawn
    ensures s in w'.db.tokens ==> w'.db.tokens[s].used
  {
  }

  lemma SpentAfter(rules: Rules, trace: seq<World>, labels: seq<Label>, j: nat, s: Secret)
    requires IsRun(rules, trace, labels) && j < |labels|
    requires labels[j].Rotate? && Presents(trace[j], labels[j], s) && Spendable(trace[j].db, s)
    ensures s in trace[j + 1].db.tokens ==> trace[j + 1].db.tokens[s].used
  {
    EveryRunKeepsInvariant(rules, trace, labels, j);
    assert StoredOk(trace[j], s);
    assert StepAt(rules, trace, labels, j);
    Spends(rules, trace[j], labels[j], trace[j + 1], s);
  }

  // No token is spent twice.
  lemma SpentOnce(rules: Rules, trace: seq<World>, labels: seq<Label>, j: nat, k: nat, s: Secret)
    requires IsRun(rules, trace, labels) && j < k < |trace|
    requires labels[j].Rotate? && Presents(trace[j], labels[j], s) && Spendable(trace[j].db, s)
    ensures !Spendable(trace[k].db, s)
  {
    SpentAfter(rules, trace, labels, j, s);
    TokenLasts(rules, trace, labels, j, j + 1, s);
    TokenLasts(rules, trace, labels, j, k, s);
    if s in trace[j + 1].db.tokens {
      TokenLasts(rules, trace, labels, j + 1, k, s);
    } else {
      DroppedLater(trace, labels, j, j + 1, k, s);
    }
  }

  lemma DroppedLater(trace: seq<World>, labels: seq<Label>, i: nat, j: nat, k: nat, s: Secret)
    requires i <= j <= k && Dropped(trace, labels, i, j, s)
    ensures Dropped(trace, labels, i, k, s)
  {
    var m :| i <= m < j && DroppedAt(trace, labels, m, s);
    assert m < k;
  }

  // Of two rotations of one token the second spends nothing, and closes the grant
  // for good unless a rotation before it dropped the token, expired.
  lemma SecondRotationRevokes(rules: Rules, trace: seq<World>, labels: seq<Label>, j: nat, k: nat, s: Secret)
    requires IsRun(rules, trace, labels) && j < k < |labels|
    requires labels[j].Rotate? && Presents(trace[j], labels[j], s) && Spendable(trace[j].db, s)
    requires labels[k].Rotate? && Presents(trace[k], labels[k], s)
    ensures !Spendable(trace[k].db, s)
    ensures var g := trace[j].db.tokens[s].grant;
            && g in trace[k].db.grants && g in trace[k + 1].db.grants
            && (!trace[k + 1].db.grants[g].revoked <==> !trace[k].db.grants[g].revoked && Dropped(trace, labels, j, k, s))
            && (trace[k + 1].db.grants[g].revoked ==> Closed(trace, labels, k + 1, g))
  {
    SpentOnce(rules, trace, labels, j, k, s);
    PresentedAgain(rules, trace, labels, j, k, s);
  }
}
