/**
Deactivating a person while their requests run (OAuthRuns): when it lasts, and the
one request that outlives it.
*/
module OAuthDeactivation {
  import opened Core
  import opened Policy
  import opened OAuthScopes
  import opened OAuth
  import opened OAuthRuns
  import opened OAuthResults

  // An exchange of this person's that has passed its checks and whose code is stored.
  predicate Checked(w: World, id: nat, u: UserId) {
    id in w.pending && w.pending[id].Redeeming? && w.pending[id].stored.user == u && w.pending[id].code in w.db.codes
  }

  predicate LiveGrant(w: World, g: nat, u: UserId) {
    g in w.db.grants && w.db.grants[g].user == u && !w.db.grants[g].revoked
  }

  predicate AnyChecked(w: World, u: UserId) { exists id :: id in w.pending && Checked(w, id, u) }

  predicate AnyLive(w: World, u: UserId) { exists g :: g in w.db.grants && LiveGrant(w, g, u) }

  // Nobody can act for this person, and no exchange of theirs can end in a grant.
  predicate Shut(w: World, u: UserId) {
    !ActivePerson(w.users, u) && !AnyLive(w, u) && !AnyChecked(w, u)
  }

  // ---- One step ----------------------------------------------------------------------

  // A new grant is the redemption of a checked exchange.
  lemma OnlyRedeemGrants(rules: Rules, w: World, l: Label, w': World, g: nat)
    requires Steps(rules, w, l, w') && g in w'.db.grants && g !in w.db.grants
    ensures l.Redeem? && Checked(w, l.id, w'.db.grants[g].user)
  {
    if l.Redeem? {
      RedeemAddsOne(rules, w, l, w', g);
    } else if l.Consume? || l.Rotate? || l.Replay? || l.Revoke? || l.ChangePeople? {
      RevokingAddsNone(rules, w, l, w');
    } else {
      QuietStepsKeepGrants(rules, w, l, w');
    }
  }

  lemma RedeemAddsOne(rules: Rules, w: World, l: Label, w': World, g: nat)
    requires Steps(rules, w, l, w') && l.Redeem? && g in w'.db.grants && g !in w.db.grants
    ensures Checked(w, l.id, w'.db.grants[g].user)
  {
  }

  lemma RevokingAddsNone(rules: Rules, w: World, l: Label, w': World)
    requires Steps(rules, w, l, w') && (l.Consume? || l.Rotate? || l.Replay? || l.Revoke? || l.ChangePeople?)
    ensures w'.db.grants.Keys == w.db.grants.Keys
  {
    if l.Consume? {
      ConsumeIsQuiet(w.db, l.code);
    } else if l.Rotate? {
      RotationIsQuiet(w.db, w.pending[l.id].token, Some(l.pair), l.at);
    } else if l.Replay? {
      RotationIsQuiet(w.db, w.pending[l.id].token, None, l.at);
    } else if l.Revoke? {
      RevocationIsQuiet(w.db, l.grant, l.user, {});
    } else {
      RevocationIsQuiet(w.db, 0, 0, Deactivated(w.users, l.users));
    }
  }

  // A code that was dropped never comes back.
  lemma CodesStayDropped(rules: Rules, w: World, l: Label, w': World, s: Secret)
    requires Steps(rules, w, l, w') && s in w.drawn && s in w'.db.codes
    ensures s in w.db.codes
  {
    if l.Rotate? {
      RotationIsQuiet(w.db, w.pending[l.id].token, Some(l.pair), l.at);
    } else if l.Replay? {
      RotationIsQuiet(w.db, w.pending[l.id].token, None, l.at);
    } else if l.Revoke? {
      RevocationIsQuiet(w.db, l.grant, l.user, {});
    } else if l.ChangePeople? {
      RevocationIsQuiet(w.db, 0, 0, Deactivated(w.users, l.users));
    } else {
      OtherCodes(rules, w, l, w', s);
    }
  }

  lemma OtherCodes(rules: Rules, w: World, l: Label, w': World, s: Secret)
    requires Steps(rules, w, l, w') && s in w.drawn && s in w'.db.codes
    requires !l.Rotate? && !l.Replay? && !l.Revoke? && !l.ChangePeople?
    ensures s in w.db.codes
  {
  }

  // An exchange that has passed its checks either had before, or passes them in this
  // step, its person being active.
  lemma NewlyChecked(rules: Rules, w: World, l: Label, w': World, id: nat)
    requires Steps(rules, w, l, w') && id in w'.pending && w'.pending[id].Redeeming?
    ensures (id in w.pending && w.pending[id] == w'.pending[id]) || ActivePerson(w.users, w'.pending[id].stored.user)
  {
  }

  lemma StillChecked(rules: Rules, w: World, l: Label, w': World, id: nat, u: UserId)
    requires Invariant(rules, w) && Steps(rules, w, l, w') && Checked(w', id, u) && !ActivePerson(w.users, u)
    ensures Checked(w, id, u)
  {
    NewlyChecked(rules, w, l, w', id);
    assert RequestOk(rules, w, w.pending[id]);
    CodesStayDropped(rules, w, l, w', w'.pending[id].code);
  }

  lemma StaysShut(rules: Rules, w: World, l: Label, w': World, u: UserId)
    requires Invariant(rules, w) && Steps(rules, w, l, w') && Shut(w, u) && !ActivePerson(w'.users, u)
    ensures Shut(w', u)
  {
    forall g | g in w'.db.grants
      ensures !LiveGrant(w', g, u)
    {
      if g in w.db.grants {
        GrantStays(rules, w, l, w', g);
      } else {
        OnlyRedeemGrants(rules, w, l, w', g);
      }
    }
    forall id | id in w'.pending
      ensures !Checked(w', id, u)
    {
      if Checked(w', id, u) {
        StillChecked(rules, w, l, w', id, u);
      }
    }
  }

  lemma DeactivationStep(rules: Rules, w: World, l: Label, w': World, u: UserId)
    requires Steps(rules, w, l, w') && l.ChangePeople? && u in Deactivated(w.users, l.users)
    ensures !ActivePerson(w'.users, u) && !AnyLive(w', u) && (AnyChecked(w', u) <==> AnyChecked(w, u))
  {
  }

  // ---- Every run ---------------------------------------------------------------------

  // Deactivation shuts a person out for as long as they stay inactive, unless one of
  // their exchanges had already passed its checks.
  lemma {:induction false} ShutOut(rules: Rules, trace: seq<World>, labels: seq<Label>, i: nat, j: nat, u: UserId)
    requires IsRun(rules, trace, labels) && i < j < |trace|
    requires labels[i].ChangePeople? && u in Deactivated(trace[i].users, labels[i].users)
    requires !AnyChecked(trace[i], u)
    requires forall k :: i < k <= j ==> !ActivePerson(trace[k].users, u)
    ensures Shut(trace[j], u)
    decreases j - i
  {
    assert StepAt(rules, trace, labels, j - 1);
    if i + 1 < j {
      ShutOut(rules, trace, labels, i, j - 1, u);
      EveryRunKeepsInvariant(rules, trace, labels, j - 1);
      StaysShut(rules, trace[j - 1], labels[j - 1], trace[j], u);
    } else {
      DeactivationStep(rules, trace[i], labels[i], trace[j], u);
    }
  }

  // The run goes on from where `trace` ends, with the person inactive throughout, and
  // ends with a live grant of theirs.
  ghost predicate OutlivedBy(rules: Rules, trace: seq<World>, labels: seq<Label>, u: UserId, longer: seq<World>,
      more: seq<Label>) {
    && IsRun(rules, longer, more) && trace <= longer && labels <= more
    && (forall k :: |labels| <= k < |longer| ==> !ActivePerson(longer[k].users, u))
    && AnyLive(longer[|longer| - 1], u)
  }

  // Deactivation lasts, whatever happens next while the person is inactive, if and
  // only if none of their exchanges has passed its checks.
  lemma DeactivationLasts(rules: Rules, trace: seq<World>, labels: seq<Label>, u: UserId)
    requires IsRun(rules, trace, labels) && |labels| > 0
    requires labels[|labels| - 1].ChangePeople? && u in Deactivated(trace[|labels| - 1].users, labels[|labels| - 1].users)
    ensures (exists longer, more :: OutlivedBy(rules, trace, labels, u, longer, more)) <==>
            AnyChecked(trace[|labels|], u)
  {
    var i := |labels| - 1;
    assert StepAt(rules, trace, labels, i);
    DeactivationStep(rules, trace[i], labels[i], trace[i + 1], u);
    if longer, more :| OutlivedBy(rules, trace, labels, u, longer, more) {
      OutlivingNeedsCheck(rules, trace, labels, u, longer, more);
    }
    if AnyChecked(trace[i + 1], u) {
      var id :| id in trace[i + 1].pending && Checked(trace[i + 1], id, u);
      CheckedOutlives(rules, trace, labels, u, id);
    }
  }

  lemma OutlivingNeedsCheck(rules: Rules, trace: seq<World>, labels: seq<Label>, u: UserId, longer: seq<World>,
      more: seq<Label>)
    requires IsRun(rules, trace, labels) && |labels| > 0
    requires labels[|labels| - 1].ChangePeople? && u in Deactivated(trace[|labels| - 1].users, labels[|labels| - 1].users)
    requires OutlivedBy(rules, trace, labels, u, longer, more)
    ensures AnyChecked(trace[|labels|], u)
  {
    var i := |labels| - 1;
    assert longer[i] == trace[i] && more[i] == labels[i] && longer[i + 1] == trace[i + 1];
    if !AnyChecked(trace[i + 1], u) {
      assert StepAt(rules, trace, labels, i);
      DeactivationStep(rules, trace[i], labels[i], trace[i + 1], u);
      ShutOut(rules, longer, more, i, |longer| - 1, u);
      assert false;
    }
  }

  // ---- The exchange that outlives it ---------------------------------------------------

  lemma {:induction false} Above(s: set<nat>) returns (bound: nat)
    ensures forall x :: x in s ==> x < bound
    decreases |s|
  {
    if s == {} {
      bound := 0;
    } else {
      var x :| x in s;
      var rest := Above(s - {x});
      bound := if x < rest then rest else x + 1;
      forall y | y in s
        ensures y < bound
      {
        assert y == x || y in s - {x};
      }
    }
  }

  // The last step of an exchange looks at nothing but its code.
  lemma CheckedExchangeRedeems(rules: Rules, w: World, id: nat, u: UserId) returns (pair: Pair, w': World)
    requires Checked(w, id, u)
    ensures Steps(rules, w, Redeem(id, pair), w') && w'.users == w.users && LiveGrant(w', w.db.nextGrant, u)
  {
    var p := w.pending[id];
    var b := Above(w.drawn);
    pair := Pair(b, b + 1);
    w' := w.(db := GrantStored(w.db, GrantOf(p.stored, p.ask), p.code, pair, p.at),
             pending := w.pending - {id},
             drawn := w.drawn + {pair.access, pair.refresh},
             redemptions := w.redemptions[w.db.nextGrant := Redemption(p.code, p.ask, p.at)],
             chain := w.chain[w.db.nextGrant := [pair.refresh]]);
    assert FreshPair(w, pair);
  }

  lemma RunGrows(rules: Rules, trace: seq<World>, labels: seq<Label>, l: Label, w: World)
    requires IsRun(rules, trace, labels) && Steps(rules, trace[|labels|], l, w)
    ensures IsRun(rules, trace + [w], labels + [l])
  {
    forall i | 0 <= i < |labels| + 1
      ensures StepAt(rules, trace + [w], labels + [l], i)
    {
      if i < |labels| {
        assert StepAt(rules, trace, labels, i);
      }
    }
  }

  lemma CheckedOutlives(rules: Rules, trace: seq<World>, labels: seq<Label>, u: UserId, id: nat)
    requires IsRun(rules, trace, labels) && Checked(trace[|labels|], id, u) && !ActivePerson(trace[|labels|].users, u)
    ensures exists longer, more :: OutlivedBy(rules, trace, labels, u, longer, more)
  {
    var pair, w := CheckedExchangeRedeems(rules, trace[|labels|], id, u);
    RunGrows(rules, trace, labels, Redeem(id, pair), w);
    var longer, more := trace + [w], labels + [Redeem(id, pair)];
    assert LiveGrant(longer[|longer| - 1], trace[|labels|].db.nextGrant, u);
    assert OutlivedBy(rules, trace, labels, u, longer, more);
  }

  // ---- Such a run ----------------------------------------------------------------------

  function Person(active: bool): User { User(1, AgentRole, active, false) }

  function Consent(): Approval { Approval(Person(true), 7, "app", "proof", [CatalogRead], "desk", 0) }

  function Asked(): Exchange { Exchange(7, "app", "proof", "") }

  function Plainly(): Rules { Rules(v => v, v => true, (a, b) => a == b, "desk") }

  // Consent, and an exchange that spends its code and passes its checks; the person is
  // deactivated before it stores the grant.
  function Exchanged(k: nat): World {
    var empty := World(Db(map[], map[], map[], 1), map[1 := Person(true)], map[], {}, map[], map[], map[]);
    var spent := CodeOf(Consent()).(used := true);
    if k == 0 then empty
    else if k == 1 then empty.(pending := map[1 := Consenting(Consent())])
    else
      var consented := empty.(db := Db(map[1 := CodeOf(Consent())], map[], map[], 1), drawn := {1}, approvals := map[1 := Consent()]);
      if k == 2 then consented
      else
        var used := consented.(db := Db(map[1 := spent], map[], map[], 1));
        if k == 3 then used.(pending := map[1 := Exchanging(1, CodeOf(Consent()), Asked())])
        else
          var checked := used.(pending := map[1 := Redeeming(1, CodeOf(Consent()), Asked(), 0)]);
          if k == 4 then checked else checked.(users := map[1 := Person(false)])
  }

  function ExchangedLabels(): seq<Label> {
    [ReadConsent(1, Consent()), Label.Approve(1, 1), Consume(1, 1, Asked()), Check(1, 0), ChangePeople(map[1 := Person(false)])]
  }

  lemma ConsentSteps(k: nat)
    requires k < 2
    ensures Steps(Plainly(), Exchanged(k), ExchangedLabels()[k], Exchanged(k + 1))
  {
    if k == 1 {
      assert Usable(AgentRole, [CatalogRead]) == [CatalogRead];
      assert CodeStored(Exchanged(1).db, 1, CodeOf(Consent()), 0).codes == Exchanged(2).db.codes;
      assert Exchanged(1).pending - {1} == map[];
    }
  }

  lemma ExchangeSteps(k: nat)
    requires 2 <= k < 5
    ensures Steps(Plainly(), Exchanged(k), ExchangedLabels()[k], Exchanged(k + 1))
  {
    var w, w' := Exchanged(k), Exchanged(k + 1);
    assert CodeTtl == 60;
    if k == 2 {
      assert CodeConsumed(w.db, 1).codes == w'.db.codes;
    } else if k == 4 {
      assert PeopleDeactivated(w.db, Deactivated(w.users, w'.users)).grants == w'.db.grants;
    }
  }

  // The exchange ends in a live grant of a person who is inactive.
  lemma DeactivatedMidExchange()
    ensures exists trace: seq<World>, labels: seq<Label> ::
              && IsRun(Plainly(), trace, labels) && |labels| == 5
              && labels[4].ChangePeople? && 1 in Deactivated(trace[4].users, labels[4].users)
              && exists longer, more :: OutlivedBy(Plainly(), trace, labels, 1, longer, more)
  {
    var trace := seq(6, (k: nat) => Exchanged(k));
    var labels := ExchangedLabels();
    forall k | 0 <= k < |labels|
      ensures StepAt(Plainly(), trace, labels, k)
    {
      if k < 2 {
        ConsentSteps(k);
      } else {
        ExchangeSteps(k);
      }
    }
    assert IsRun(Plainly(), trace, labels);
    assert Checked(trace[5], 1, 1);
    CheckedOutlives(Plainly(), trace, labels, 1, 1);
  }
}
