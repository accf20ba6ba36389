/** A browsing session on the premium view: any sequence of the user's actions, each run to
    completion. The lemmas here relate the whole session to the storage and the view it ends with. */
module PremiumSession {
  import opened LocalStorage
  import opened PremiumGate

  /** What the user can do on the premium view: press an Unlock button (the checkout runs at
      instant `now` and may fault), press "Revoke access", or reload the page. */
  datatype Action = Unlock(item: PremiumItem, now: int, fault: Fault) | RevokeAccess | Reload

  /** One action, run to completion. Unlock attempts start only while nothing is processing. */
  function Step(v: View, a: Action): (r: View)
    requires !v.processing
    ensures !r.processing
    ensures Consistent(v) ==> Consistent(r)
  {
    match a
    case Unlock(item, now, fault) => MockCheckout(v, item, now, fault).after
    case RevokeAccess => RevokeAndReload(v)
    case Reload => MountView(v.store)
  }

  /** A whole session, action by action: no checkout is left processing at the end, and the view
      keeps agreeing with the storage. */
  function Run(v: View, actions: seq<Action>): (r: View)
    requires !v.processing
    ensures !r.processing
    ensures Consistent(v) ==> Consistent(r)
    decreases |actions|
  {
    if actions == [] then v
    else Step(Run(v, actions[..|actions| - 1]), actions[|actions| - 1])
  }

  /** An action that writes the entitlement: an Unlock at or after the release instant whose
      storage write does not throw. */
  predicate Grants(a: Action)
  {
    a.Unlock? && Embargo <= a.now && a.fault != WriteFault
  }

  /** No "Revoke access" among `actions[from..]`. */
  ghost predicate NoRevokeFrom(actions: seq<Action>, from: nat)
  {
    forall j :: from <= j < |actions| ==> !actions[j].RevokeAccess?
  }

  /** Reference definition of the entitlement after a session: it was held at the start and never
      revoked, or some action granted it and no revoke came after. */
  ghost predicate EntitledAfter(initially: bool, actions: seq<Action>)
  {
    || (initially && NoRevokeFrom(actions, 0))
    || exists i :: 0 <= i < |actions| && Grants(actions[i]) && NoRevokeFrom(actions, i + 1)
  }

  /** An action that neither grants nor revokes leaves the reference entitlement as it was. */
  lemma {:induction false} EntitledAfterNeutral(initially: bool, actions: seq<Action>, a: Action)
    requires !Grants(a) && !a.RevokeAccess?
    ensures EntitledAfter(initially, actions + [a]) <==> EntitledAfter(initially, actions)
  {
    var s := actions + [a];
    if EntitledAfter(initially, actions) {
      if initially && NoRevokeFrom(actions, 0) {
        assert NoRevokeFrom(s, 0) by {
          forall j | 0 <= j < |s| ensures !s[j].RevokeAccess? {
            if j < |actions| { assert s[j] == actions[j]; }
          }
        }
      } else {
        var i :| 0 <= i < |actions| && Grants(actions[i]) && NoRevokeFrom(actions, i + 1);
        assert s[i] == actions[i];
        assert NoRevokeFrom(s, i + 1) by {
          forall j | i + 1 <= j < |s| ensures !s[j].RevokeAccess? {
            if j < |actions| { assert s[j] == actions[j]; }
          }
        }
      }
    }
    if EntitledAfter(initially, s) {
      if initially && NoRevokeFrom(s, 0) {
        assert NoRevokeFrom(actions, 0) by {
          forall j | 0 <= j < |actions| ensures !actions[j].RevokeAccess? {
            assert s[j] == actions[j];
          }
        }
      } else {
        var i :| 0 <= i < |s| && Grants(s[i]) && NoRevokeFrom(s, i + 1);
        assert i < |actions|;
        assert s[i] == actions[i];
        assert NoRevokeFrom(actions, i + 1) by {
          forall j | i + 1 <= j < |actions| ensures !actions[j].RevokeAccess? {
            assert s[j] == actions[j];
          }
        }
      }
    }
  }

  /** The view shows "member" after a session, and the storage holds the entitlement, exactly when
      the reference definition says the entitlement is held. */
  lemma {:induction false} RunEntitlement(v: View, actions: seq<Action>)
    requires !v.processing && Consistent(v)
    ensures Run(v, actions).unlocked <==> EntitledAfter(v.unlocked, actions)
    ensures StoredUnlocked(Run(v, actions).store) <==> EntitledAfter(v.unlocked, actions)
    decreases |actions|
  {
    if actions != [] {
      var n := |actions| - 1;
      var prefix, a := actions[..n], actions[n];
      assert actions == prefix + [a];
      RunEntitlement(v, prefix);
      if a.RevokeAccess? {
        assert !EntitledAfter(v.unlocked, actions) by {
          assert !NoRevokeFrom(actions, 0) by { assert actions[n].RevokeAccess?; }
          forall i | 0 <= i < |actions| && Grants(actions[i]) ensures !NoRevokeFrom(actions, i + 1) {
            assert i + 1 <= n;
            assert actions[n].RevokeAccess?;
          }
        }
      } else if Grants(a) {
        assert NoRevokeFrom(actions, n + 1);
        assert Grants(actions[n]);
      } else {
        EntitledAfterNeutral(v.unlocked, prefix, a);
      }
    }
  }

  /** Mounted over any storage, the view after a session shows "member" exactly when the entitlement
      was stored and never revoked, or granted after the last revoke. */
  lemma EntitlementFromMount(initial: Store, actions: seq<Action>)
    ensures Run(MountView(initial), actions).unlocked <==> EntitledAfter(StoredUnlocked(initial), actions)
  {
    RunEntitlement(MountView(initial), actions);
  }

  /** Before the release instant nothing a session does changes anything: unlock attempts and
      reloads leave the storage and the view exactly as they were. */
  lemma {:induction false} EmbargoedSessionChangesNothing(v: View, actions: seq<Action>)
    requires !v.processing && Consistent(v)
    requires forall j :: 0 <= j < |actions| ==> (actions[j].Unlock? && actions[j].now < Embargo) || actions[j].Reload?
    ensures Run(v, actions) == v
    decreases |actions|
  {
    if actions != [] {
      var n := |actions| - 1;
      assert forall j :: 0 <= j < n ==> actions[..n][j] == actions[j];
      EmbargoedSessionChangesNothing(v, actions[..n]);
      if actions[n].Reload? {
        ReloadReproducesView(v);
      }
    }
  }

  /** The storage loses the entitlement only through "Revoke access": checkouts and reloads never
      remove the key or change its value away from the sentinel. */
  lemma {:induction false} OnlyRevokeRemovesEntitlement(v: View, actions: seq<Action>)
    requires !v.processing && StoredUnlocked(v.store) && NoRevokeFrom(actions, 0)
    ensures StoredUnlocked(Run(v, actions).store)
    decreases |actions|
  {
    if actions != [] {
      var n := |actions| - 1;
      assert NoRevokeFrom(actions[..n], 0) by {
        forall j | 0 <= j < n ensures !actions[..n][j].RevokeAccess? {
          assert actions[..n][j] == actions[j];
        }
      }
      OnlyRevokeRemovesEntitlement(v, actions[..n]);
      assert !actions[n].RevokeAccess?;
    }
  }

  /** A session reads and writes no storage key but "jg_premium": every other key ends as it began. */
  lemma {:induction false} OtherKeysUntouched(v: View, actions: seq<Action>, k: string)
    requires !v.processing && k != PremiumKey
    ensures GetItem(Run(v, actions).store, k) == GetItem(v.store, k)
    decreases |actions|
  {
    if actions != [] {
      OtherKeysUntouched(v, actions[..|actions| - 1], k);
    }
  }

  /** Two actions that are the same up to which item an Unlock names. */
  predicate SameUpToItem(a: Action, b: Action)
  {
    match a
    case Unlock(_, now, fault) => b.Unlock? && b.now == now && b.fault == fault
    case _ => b == a
  }

  /** Which items the user tries to unlock makes no difference to where a session ends. */
  lemma {:induction false} ItemsDoNotMatter(v: View, xs: seq<Action>, ys: seq<Action>)
    requires !v.processing
    requires |xs| == |ys| && forall j :: 0 <= j < |xs| ==> SameUpToItem(xs[j], ys[j])
    ensures Run(v, xs) == Run(v, ys)
    decreases |xs|
  {
    if xs != [] {
      var n := |xs| - 1;
      assert forall j :: 0 <= j < n ==> xs[..n][j] == xs[j] && ys[..n][j] == ys[j];
      ItemsDoNotMatter(v, xs[..n], ys[..n]);
      var w := Run(v, xs[..n]);
      if xs[n].Unlock? {
        CheckoutIgnoresItem(w, xs[n].item, ys[n].item, xs[n].now, xs[n].fault);
      }
    }
  }
}
