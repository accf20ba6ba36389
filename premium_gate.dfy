/** The premium entitlement gate of the artist site's premium view: a persisted flag under the
    storage key "jg_premium", read once when the view mounts, written by a mock checkout that is
    refused before a fixed release instant, and removed by "Revoke access", which reloads the page. */
module PremiumGate {
  import opened LocalStorage

  /** The storage key that holds the entitlement. */
  const PremiumKey: string := "jg_premium"

  /** The only stored value that means "unlocked"; an absent key or any other value means locked. */
  const UnlockSentinel: string := "1"

  /** The release instant before which a checkout is refused, in milliseconds since the Unix epoch:
      2025-08-21 18:17:00 East Africa Time (UTC+3), the time the refusal message names. One instant for
      the whole catalog: items carry no release time of their own. */
  const Embargo: int := 1755789420000

  /** One line of an item's track list: its title and its displayed duration. */
  datatype Track = Track(title: string, duration: string)

  /** A purchasable catalog entry. The gate reads nothing of it but the title, for the success message. */
  datatype PremiumItem = PremiumItem(sku: string, title: string, description: string, cover: string, tracks: seq<Track>)

  /** Where the body of the checkout's `try` throws, if it does: the storage write (quota exceeded,
      storage disabled) or the message box shown at the end of the taken branch. */
  datatype Fault = NoFault | WriteFault | NoticeFault

  /** The message box the user is left with after a checkout: the embargo refusal, the success
      message naming the item, or the generic failure message shown by the `catch` block. */
  datatype Notice = EmbargoNotice | UnlockedNotice(title: string) | FailureNotice

  /** A snapshot of the browser storage and of the view's two state variables. */
  datatype View = View(store: Store, unlocked: bool, processing: bool)

  datatype CheckoutResult = CheckoutResult(after: View, notice: Notice)

  /** The stored entitlement, as the view's mount-time initialiser reads it. */
  predicate StoredUnlocked(store: Store)
    ensures StoredUnlocked(store) <==> PremiumKey in store && store[PremiumKey] == UnlockSentinel
  {
    GetItem(store, PremiumKey) == Some(UnlockSentinel)
  }

  /** The view shows "member" exactly when the storage holds the entitlement. */
  predicate Consistent(v: View)
  {
    v.unlocked == StoredUnlocked(v.store)
  }

  /** Mounting the view (also what a page reload does): `unlocked` is initialised from the storage
      and `processing` starts false. */
  function MountView(store: Store): (v: View)
    ensures v.store == store && !v.processing
    ensures v.unlocked <==> PremiumKey in store && store[PremiumKey] == UnlockSentinel
    ensures Consistent(v)
  {
    View(store, GetItem(store, PremiumKey) == Some(UnlockSentinel), false)
  }

  /** `mockCheckout(item)` run to completion, the 900 ms delay taken as one step. The caller is the
      Unlock button, which is disabled while `processing`. Before the embargo instant nothing changes;
      otherwise, unless the storage write throws, the key is written and the view unlocks. Either way
      `processing` is false at the end. The checkout only ever grants. */
  function MockCheckout(v: View, item: PremiumItem, now: int, fault: Fault): (r: CheckoutResult)
    requires !v.processing
    ensures !r.after.processing
    ensures now < Embargo || fault == WriteFault ==> r.after == v
    ensures Embargo <= now && fault != WriteFault ==>
              r.after.unlocked && StoredUnlocked(r.after.store) && r.after.store.Keys == v.store.Keys + {PremiumKey}
    ensures forall k :: k != PremiumKey ==> GetItem(r.after.store, k) == GetItem(v.store, k)
    ensures v.unlocked ==> r.after.unlocked
    ensures StoredUnlocked(v.store) ==> StoredUnlocked(r.after.store)
    ensures Consistent(v) ==> Consistent(r.after)
    ensures r.notice == EmbargoNotice <==> now < Embargo && fault != NoticeFault
    ensures r.notice == UnlockedNotice(item.title) <==> Embargo <= now && fault == NoFault
    ensures r.notice == FailureNotice <==> fault == NoticeFault || (Embargo <= now && fault == WriteFault)
  {
    if now < Embargo then
      CheckoutResult(v, if fault == NoticeFault then FailureNotice else EmbargoNotice)
    else if fault == WriteFault then
      CheckoutResult(v, FailureNotice)
    else
      var granted := View(SetItem(v.store, PremiumKey, UnlockSentinel), true, false);
      CheckoutResult(granted, if fault == NoticeFault then FailureNotice else UnlockedNotice(item.title))
  }

  /** "Revoke access": remove the key, then reload the page, which mounts the view afresh. */
  function RevokeAndReload(v: View): (r: View)
    ensures !r.unlocked && !r.processing
    ensures PremiumKey !in r.store && r.store.Keys == v.store.Keys - {PremiumKey}
    ensures forall k :: k != PremiumKey ==> GetItem(r.store, k) == GetItem(v.store, k)
    ensures Consistent(r)
  {
    MountView(RemoveItem(v.store, PremiumKey))
  }

  /** The item only names the success message: two checkouts that differ only in the item leave
      the same storage and view behind, and show the same message up to the title. */
  lemma CheckoutIgnoresItem(v: View, a: PremiumItem, b: PremiumItem, now: int, fault: Fault)
    requires !v.processing
    ensures MockCheckout(v, a, now, fault).after == MockCheckout(v, b, now, fault).after
    ensures MockCheckout(v, a, now, fault).notice.UnlockedNotice? == MockCheckout(v, b, now, fault).notice.UnlockedNotice?
    ensures !MockCheckout(v, a, now, fault).notice.UnlockedNotice? ==>
              MockCheckout(v, a, now, fault).notice == MockCheckout(v, b, now, fault).notice
  {
  }

  /** A reload while no checkout is in flight reproduces the view exactly: the storage is the
      whole persisted state. */
  lemma ReloadReproducesView(v: View)
    requires Consistent(v) && !v.processing
    ensures MountView(v.store) == v
  {
  }

  /** A second granted checkout changes nothing: granting is idempotent. */
  lemma CheckoutGrantIdempotent(v: View, item: PremiumItem, now: int, later: int)
    requires !v.processing && Embargo <= now && Embargo <= later
    ensures var once := MockCheckout(v, item, now, NoFault).after;
            MockCheckout(once, item, later, NoFault).after == once
  {
    SetItemIdempotent(v.store, PremiumKey, UnlockSentinel);
  }

  /** Revoking twice is the same as revoking once. */
  lemma RevokeIdempotent(v: View)
    ensures RevokeAndReload(RevokeAndReload(v)) == RevokeAndReload(v)
  {
    RemoveItemIdempotent(v.store, PremiumKey);
  }

  /** Granting and then revoking, starting from a storage without the key, gives back the storage
      and the locked view that were there before. */
  lemma GrantThenRevokeRoundTrip(v: View, item: PremiumItem, now: int)
    requires !v.processing && PremiumKey !in v.store && Embargo <= now
    ensures RevokeAndReload(MockCheckout(v, item, now, NoFault).after) == MountView(v.store)
    ensures !MountView(v.store).unlocked
  {
    RemoveUndoesSet(v.store, PremiumKey, UnlockSentinel);
  }

  /** The premium view mounted in a browser: the storage it shares with the page, and its two
      state variables. Each method is one event handler run to completion. */
  class Gate {
    var store: Store
    var unlocked: bool
    var processing: bool

    function State(): View
      reads this
    {
      View(store, unlocked, processing)
    }

    ghost predicate Valid()
      reads this
    {
      Consistent(State()) && !processing
    }

    /** Mounting the view over the given storage. */
    constructor (initial: Store)
      ensures State() == MountView(initial)
      ensures unlocked <==> PremiumKey in initial && initial[PremiumKey] == UnlockSentinel
      ensures Valid()
    {
      store := initial;
      unlocked := false;
      processing := false;
      new;
      Reload();
    }

    /** A page reload: the view's state is thrown away and initialised again from the storage. */
    method Reload()
      modifies this
      ensures State() == MountView(old(store))
      ensures Valid()
    {
      unlocked := GetItem(store, PremiumKey) == Some(UnlockSentinel);
      processing := false;
    }

    /** The Unlock button's handler. The button is disabled while a checkout is processing, so a
        second attempt cannot start while one is in flight. */
    method Checkout(item: PremiumItem, now: int, fault: Fault) returns (notice: Notice)
      requires !processing
      modifies this
      ensures CheckoutResult(State(), notice) == MockCheckout(old(State()), item, now, fault)
      ensures !processing
      ensures now < Embargo ==> store == old(store) && unlocked == old(unlocked)
      ensures Embargo <= now && fault == NoFault ==> StoredUnlocked(store) && unlocked
      ensures old(unlocked) ==> unlocked
      ensures old(Valid()) ==> Valid()
    {
      processing := true;
      if now < Embargo {
        notice := if fault == NoticeFault then FailureNotice else EmbargoNotice;
      } else if fault == WriteFault {
        notice := FailureNotice;
      } else {
        store := SetItem(store, PremiumKey, UnlockSentinel);
        unlocked := true;
        notice := if fault == NoticeFault then FailureNotice else UnlockedNotice(item.title);
      }
      processing := false;
    }

    /** The "Revoke access" handler: remove the key, then reload the page. */
    method Revoke()
      modifies this
      ensures State() == RevokeAndReload(old(State()))
      ensures !unlocked && PremiumKey !in store
      ensures Valid()
    {
      store := RemoveItem(store, PremiumKey);
      Reload();
    }
  }

  /** A fresh browser, a refused attempt before the release instant, a granted one after it, and
      a revoke: the storage and the view agree at every step. */
  method PurchaseAndRevoke(item: PremiumItem)
  {
    var gate := new Gate(map[]);
    assert !gate.unlocked;
    var notice := gate.Checkout(item, 1755759600000, NoFault);
    assert notice == EmbargoNotice && !gate.unlocked && gate.store == map[];
    notice := gate.Checkout(item, 1755810000000, NoFault);
    assert notice == UnlockedNotice(item.title) && gate.unlocked && gate.store[PremiumKey] == UnlockSentinel;
    gate.Revoke();
    assert !gate.unlocked && gate.store == map[];
  }
}
