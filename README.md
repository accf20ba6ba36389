# Premium entitlement gate of the JombyGifted artist site

The site's premium view keeps one persisted fact in browser storage: the key `jg_premium`. When
the view mounts, it shows the member content exactly when that key holds the string `"1"`. The
Unlock button runs a mock checkout:

- It marks the view as processing.
- It waits (900 ms in the source).
- It refuses before one fixed release instant and shows a message.
- Otherwise it writes `"1"` under the key and switches the view to unlocked.
- Any exception is caught and reported.
- The processing mark is cleared in every case.

The Unlock button is disabled while processing. "Revoke access" removes the key and reloads the
page, which mounts the view again from storage.

The model has three modules:

- `LocalStorage` (`local_storage.dfy`): the browser storage as a `map<string, string>`.
  `getItem`, `setItem` and `removeItem` are specified by what `getItem` observes afterwards.
- `PremiumGate` (`premium_gate.dfy`):
  - the constants: the key, the sentinel `"1"`, and the release instant as an integer count
    of milliseconds;
  - the catalog item, the fault points and the messages shown;
  - `View`, a snapshot of the storage and of the view's `unlocked` and `processing` state;
  - pure functions for mounting, the checkout and revoke-then-reload;
  - the class `Gate`: the mounted view, with one method per event handler. Each method is proved
    equal to its function.
- `PremiumSession` (`session.dfy`): any sequence of user actions (unlock attempts, revokes,
  reloads). The lemmas are proved by induction over the sequence. Over a whole session:
  - nothing is left processing;
  - the view always agrees with the storage;
  - the entitlement at the end matches an independent definition: held from the start and never
    revoked, or granted after the last revoke;
  - an embargoed session changes nothing;
  - only a revoke removes the entitlement;
  - no other storage key is touched;
  - the items named in the attempts make no difference.

The checkout's current time is a parameter `now`. A thrown exception is a parameter `fault`, one
of:

- `NoFault`;
- `WriteFault`: the storage write throws, so nothing changes;
- `NoticeFault`: the message box at the end of the branch throws. After a successful write this
  leaves the view unlocked although the user sees the failure message.

Three facts about the source shape the model:

- There is one release instant for the whole catalog (App.tsx:334). `PremiumItem` has no release
  field (App.tsx:32-39).
- The view's only state is the two booleans `unlocked` and `processing` (App.tsx:326-327).
- Nothing inside the checkout stops a second attempt. Only the disabled Unlock button does
  (App.tsx:380), modelled as the precondition `!processing` on the checkout.

Revoke removes the key and reloads the page (App.tsx:420-423), modelled as mounting the view
afresh.

## Model

| member | source | states |
|---|---|---|
| `LocalStorage.SetItem` | App.tsx:338 | after the write, reading the key gives the written value, every other key reads as before, and the key set gains the key |
| `LocalStorage.RemoveItem` | App.tsx:421 | after the removal, reading the key gives null, every other key reads as before, and removing an absent key changes nothing |
| `PremiumGate.StoredUnlocked` | App.tsx:326 | the stored entitlement holds if and only if the key is present and its value is exactly `"1"` |
| `PremiumGate.MountView` | App.tsx:326-327 | the mounted view shows unlocked if and only if the key is present with value `"1"` (absent key or any other value: locked), starts not processing, and agrees with the storage |
| `PremiumGate.MockCheckout` | App.tsx:329-347 | processing is false when the checkout finishes on every path. Before the release instant, or when the storage write throws, storage and view are unchanged. At or after the instant without a write fault, the key holds `"1"` and the view is unlocked. It never unlocks-to-locked, never removes the key, and touches no other key. Agreement between view and storage is preserved. The success message is shown exactly when at or after the instant with no fault. The refusal message is shown exactly when before the instant and its message box does not throw. The generic failure message of the `catch` block is shown exactly when a message box throws, or the storage write throws at or after the instant |
| `PremiumGate.RevokeAndReload` | App.tsx:420-423 | from any prior state, the key is gone and no other key changes; the remounted view is locked, not processing, and agrees with the storage |
| `PremiumGate.CheckoutIgnoresItem` | App.tsx:329-340 | two checkouts differing only in the item leave the same storage and view, and the same message up to the item title |
| `PremiumGate.ReloadReproducesView` | App.tsx:326 | reloading a view that agrees with the storage and is not processing gives back exactly that view |
| `PremiumGate.CheckoutGrantIdempotent` | App.tsx:338-339 | a second successful checkout after a successful one changes nothing |
| `PremiumGate.RevokeIdempotent` | App.tsx:421-422 | revoking twice is the same as revoking once |
| `PremiumGate.GrantThenRevokeRoundTrip` | App.tsx:421-422 | starting from storage without the key, a successful checkout followed by revoke gives back the original storage and the locked view |
| `PremiumGate.Gate.constructor` | App.tsx:326-327 | the mounted view equals `MountView` of the storage: unlocked if and only if the key holds `"1"`, not processing |
| `PremiumGate.Gate.Reload` | App.tsx:422 | a reload re-initialises the view from the current storage and leaves it consistent and not processing |
| `PremiumGate.Gate.Checkout` | App.tsx:329-347 | requires the Unlock button to be enabled (not processing, line 380). The new state and the message equal `MockCheckout` of the old state. Processing ends false. Before the instant, storage and `unlocked` are unchanged. At or after it with no fault, the key holds `"1"` and the view is unlocked. An unlocked view stays unlocked. Agreement with the storage is preserved |
| `PremiumGate.Gate.Revoke` | App.tsx:420-423 | the new state equals `RevokeAndReload` of the old one: the key is absent and the view is locked and consistent |
| `PremiumSession.Step` | App.tsx:379-381 | any single user action (unlock attempt, revoke, reload) ends not processing and preserves agreement between the view and the storage |
| `PremiumSession.Run` | App.tsx:344-346 | after any session, nothing is left processing, and a view that agreed with the storage still does |
| `PremiumSession.RunEntitlement` | App.tsx:325-347 | after any session the view is unlocked, and the storage holds `"1"`, if and only if the entitlement was held at the start and never revoked, or some attempt at or after the instant wrote the key and no revoke came after |
| `PremiumSession.EntitlementFromMount` | App.tsx:326 | the same characterisation for a view mounted over arbitrary storage, whose initial entitlement is the stored flag |
| `PremiumSession.EmbargoedSessionChangesNothing` | App.tsx:334-337 | a session of unlock attempts before the instant and reloads leaves storage and view exactly as they were |
| `PremiumSession.OnlyRevokeRemovesEntitlement` | App.tsx:329-347 | with no revoke in a session, a stored entitlement is still stored at the end |
| `PremiumSession.OtherKeysUntouched` | App.tsx:338 | no session changes any storage key other than `jg_premium` |
| `PremiumSession.ItemsDoNotMatter` | App.tsx:340 | two sessions that differ only in which items the unlock attempts name end in the same storage and view |

## Left out

- Rendering: the home, music, videos and profile views, the tab buttons, sections and badges, and
  the embeds and notes of the premium view. They are markup with no state.
- The artist, video and catalog configuration constants. Item prices are floating-point numbers
  formatted through `Intl.NumberFormat`, so `PremiumItem` has no price field.
- The 900 ms wait and the async plumbing. A checkout is one atomic step from pressing Unlock to
  the `finally` block. The interleaving of other events during the wait is not modelled.
- Message boxes, console logging and the page reload as I/O. The message a checkout leaves
  the user with is returned as a `Notice`, and a reload is modelled as mounting the view afresh.
- Reading the clock: the current instant is the parameter `now`.
- Parsing the release instant. The source parses a date-time text without an offset, which is
  local time, so the real instant depends on the host's time zone. The model fixes the instant
  named in the refusal message, 18:17 East Africa Time on 21 August 2025, as 1755789420000 ms.
- A throwing `getItem` at mount (storage disabled): the view would fail to mount, which the
  source does not handle.
- Other browser tabs writing the same storage key while the view is mounted.
- Which buttons are visible: Unlock buttons are rendered only while locked, and "Revoke access"
  only while unlocked. The handlers do not depend on this, so the model lets every action happen
  in every state at rest.
