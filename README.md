# Household store of the Vesta budgeting app

This project models the data store inside the app's root component (`App.tsx`).
The store holds the signed-in user and five record collections: transactions,
bills, visions (savings goals), desires (wishlist items) and challenges. It
mirrors all six cells to local storage and restores them at start-up. Every
screen sees only the records of the signed-in user's household (its `familyId`).
The handlers append stamped records or update records by id.

Modules, leaves first:

- `Records` (`records.dfy`): one datatype per record kind and per draft a screen hands in.
  A draft is a record without the fields the store stamps.
- `RecordCollection` (`collection.dfy`): `UpdateWhere`, the `prev.map(x => x.id === id ? change(x) : x)` pattern all by-id handlers share.
- `ScopeProjector` (`scope.dfy`): `FamilyView`, the `filter(x => x.familyId === currentUser?.familyId)` behind the five family views.
- `MutationGateway` (`gateway.dfy`): each handler's update of its collection, as a pure function of the previous array.
- `PersistencePort` (`persistence.dfy`): local storage as a `map<string, Stored>`, the six keys, start-up restore, and the two write effects.
- `HouseholdStore` (`store.dfy`): the class `Store`. Its fields are the six state cells plus the storage map. It has one method per handler. Its invariant `Valid()` says that reloading the storage gives back exactly the state in memory. `Start` restores a store and runs both effects, as mounting the app does.

Storage uses identity serialization: the value written is the value read back.
Only two text cases are kept apart. The empty string is falsy, so `saved ? … : null` and `|| '[]'` treat it as absent.
Text that `JSON.parse` rejects makes start-up throw.
Record ids are passed in as parameters because the app draws them from `Math.random`.

Behaviour of the code worth noting:

- A new bill keeps the caller's `isPaid` flag (App.tsx:164).
- Stored text that cannot be parsed makes start-up throw (App.tsx:18, 25-29). `Start` returns `Err` in that case; there is no fallback to empty collections.
- By-id updates match on `id` alone, across all households (App.tsx:86, 164, 170, 172).

## Model choices

- Refusal without a user in `AddBill`, `AddVision` and `AddDesire`: this is the model's choice, for a case the source never reaches. Only `addTransaction` checks that someone is signed in (App.tsx:74). The bill, vision and desire add handlers read `currentUser.familyId` with no check (App.tsx:164, 169, 171). They are unreachable with nobody signed in, because then the component renders only the login screen (App.tsx:95-97). The model gives these three handlers a branch the source does not have: with nobody signed in they change nothing, as `addTransaction` does.

## Model

| member | source | states |
|---|---|---|
| `RecordCollection.UpdateWhere` | App.tsx:164-172 | same length; records that match are replaced by their changed version; every other record stays at its position unchanged |
| `RecordCollection.UpdateWhereTwice` | App.tsx:164 | an update that keeps the match and undoes itself gives back the original collection when applied twice |
| `ScopeProjector.ScopeOf` | App.tsx:46-50 | the household to filter on: the signed-in user's familyId, or none (`currentUser?.familyId`); its use is stated by `FamilyView` |
| `ScopeProjector.InScope` | App.tsx:46-50 | the test `x.familyId === currentUser?.familyId` on typed records; its use is stated by `FamilyView` |
| `ScopeProjector.FamilyView` | App.tsx:46-50 | a record is in the view iff it is in the collection and its familyId is the signed-in user's; nobody signed in gives an empty view |
| `ScopeProjector.FamilyViewIsSubsequence` | App.tsx:46-50 | the view keeps the collection's order (it is a subsequence) |
| `ScopeProjector.InScopeSubsequenceBound` | App.tsx:46-50 | no order-keeping selection of in-household records is longer than the view |
| `ScopeProjector.FamilyViewUnique` | App.tsx:46-50 | any order-keeping selection of in-household records that is as long as the view is the view, so the view has every matching record exactly as often as the collection |
| `ScopeProjector.FamilyViewOfAppend` | App.tsx:46-50 | appending a record extends the view of its own household by that record at the end, and leaves every other household's view unchanged |
| `ScopeProjector.FamilyViewOfUpdate` | App.tsx:46-50 | an update that keeps familyIds commutes with scoping: view of the updated collection = updated view |
| `MutationGateway.Min` | App.tsx:86 | `Math.min`: the result is at most both arguments and equals one of them |
| `MutationGateway.AppendTransaction` | App.tsx:75-81 | the `addTransaction` update; contract in `AppendTransactionStamps` and `Store.AddTransaction` |
| `MutationGateway.AppendBill` | App.tsx:164 | the bill `onAdd` update; contract in `AppendBillStamps` and `Store.AddBill` |
| `MutationGateway.AppendVision` | App.tsx:169 | the `onAddVision` update; contract in `AppendVisionStamps` and `Store.AddVision` |
| `MutationGateway.AppendDesire` | App.tsx:171 | the `onAddDesire` update; contract in `AppendDesireStamps`, `VotesStayPositive` and `Store.AddDesire` |
| `MutationGateway.ToggleBill` | App.tsx:164 | the bill `onToggle` update; contract in `ToggleBillFlips`, `ToggleBillTwice`, `UpdatesKeepIdentity` |
| `MutationGateway.Deposit` | App.tsx:170 | the `onUpdateVision` update; contract in `DepositAdds`, `DepositHasNoCeiling`, `UpdatesKeepIdentity` |
| `MutationGateway.Vote` | App.tsx:172 | the `onVoteDesire` update; contract in `VoteAddsOne`, `VotesStayPositive`, `UpdatesKeepIdentity` |
| `MutationGateway.Contribute` | App.tsx:86 | the `handleUpdateChallenge` update; contract in `ContributeClamps`, `ContributeKeepsRange`, `ContributeClampScenario`, `UpdatesKeepIdentity` |
| `MutationGateway.AppendTransactionStamps` | App.tsx:73-83 | one more transaction; the earlier ones are untouched; the new last one has the given id, the user's id, name and familyId, and the draft's other fields unchanged |
| `MutationGateway.AppendBillStamps` | App.tsx:164 | one more bill at the end with the given id and the user's familyId, the draft's fields (including `isPaid`) unchanged; earlier bills untouched |
| `MutationGateway.AppendVisionStamps` | App.tsx:169 | one more vision at the end with the given id and the user's familyId, the draft's fields unchanged; earlier visions untouched |
| `MutationGateway.AppendDesireStamps` | App.tsx:171 | one more desire at the end with the given id, the user's familyId, `votes == 1` and `suggestedBy` the user's name; earlier desires untouched |
| `MutationGateway.ToggleBillFlips` | App.tsx:164 | bills with the id have `isPaid` negated and nothing else changed; other bills stay; length and order kept |
| `MutationGateway.ToggleBillTwice` | App.tsx:164 | toggling the same id twice restores the original bills |
| `MutationGateway.DepositAdds` | App.tsx:170 | visions with the id get `currentAmount + amt`; others unchanged; length and order kept |
| `MutationGateway.DepositHasNoCeiling` | App.tsx:170 | a deposit can carry a vision past its target (100 target, 90 saved, deposit 50 gives 140) |
| `MutationGateway.VoteAddsOne` | App.tsx:172 | desires with the id get exactly one more vote; others unchanged; length and order kept |
| `MutationGateway.VotesStayPositive` | App.tsx:171-172 | if every desire has at least one vote, that still holds after a vote and after adding a desire |
| `MutationGateway.ContributeClamps` | App.tsx:85-88 | challenges with the id get `min(target, current + amount)`, never more than the target; others unchanged; length and order kept |
| `MutationGateway.ContributeKeepsRange` | App.tsx:86 | with a non-negative amount, progress stays within `[0, target]` and never decreases |
| `MutationGateway.ContributeClampScenario` | App.tsx:86 | target 100, current 90, contribution 50 gives 100, not 140 |
| `MutationGateway.UpdatesKeepIdentity` | App.tsx:164-172 | toggle, deposit, vote and contribution never change a record's id or familyId |
| `PersistencePort.ReadCurrentUser` | App.tsx:17-18 | restore of the session key; contract in `ReadCurrentUserDefault`, `SessionRoundTrip` |
| `PersistencePort.ReadList` | App.tsx:25-29 | restore of one collection key; contract in `ReadListDefault`, `RestoreDefaultsPerKey` |
| `PersistencePort.Restore` | App.tsx:16-29 | start-up restore of all six cells; contract in `RestoreDefaultsPerKey`, `FreshStartIsEmpty`, `UnparseableStopsStartup`, `RestoreAfterSync` |
| `PersistencePort.WriteSession` | App.tsx:40-43 | the session effect; contract in `SessionRoundTrip`, `RestoreAfterSessionWrite` |
| `PersistencePort.WriteCollections` | App.tsx:32-38 | the collections effect; contract in `WriteCollectionsStoresAll`, `RestoreAfterCollectionsWrite` |
| `PersistencePort.SessionRoundTrip` | App.tsx:40-43 | a signed-in user is stored under `vesta_current_user`; signing out removes the key; reading back gives the user or nobody; no other key changes |
| `PersistencePort.WriteCollectionsStoresAll` | App.tsx:32-38 | each of the five collections is stored under its key; the session key and every other key are unchanged |
| `PersistencePort.RestoreAfterCollectionsWrite` | App.tsx:25-38 | after the collections effect, restoring gives back the written collections and the session as it was stored |
| `PersistencePort.RestoreAfterSessionWrite` | App.tsx:16-43 | after the session effect (App.tsx:40-43), restoring (App.tsx:16-29) gives back the new session and the collections as they were stored |
| `PersistencePort.RestoreAfterSync` | App.tsx:16-43 | after both effects, restoring gives back exactly what was written, whatever the storage held before |
| `PersistencePort.ReadCurrentUserDefault` | App.tsx:17-18 | a missing session key, or an empty string under it, reads as nobody signed in |
| `PersistencePort.ReadListDefault` | App.tsx:25-29 | a missing collection key, or an empty string under it, reads as an empty collection |
| `PersistencePort.RestoreDefaultsPerKey` | App.tsx:16-29 | each key defaults on its own: in a successful restore, any missing or empty key gives nobody signed in or an empty collection, whatever the other keys hold |
| `PersistencePort.FreshStartIsEmpty` | App.tsx:16-29 | with none of the six keys present, nobody is signed in and every collection is empty |
| `PersistencePort.UnparseableStopsStartup` | App.tsx:16-29 | stored text that cannot be parsed under any of the six keys makes start-up fail |
| `HouseholdStore.Store.constructor` | App.tsx:16-29 | the six state cells are what restore reads from storage |
| `HouseholdStore.Store.FamilyTransactions` | App.tsx:46 | the transactions of the signed-in user's household, none without a user |
| `HouseholdStore.Store.FamilyBills` | App.tsx:47 | the bills of the signed-in user's household, none without a user |
| `HouseholdStore.Store.FamilyVisions` | App.tsx:48 | the visions of the signed-in user's household, none without a user |
| `HouseholdStore.Store.FamilyDesires` | App.tsx:49 | the desires of the signed-in user's household, none without a user |
| `HouseholdStore.Store.FamilyChallenges` | App.tsx:50 | the challenges of the signed-in user's household, none without a user |
| `HouseholdStore.Store.SyncCollections` | App.tsx:32-38 | the five collection keys are written one after the other; state unchanged |
| `HouseholdStore.Store.SyncSession` | App.tsx:40-43 | the session key is written, or removed when nobody is signed in; state unchanged |
| `HouseholdStore.Store.CommitCollections` | App.tsx:32-38 | the collections effect run after a change to one collection makes storage mirror the state again |
| `HouseholdStore.Store.SetCurrentUser` | App.tsx:96 | the user becomes current, is stored under the session key, and nothing else changes |
| `HouseholdStore.Store.Logout` | App.tsx:90-93 | nobody is current, the session key is gone, every family view is empty, and the collections are unchanged |
| `HouseholdStore.Store.AddTransaction` | App.tsx:73-83 | with nobody signed in, state and storage are unchanged; otherwise the stamped transaction is appended, all five collections are written, and it is the last record of the user's view |
| `HouseholdStore.Store.AddBill` | App.tsx:164 | the stamped bill is appended and written, and it appears at the end of the user's view |
| `HouseholdStore.Store.AddVision` | App.tsx:169 | the stamped vision is appended and written, and it appears at the end of the user's view |
| `HouseholdStore.Store.AddDesire` | App.tsx:171 | the stamped desire (one vote, suggested by the user) is appended and written, and it appears at the end of the user's view |
| `HouseholdStore.Store.ToggleBillPaid` | App.tsx:164 | bills become `ToggleBill(bills, id)`, storage is rewritten, and the user's bill view is toggled the same way |
| `HouseholdStore.Store.DepositToVision` | App.tsx:170 | visions become `Deposit(visions, id, amt)`, storage is rewritten, and the user's vision view changes the same way |
| `HouseholdStore.Store.VoteDesire` | App.tsx:172 | desires become `Vote(desires, id)`, storage is rewritten, and the user's desire view changes the same way |
| `HouseholdStore.Store.UpdateChallenge` | App.tsx:85-88 | challenges become `Contribute(challenges, id, amount)`, storage is rewritten, and the user's challenge view changes the same way |
| `HouseholdStore.Start` | App.tsx:16-43 | start-up fails exactly when restore fails; otherwise the restored store mirrors its storage after both effects have run |
| `HouseholdStore.LogoutThenReload` | App.tsx:90-93 | logging out removes the session key (App.tsx:40-43), so reloading restores nobody (App.tsx:16-19) and every view of the reloaded store is empty |

## Left out

- Rendering: the JSX, the navigation tabs, `activeTab` and `lumiMood`. They are presentation only.
- `triggerCelebration`: it works on the DOM, with `Math.random` and `setTimeout`. The handlers that call it are modelled without that call.
- Id generation: ids come from `Math.random().toString(...)`, so they are parameters here. Nothing in the code makes them unique, and no uniqueness is proved.
- JSON text: values are stored and read back as-is. Text such as `"null"` under a key is not modelled, because the store never writes it.
- Wrong-shaped stored values: the model makes start-up fail (`ShapeError`). The code would mostly go on with an ill-typed value, which the model cannot represent. A record without `familyId` is another example: with nobody signed in, the code compares against `undefined`, so such a record would pass the family filter; in the model every record has a familyId, which is why nobody signed in gives an empty view. One exception: an empty list stored under another collection's key is the JSON text `[]`, which the code reads as a valid empty collection, while the model's typed values reject it. The store itself never writes such a value.
- Failed writes: a `localStorage.setItem` that throws (for example, storage full) is not modelled. Every write succeeds.
- Effect scheduling: React runs effects after rendering. The model runs each effect synchronously right after the handler that changes its state. The collections effect rewrites the same values when nothing changed, so this timing does not change what ends up in storage.
- Multiple tabs sharing one storage: not modelled. The model is single-threaded.
- The `./types` module and the child screens are not part of this model. The drafts hold only representative fields that the store passes through.
- Amounts are integers. The floating-point arithmetic of `number` is not modelled.
