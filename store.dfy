/**
 * The household store held by the app component: the session cell, the five
 * collection cells, and the storage they are mirrored to. Every handler
 * replaces one cell and then runs the effect that writes that cell's keys.
 */
module HouseholdStore {
  import opened Records
  import opened RecordCollection
  import opened ScopeProjector
  import opened MutationGateway
  import opened PersistencePort

  class Store {
    var currentUser: Option<User>
    var transactions: seq<Transaction>
    var bills: seq<Bill>
    var visions: seq<Vision>
    var desires: seq<Desire>
    var challenges: seq<Challenge>
    var storage: Storage

    /** The six state cells as one value. */
    function Snap(): (s: Snapshot)
      reads this
    {
      Snapshot(currentUser, transactions, bills, visions, desires, challenges)
    }

    /** Storage mirrors the state: reloading now would give back exactly the state in memory. */
    ghost predicate Valid()
      reads this
    {
      Restore(storage) == Ok(Snap())
    }

    /** Start-up state: the cells restored from `st`, before any effect has run. */
    constructor (st: Storage)
      requires Restore(st).Ok?
      ensures Snap() == Restore(st).value && storage == st
      ensures Valid()
    {
      var s := Restore(st).value;
      currentUser := s.currentUser;
      transactions := s.transactions;
      bills := s.bills;
      visions := s.visions;
      desires := s.desires;
      challenges := s.challenges;
      storage := st;
    }

    // ---- Family-scoped views ----

    function FamilyTransactions(): (r: seq<Transaction>)
      reads this
      ensures forall t :: t in r <==> t in transactions && currentUser.Some? && t.familyId == currentUser.value.familyId
    {
      FamilyView(transactions, (t: Transaction) => t.familyId, ScopeOf(currentUser))
    }

    function FamilyBills(): (r: seq<Bill>)
      reads this
      ensures forall b :: b in r <==> b in bills && currentUser.Some? && b.familyId == currentUser.value.familyId
    {
      FamilyView(bills, (b: Bill) => b.familyId, ScopeOf(currentUser))
    }

    function FamilyVisions(): (r: seq<Vision>)
      reads this
      ensures forall v :: v in r <==> v in visions && currentUser.Some? && v.familyId == currentUser.value.familyId
    {
      FamilyView(visions, (v: Vision) => v.familyId, ScopeOf(currentUser))
    }

    function FamilyDesires(): (r: seq<Desire>)
      reads this
      ensures forall d :: d in r <==> d in desires && currentUser.Some? && d.familyId == currentUser.value.familyId
    {
      FamilyView(desires, (d: Desire) => d.familyId, ScopeOf(currentUser))
    }

    function FamilyChallenges(): (r: seq<Challenge>)
      reads this
      ensures forall c :: c in r <==> c in challenges && currentUser.Some? && c.familyId == currentUser.value.familyId
    {
      FamilyView(challenges, (c: Challenge) => c.familyId, ScopeOf(currentUser))
    }

    // ---- Effects ----

    /** The collections effect: each collection written under its key, one after the other. */
    method SyncCollections()
      modifies this
      ensures Snap() == old(Snap())
      ensures storage == WriteCollections(old(storage), Snap())
    {
      storage := storage[TransactionsKey := TransactionsJson(transactions)];
      storage := storage[BillsKey := BillsJson(bills)];
      storage := storage[VisionsKey := VisionsJson(visions)];
      storage := storage[DesiresKey := DesiresJson(desires)];
      storage := storage[ChallengesKey := ChallengesJson(challenges)];
    }

    /** The session effect: the user written under the session key, or the key removed. */
    method SyncSession()
      modifies this
      ensures Snap() == old(Snap())
      ensures storage == WriteSession(old(storage), currentUser)
    {
      if currentUser.Some? {
        storage := storage[CurrentUserKey := UserJson(currentUser.value)];
      } else {
        storage := storage - {CurrentUserKey};
      }
    }

    /** Runs the collections effect after a change to one collection and re-establishes the mirror. */
    method CommitCollections()
      requires ReadCurrentUser(storage) == Ok(currentUser)
      modifies this
      ensures Valid()
      ensures Snap() == old(Snap())
      ensures storage == WriteCollections(old(storage), Snap())
    {
      SyncCollections();
      RestoreAfterCollectionsWrite(old(storage), Snap());
    }

    // ---- Session ----

    /** `setCurrentUser(user)`, from the login screen or from a profile update. */
    method SetCurrentUser(u: User)
      requires Valid()
      modifies this
      ensures Valid()
      ensures Snap() == old(Snap()).(currentUser := Some(u))
      ensures storage == WriteSession(old(storage), Some(u))
    {
      currentUser := Some(u);
      SyncSession();
      RestoreAfterSessionWrite(old(storage), old(Snap()), Some(u));
    }

    /** `handleLogout`: nobody is signed in, the session key is gone and every view is empty. */
    method Logout()
      requires Valid()
      modifies this
      ensures Valid()
      ensures Snap() == old(Snap()).(currentUser := None)
      ensures storage == WriteSession(old(storage), None) && CurrentUserKey !in storage
      ensures FamilyTransactions() == [] && FamilyBills() == [] && FamilyVisions() == []
      ensures FamilyDesires() == [] && FamilyChallenges() == []
    {
      currentUser := None;
      SyncSession();
      RestoreAfterSessionWrite(old(storage), old(Snap()), None);
    }

    // ---- Mutation handlers ----

    /** `addTransaction`: refused with nobody signed in; otherwise the stamped record lands at the end of the user's view. */
    method AddTransaction(d: TransactionDraft, id: string)
      requires Valid()
      modifies this
      ensures Valid()
      ensures old(currentUser).None? ==> Snap() == old(Snap()) && storage == old(storage)
      ensures old(currentUser).Some? ==>
        Snap() == old(Snap()).(transactions := AppendTransaction(old(transactions), d, id, old(currentUser).value)) &&
        storage == WriteCollections(old(storage), Snap()) &&
        FamilyTransactions() == old(FamilyTransactions()) + [transactions[|transactions| - 1]]
    {
      if currentUser.Some? {
        var next := AppendTransaction(transactions, d, id, currentUser.value);
        FamilyViewOfAppend(transactions, next[|transactions|], (t: Transaction) => t.familyId, ScopeOf(currentUser));
        transactions := next;
        CommitCollections();
      }
    }

    /** The bills screen's `onAdd`; refused with nobody signed in. */
    method AddBill(d: BillDraft, id: string)
      requires Valid()
      modifies this
      ensures Valid()
      ensures old(currentUser).None? ==> Snap() == old(Snap()) && storage == old(storage)
      ensures old(currentUser).Some? ==>
        Snap() == old(Snap()).(bills := AppendBill(old(bills), d, id, old(currentUser).value)) &&
        storage == WriteCollections(old(storage), Snap()) &&
        FamilyBills() == old(FamilyBills()) + [bills[|bills| - 1]]
    {
      if currentUser.Some? {
        var next := AppendBill(bills, d, id, currentUser.value);
        FamilyViewOfAppend(bills, next[|bills|], (b: Bill) => b.familyId, ScopeOf(currentUser));
        bills := next;
        CommitCollections();
      }
    }

    /** The aspirations screen's `onAddVision`; refused with nobody signed in. */
    method AddVision(d: VisionDraft, id: string)
      requires Valid()
      modifies this
      ensures Valid()
      ensures old(currentUser).None? ==> Snap() == old(Snap()) && storage == old(storage)
      ensures old(currentUser).Some? ==>
        Snap() == old(Snap()).(visions := AppendVision(old(visions), d, id, old(currentUser).value)) &&
        storage == WriteCollections(old(storage), Snap()) &&
        FamilyVisions() == old(FamilyVisions()) + [visions[|visions| - 1]]
    {
      if currentUser.Some? {
        var next := AppendVision(visions, d, id, currentUser.value);
        FamilyViewOfAppend(visions, next[|visions|], (v: Vision) => v.familyId, ScopeOf(currentUser));
        visions := next;
        CommitCollections();
      }
    }

    /** The aspirations screen's `onAddDesire`; refused with nobody signed in. */
    method AddDesire(d: DesireDraft, id: string)
      requires Valid()
      modifies this
      ensures Valid()
      ensures old(currentUser).None? ==> Snap() == old(Snap()) && storage == old(storage)
      ensures old(currentUser).Some? ==>
        Snap() == old(Snap()).(desires := AppendDesire(old(desires), d, id, old(currentUser).value)) &&
        storage == WriteCollections(old(storage), Snap()) &&
        FamilyDesires() == old(FamilyDesires()) + [desires[|desires| - 1]]
    {
      if currentUser.Some? {
        var next := AppendDesire(desires, d, id, currentUser.value);
        FamilyViewOfAppend(desires, next[|desires|], (d: Desire) => d.familyId, ScopeOf(currentUser));
        desires := next;
        CommitCollections();
      }
    }

    /** The bills screen's `onToggle`. */
    method ToggleBillPaid(id: string)
      requires Valid()
      modifies this
      ensures Valid()
      ensures Snap() == old(Snap()).(bills := ToggleBill(old(bills), id))
      ensures storage == WriteCollections(old(storage), Snap())
      ensures FamilyBills() == ToggleBill(old(FamilyBills()), id)
    {
      FamilyViewOfUpdate(bills, (b: Bill) => b.familyId, ScopeOf(currentUser),
                         (b: Bill) => b.id == id, (b: Bill) => b.(isPaid := !b.isPaid));
      bills := ToggleBill(bills, id);
      CommitCollections();
    }

    /** The aspirations screen's `onUpdateVision`. */
    method DepositToVision(id: string, amt: int)
      requires Valid()
      modifies this
      ensures Valid()
      ensures Snap() == old(Snap()).(visions := Deposit(old(visions), id, amt))
      ensures storage == WriteCollections(old(storage), Snap())
      ensures FamilyVisions() == Deposit(old(FamilyVisions()), id, amt)
    {
      FamilyViewOfUpdate(visions, (v: Vision) => v.familyId, ScopeOf(currentUser),
                         (v: Vision) => v.id == id, (v: Vision) => v.(currentAmount := v.currentAmount + amt));
      visions := Deposit(visions, id, amt);
      CommitCollections();
    }

    /** The aspirations screen's `onVoteDesire`. */
    method VoteDesire(id: string)
      requires Valid()
      modifies this
      ensures Valid()
      ensures Snap() == old(Snap()).(desires := Vote(old(desires), id))
      ensures storage == WriteCollections(old(storage), Snap())
      ensures FamilyDesires() == Vote(old(FamilyDesires()), id)
    {
      FamilyViewOfUpdate(desires, (d: Desire) => d.familyId, ScopeOf(currentUser),
                         (d: Desire) => d.id == id, (d: Desire) => d.(votes := d.votes + 1));
      desires := Vote(desires, id);
      CommitCollections();
    }

    /** `handleUpdateChallenge`. */
    method UpdateChallenge(id: string, amount: int)
      requires Valid()
      modifies this
      ensures Valid()
      ensures Snap() == old(Snap()).(challenges := Contribute(old(challenges), id, amount))
      ensures storage == WriteCollections(old(storage), Snap())
      ensures FamilyChallenges() == Contribute(old(FamilyChallenges()), id, amount)
    {
      FamilyViewOfUpdate(challenges, (c: Challenge) => c.familyId, ScopeOf(currentUser),
                         (c: Challenge) => c.id == id,
                         (c: Challenge) => c.(current := Min(c.target, c.current + amount)));
      challenges := Contribute(challenges, id, amount);
      CommitCollections();
    }
  }

  /**
   * Mounting the app: restore the six cells (start-up fails when a stored
   * value cannot be read), then run the collections effect and the session effect.
   */
  method Start(st: Storage) returns (r: Result<Store>)
    ensures r.Err? <==> Restore(st).Err?
    ensures r.Err? ==> r.error == Restore(st).error
    ensures r.Ok? ==> fresh(r.value) && r.value.Valid() && r.value.Snap() == Restore(st).value
    ensures r.Ok? ==> r.value.storage == WriteSession(WriteCollections(st, r.value.Snap()), r.value.currentUser)
  {
    var restored := Restore(st);
    if restored.Err? {
      r := Err(restored.error);
    } else {
      var store := new Store(st);
      store.SyncCollections();
      store.SyncSession();
      RestoreAfterSync(st, store.Snap());
      r := Ok(store);
    }
  }

  /** Logging out and reloading restores nobody, so every view of the reloaded store is empty. */
  method LogoutThenReload(s: Store) returns (reloaded: Store)
    requires s.Valid()
    modifies s
    ensures reloaded.currentUser.None?
    ensures reloaded.FamilyTransactions() == [] && reloaded.FamilyBills() == [] && reloaded.FamilyVisions() == []
    ensures reloaded.FamilyDesires() == [] && reloaded.FamilyChallenges() == []
  {
    s.Logout();
    var r := Start(s.storage);
    reloaded := r.value;
  }
}
