/**
 * Local storage as a key/value map. Values are stored with the identity
 * encoding: what `JSON.stringify` wrote is read back unchanged, so only the
 * text cases that matter to the store are kept apart (the empty string, which
 * is falsy, and text `JSON.parse` rejects).
 */
module PersistencePort {
  import opened Records

  datatype Stored =
    | EmptyText
    | Unparseable
    | UserJson(user: User)
    | TransactionsJson(transactions: seq<Transaction>)
    | BillsJson(bills: seq<Bill>)
    | VisionsJson(visions: seq<Vision>)
    | DesiresJson(desires: seq<Desire>)
    | ChallengesJson(challenges: seq<Challenge>)

  type Storage = map<string, Stored>

  const CurrentUserKey: string := "vesta_current_user"
  const TransactionsKey: string := "vesta_transactions"
  const BillsKey: string := "vesta_bills"
  const VisionsKey: string := "vesta_visions"
  const DesiresKey: string := "vesta_desires"
  const ChallengesKey: string := "vesta_challenges"

  /** The six keys the store owns. */
  function StoreKeys(): (keys: set<string>) {
    {CurrentUserKey, TransactionsKey, BillsKey, VisionsKey, DesiresKey, ChallengesKey}
  }

  /** Why start-up cannot restore the store: `JSON.parse` throws, or the value has another entity's shape. */
  datatype StorageError = ParseError(key: string) | ShapeError(key: string)

  datatype Result<T> = Ok(value: T) | Err(error: StorageError) {
    predicate IsFailure() { Err? }
    function PropagateFailure<U>(): Result<U> requires Err? { Err(error) }
    function Extract(): T requires Ok? { value }
  }

  /** The six state cells of the store. */
  datatype Snapshot = Snapshot(
    currentUser: Option<User>,
    transactions: seq<Transaction>,
    bills: seq<Bill>,
    visions: seq<Vision>,
    desires: seq<Desire>,
    challenges: seq<Challenge>)

  function EmptySnapshot(): (s: Snapshot) {
    Snapshot(None, [], [], [], [], [])
  }

  /** `saved ? JSON.parse(saved) : null` on the session key. */
  function ReadCurrentUser(st: Storage): (r: Result<Option<User>>) {
    if CurrentUserKey !in st then Ok(None)
    else match st[CurrentUserKey]
      case EmptyText => Ok(None)
      case Unparseable => Err(ParseError(CurrentUserKey))
      case UserJson(u) => Ok(Some(u))
      case _ => Err(ShapeError(CurrentUserKey))
  }

  /** `JSON.parse(localStorage.getItem(key) || '[]')` for one collection; `shape` picks the collection's own kind of value. */
  function ReadList<T>(st: Storage, key: string, shape: Stored -> Option<seq<T>>): (r: Result<seq<T>>) {
    if key !in st then Ok([])
    else match st[key]
      case EmptyText => Ok([])
      case Unparseable => Err(ParseError(key))
      case v => if shape(v).Some? then Ok(shape(v).value) else Err(ShapeError(key))
  }

  function AsTransactions(v: Stored): (r: Option<seq<Transaction>>) {
    if v.TransactionsJson? then Some(v.transactions) else None
  }

  function AsBills(v: Stored): (r: Option<seq<Bill>>) {
    if v.BillsJson? then Some(v.bills) else None
  }

  function AsVisions(v: Stored): (r: Option<seq<Vision>>) {
    if v.VisionsJson? then Some(v.visions) else None
  }

  function AsDesires(v: Stored): (r: Option<seq<Desire>>) {
    if v.DesiresJson? then Some(v.desires) else None
  }

  function AsChallenges(v: Stored): (r: Option<seq<Challenge>>) {
    if v.ChallengesJson? then Some(v.challenges) else None
  }

  /** Start-up: the six `useState` initialisers, in the order they run; the first that throws stops the app. */
  function Restore(st: Storage): (r: Result<Snapshot>) {
    var user :- ReadCurrentUser(st);
    var ts :- ReadList(st, TransactionsKey, AsTransactions);
    var bs :- ReadList(st, BillsKey, AsBills);
    var vs :- ReadList(st, VisionsKey, AsVisions);
    var ds :- ReadList(st, DesiresKey, AsDesires);
    var cs :- ReadList(st, ChallengesKey, AsChallenges);
    Ok(Snapshot(user, ts, bs, vs, ds, cs))
  }

  /** The session effect: store the user, or remove the key when nobody is signed in. */
  function WriteSession(st: Storage, u: Option<User>): (w: Storage) {
    if u.Some? then st[CurrentUserKey := UserJson(u.value)] else st - {CurrentUserKey}
  }

  /** The collections effect: all five collections rewritten, each under its own key. */
  function WriteCollections(st: Storage, s: Snapshot): (w: Storage) {
    st[TransactionsKey := TransactionsJson(s.transactions)]
      [BillsKey := BillsJson(s.bills)]
      [VisionsKey := VisionsJson(s.visions)]
      [DesiresKey := DesiresJson(s.desires)]
      [ChallengesKey := ChallengesJson(s.challenges)]
  }

  /** Signing in stores the user under the session key; signing out removes the key; restoring gives back either. */
  lemma SessionRoundTrip(st: Storage, u: Option<User>)
    ensures u.Some? ==> CurrentUserKey in WriteSession(st, u) && WriteSession(st, u)[CurrentUserKey] == UserJson(u.value)
    ensures u.None? ==> CurrentUserKey !in WriteSession(st, u)
    ensures ReadCurrentUser(WriteSession(st, u)) == Ok(u)
    ensures forall k :: k != CurrentUserKey ==> (k in WriteSession(st, u) <==> k in st)
    ensures forall k :: k != CurrentUserKey && k in st ==> WriteSession(st, u)[k] == st[k]
  {
  }

  /** After the collections effect every collection key holds its collection, and no other key has changed. */
  lemma WriteCollectionsStoresAll(st: Storage, s: Snapshot)
    ensures var w := WriteCollections(st, s);
      TransactionsKey in w && w[TransactionsKey] == TransactionsJson(s.transactions) &&
      BillsKey in w && w[BillsKey] == BillsJson(s.bills) &&
      VisionsKey in w && w[VisionsKey] == VisionsJson(s.visions) &&
      DesiresKey in w && w[DesiresKey] == DesiresJson(s.desires) &&
      ChallengesKey in w && w[ChallengesKey] == ChallengesJson(s.challenges)
    ensures forall k :: k !in StoreKeys() ==>
      (k in WriteCollections(st, s) <==> k in st) && (k in st ==> WriteCollections(st, s)[k] == st[k])
    ensures CurrentUserKey in WriteCollections(st, s) <==> CurrentUserKey in st
    ensures CurrentUserKey in st ==> WriteCollections(st, s)[CurrentUserKey] == st[CurrentUserKey]
  {
  }

  /** The collections effect leaves the session as restore would read it. */
  lemma RestoreAfterCollectionsWrite(st: Storage, s: Snapshot)
    requires ReadCurrentUser(st) == Ok(s.currentUser)
    ensures Restore(WriteCollections(st, s)) == Ok(s)
  {
  }

  /** The session effect leaves the collections as restore would read them. */
  lemma RestoreAfterSessionWrite(st: Storage, s: Snapshot, u: Option<User>)
    requires Restore(st) == Ok(s)
    ensures Restore(WriteSession(st, u)) == Ok(s.(currentUser := u))
  {
  }

  /** Reloading after both effects have run gives back exactly the state that was written, whatever was stored before. */
  lemma RestoreAfterSync(st: Storage, s: Snapshot)
    ensures Restore(WriteSession(WriteCollections(st, s), s.currentUser)) == Ok(s)
  {
  }

  /** A missing session key, or the empty string under it, reads as nobody signed in. */
  lemma ReadCurrentUserDefault(st: Storage)
    requires CurrentUserKey !in st || st[CurrentUserKey] == EmptyText
    ensures ReadCurrentUser(st) == Ok(None)
  {
  }

  /** A missing collection key, or the empty string under it, reads as an empty collection. */
  lemma ReadListDefault<T>(st: Storage, key: string, shape: Stored -> Option<seq<T>>)
    requires key !in st || st[key] == EmptyText
    ensures ReadList(st, key, shape) == Ok([])
  {
  }

  /** Each key defaults on its own: in a successful restore, every missing or empty key gives nobody or an empty collection. */
  lemma RestoreDefaultsPerKey(st: Storage)
    requires Restore(st).Ok?
    ensures CurrentUserKey !in st || st[CurrentUserKey] == EmptyText ==> Restore(st).value.currentUser == None
    ensures TransactionsKey !in st || st[TransactionsKey] == EmptyText ==> Restore(st).value.transactions == []
    ensures BillsKey !in st || st[BillsKey] == EmptyText ==> Restore(st).value.bills == []
    ensures VisionsKey !in st || st[VisionsKey] == EmptyText ==> Restore(st).value.visions == []
    ensures DesiresKey !in st || st[DesiresKey] == EmptyText ==> Restore(st).value.desires == []
    ensures ChallengesKey !in st || st[ChallengesKey] == EmptyText ==> Restore(st).value.challenges == []
  {
  }

  /** On first run, with none of the keys present, nobody is signed in and every collection is empty. */
  lemma FreshStartIsEmpty(st: Storage)
    requires forall k :: k in StoreKeys() ==> k !in st
    ensures Restore(st) == Ok(EmptySnapshot())
  {
  }

  /** A stored session or collection that `JSON.parse` rejects stops start-up. */
  lemma UnparseableStopsStartup(st: Storage, key: string)
    requires key in StoreKeys() && key in st && st[key] == Unparseable
    ensures Restore(st).Err?
  {
  }
}
