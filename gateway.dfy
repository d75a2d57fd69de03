/**
 * The store's mutation handlers as pure updates of one collection: what each
 * `setX(prev => ...)` call computes from the previous array.
 */
module MutationGateway {
  import opened Records
  import opened RecordCollection

  /** `Math.min` on amounts. */
  function Min(a: int, b: int): (m: int)
    ensures m <= a && m <= b && (m == a || m == b)
  {
    if a <= b then a else b
  }

  // ---- Creation: append one stamped record at the end ----

  /** `addTransaction`: the draft with a fresh id and the acting user's id, name and family stamped on. */
  function AppendTransaction(ts: seq<Transaction>, d: TransactionDraft, id: string, u: User): (r: seq<Transaction>) {
    ts + [Transaction(id, u.id, u.name, u.familyId, d.amount, d.category, d.date, d.description)]
  }

  /** The bills screen's `onAdd`: the caller's bill with an id and the user's family stamped on. */
  function AppendBill(bs: seq<Bill>, d: BillDraft, id: string, u: User): (r: seq<Bill>) {
    bs + [Bill(id, u.familyId, d.name, d.amount, d.dueDate, d.isPaid)]
  }

  /** The aspirations screen's `onAddVision`. */
  function AppendVision(vs: seq<Vision>, d: VisionDraft, id: string, u: User): (r: seq<Vision>) {
    vs + [Vision(id, u.familyId, d.name, d.targetAmount, d.currentAmount)]
  }

  /** The aspirations screen's `onAddDesire`: one vote to start with, suggested by the acting user. */
  function AppendDesire(ds: seq<Desire>, d: DesireDraft, id: string, u: User): (r: seq<Desire>) {
    ds + [Desire(id, u.familyId, d.name, 1, u.name)]
  }

  lemma AppendTransactionStamps(ts: seq<Transaction>, d: TransactionDraft, id: string, u: User)
    ensures var r := AppendTransaction(ts, d, id, u);
      |r| == |ts| + 1 && r[..|ts|] == ts &&
      r[|ts|].id == id && r[|ts|].userId == u.id && r[|ts|].userName == u.name &&
      r[|ts|].familyId == u.familyId && TransactionDraftOf(r[|ts|]) == d
  {
  }

  lemma AppendBillStamps(bs: seq<Bill>, d: BillDraft, id: string, u: User)
    ensures var r := AppendBill(bs, d, id, u);
      |r| == |bs| + 1 && r[..|bs|] == bs &&
      r[|bs|].id == id && r[|bs|].familyId == u.familyId && BillDraftOf(r[|bs|]) == d
  {
  }

  lemma AppendVisionStamps(vs: seq<Vision>, d: VisionDraft, id: string, u: User)
    ensures var r := AppendVision(vs, d, id, u);
      |r| == |vs| + 1 && r[..|vs|] == vs &&
      r[|vs|].id == id && r[|vs|].familyId == u.familyId && VisionDraftOf(r[|vs|]) == d
  {
  }

  lemma AppendDesireStamps(ds: seq<Desire>, d: DesireDraft, id: string, u: User)
    ensures var r := AppendDesire(ds, d, id, u);
      |r| == |ds| + 1 && r[..|ds|] == ds &&
      r[|ds|].id == id && r[|ds|].familyId == u.familyId &&
      r[|ds|].votes == 1 && r[|ds|].suggestedBy == u.name && DesireDraftOf(r[|ds|]) == d
  {
  }

  // ---- Updates by id: every record with the id changes, every other one stays ----

  /** The bills screen's `onToggle`. */
  function ToggleBill(bs: seq<Bill>, id: string): (r: seq<Bill>) {
    UpdateWhere(bs, (b: Bill) => b.id == id, (b: Bill) => b.(isPaid := !b.isPaid))
  }

  /** `onUpdateVision`: a deposit with no ceiling. */
  function Deposit(vs: seq<Vision>, id: string, amt: int): (r: seq<Vision>) {
    UpdateWhere(vs, (v: Vision) => v.id == id, (v: Vision) => v.(currentAmount := v.currentAmount + amt))
  }

  /** `onVoteDesire`: one more vote, with no limit and no check of who votes. */
  function Vote(ds: seq<Desire>, id: string): (r: seq<Desire>) {
    UpdateWhere(ds, (d: Desire) => d.id == id, (d: Desire) => d.(votes := d.votes + 1))
  }

  /** `handleUpdateChallenge`: progress moves by `amount` but never past the target. */
  function Contribute(cs: seq<Challenge>, id: string, amount: int): (r: seq<Challenge>) {
    UpdateWhere(cs, (c: Challenge) => c.id == id,
                (c: Challenge) => c.(current := Min(c.target, c.current + amount)))
  }

  lemma ToggleBillFlips(bs: seq<Bill>, id: string)
    ensures var r := ToggleBill(bs, id);
      |r| == |bs| &&
      forall i :: 0 <= i < |bs| ==>
        if bs[i].id == id then r[i] == bs[i].(isPaid := !bs[i].isPaid) else r[i] == bs[i]
  {
  }

  /** Toggling the same bill twice gives back the collection as it was. */
  lemma ToggleBillTwice(bs: seq<Bill>, id: string)
    ensures ToggleBill(ToggleBill(bs, id), id) == bs
  {
    UpdateWhereTwice(bs, (b: Bill) => b.id == id, (b: Bill) => b.(isPaid := !b.isPaid));
  }

  lemma DepositAdds(vs: seq<Vision>, id: string, amt: int)
    ensures var r := Deposit(vs, id, amt);
      |r| == |vs| &&
      forall i :: 0 <= i < |vs| ==>
        if vs[i].id == id then r[i] == vs[i].(currentAmount := vs[i].currentAmount + amt) else r[i] == vs[i]
  {
  }

  /** Unlike a challenge, a goal is not capped: a deposit can carry it past its target. */
  lemma DepositHasNoCeiling()
    ensures Deposit([Vision("v", "fam-1", "trip", 100, 90)], "v", 50)
         == [Vision("v", "fam-1", "trip", 100, 140)]
  {
  }

  lemma VoteAddsOne(ds: seq<Desire>, id: string)
    ensures var r := Vote(ds, id);
      |r| == |ds| &&
      forall i :: 0 <= i < |ds| ==>
        if ds[i].id == id then r[i] == ds[i].(votes := ds[i].votes + 1) else r[i] == ds[i]
  {
  }

  /** Every wishlist item has at least one vote. */
  ghost predicate VotesPositive(ds: seq<Desire>) {
    forall i :: 0 <= i < |ds| ==> ds[i].votes >= 1
  }

  /** Voting and adding both keep every item at one vote or more. */
  lemma VotesStayPositive(ds: seq<Desire>, id: string, d: DesireDraft, newId: string, u: User)
    requires VotesPositive(ds)
    ensures VotesPositive(Vote(ds, id))
    ensures VotesPositive(AppendDesire(ds, d, newId, u))
  {
  }

  lemma ContributeClamps(cs: seq<Challenge>, id: string, amount: int)
    ensures var r := Contribute(cs, id, amount);
      |r| == |cs| &&
      forall i :: 0 <= i < |cs| ==>
        if cs[i].id == id
        then r[i] == cs[i].(current := Min(cs[i].target, cs[i].current + amount)) && r[i].current <= r[i].target
        else r[i] == cs[i]
  {
  }

  /** Every challenge's progress lies between zero and its target. */
  ghost predicate ChallengesInRange(cs: seq<Challenge>) {
    forall i :: 0 <= i < |cs| ==> 0 <= cs[i].current <= cs[i].target
  }

  /** A non-negative contribution keeps progress within range and never lowers it. */
  lemma ContributeKeepsRange(cs: seq<Challenge>, id: string, amount: int)
    requires amount >= 0
    requires ChallengesInRange(cs)
    ensures ChallengesInRange(Contribute(cs, id, amount))
    ensures forall i :: 0 <= i < |cs| ==> Contribute(cs, id, amount)[i].current >= cs[i].current
  {
  }

  lemma ContributeClampScenario()
    ensures Contribute([Challenge("c", "fam-1", "sprint", 100, 90)], "c", 50)
         == [Challenge("c", "fam-1", "sprint", 100, 100)]
  {
  }

  /** No update changes a record's id or household. */
  lemma UpdatesKeepIdentity(bs: seq<Bill>, vs: seq<Vision>, ds: seq<Desire>, cs: seq<Challenge>, id: string, amt: int)
    ensures forall i :: 0 <= i < |bs| ==> ToggleBill(bs, id)[i].id == bs[i].id && ToggleBill(bs, id)[i].familyId == bs[i].familyId
    ensures forall i :: 0 <= i < |vs| ==> Deposit(vs, id, amt)[i].id == vs[i].id && Deposit(vs, id, amt)[i].familyId == vs[i].familyId
    ensures forall i :: 0 <= i < |ds| ==> Vote(ds, id)[i].id == ds[i].id && Vote(ds, id)[i].familyId == ds[i].familyId
    ensures forall i :: 0 <= i < |cs| ==> Contribute(cs, id, amt)[i].id == cs[i].id && Contribute(cs, id, amt)[i].familyId == cs[i].familyId
  {
  }
}
