/**
 * The records the household store keeps. Each datatype holds only the fields
 * the store itself reads or writes, plus the fields a screen hands over and the
 * store passes through unchanged.
 */
module Records {

  datatype Option<T> = None | Some(value: T)

  /** The signed-in member of a household. */
  datatype User = User(id: string, name: string, familyId: string)

  /** What the expenses screen hands to `addTransaction`: a transaction without the fields the store stamps. */
  datatype TransactionDraft = TransactionDraft(amount: int, category: string, date: string, description: string)

  datatype Transaction = Transaction(
    id: string,
    userId: string,
    userName: string,
    familyId: string,
    amount: int,
    category: string,
    date: string,
    description: string)

  /** What the bills screen hands over; `isPaid` comes from the caller. */
  datatype BillDraft = BillDraft(name: string, amount: int, dueDate: string, isPaid: bool)

  datatype Bill = Bill(id: string, familyId: string, name: string, amount: int, dueDate: string, isPaid: bool)

  /** A savings goal as the aspirations screen hands it over. */
  datatype VisionDraft = VisionDraft(name: string, targetAmount: int, currentAmount: int)

  /** A savings goal ("vision"). */
  datatype Vision = Vision(id: string, familyId: string, name: string, targetAmount: int, currentAmount: int)

  /** A wishlist item as the aspirations screen hands it over. */
  datatype DesireDraft = DesireDraft(name: string)

  /** A wishlist item ("desire") that the household votes on. */
  datatype Desire = Desire(id: string, familyId: string, name: string, votes: int, suggestedBy: string)

  /** A savings challenge whose progress is clamped to its target. */
  datatype Challenge = Challenge(id: string, familyId: string, title: string, target: int, current: int)

  /** The draft a transaction was made from: the record without its stamped fields. */
  function TransactionDraftOf(t: Transaction): (d: TransactionDraft) {
    TransactionDraft(t.amount, t.category, t.date, t.description)
  }

  function BillDraftOf(b: Bill): (d: BillDraft) {
    BillDraft(b.name, b.amount, b.dueDate, b.isPaid)
  }

  function VisionDraftOf(v: Vision): (d: VisionDraft) {
    VisionDraft(v.name, v.targetAmount, v.currentAmount)
  }

  function DesireDraftOf(w: Desire): (d: DesireDraft) {
    DesireDraft(w.name)
  }
}
