/** What the dashboard pages share: the transaction row, the realtime change
    notification, and the reducer that appends an incoming row unless one with
    the same `trans_num` is already listed (my-app/src/app/dbTest/page.tsx and
    my-app/src/app/page.tsx carry the same reducer). */
module Rows {

  datatype Option<T> = None | Some(value: T)

  /** A row of the `transaction` table. `userId` holds the owning customer's
      numeric `id`. */
  datatype Transaction = Transaction(
    merchant: string,
    category: string,
    transNum: string,
    transDate: string,
    transTime: string,
    amt: real,
    merchLat: real,
    merchLong: real,
    isFraud: string,
    ccNum: string,
    userId: int)

  /** A notification's `payload.new`: the new row, or the empty object a
      DELETE notification carries. */
  datatype Record<T> = Empty | Row(row: T)

  datatype EventKind = Insert | Update | Delete

  /** A change notification for a watched table. */
  datatype ChangeEvent<T> = ChangeEvent(kind: EventKind, payload: Record<T>)

  /** `update.trans_num`: undefined (None) on the empty object. */
  function KeyOf(r: Record<Transaction>): Option<string> {
    match r
    case Empty => None
    case Row(t) => Some(t.transNum)
  }

  /** `prev.find(update => update.trans_num === key)` finds an entry. */
  predicate HasKey(list: seq<Record<Transaction>>, key: Option<string>) {
    exists i :: 0 <= i < |list| && KeyOf(list[i]) == key
  }

  /** No two entries share a trans_num. */
  predicate UniqueKeys(list: seq<Record<Transaction>>) {
    forall i, j :: 0 <= i < j < |list| ==> KeyOf(list[i]) != KeyOf(list[j])
  }

  /** The realtime merge reducer: `prev` when an entry with the incoming
      trans_num exists, otherwise `[...prev, incoming]`. */
  function MergeUnique(prev: seq<Record<Transaction>>, incoming: Record<Transaction>): (next: seq<Record<Transaction>>)
    // Earlier entries are kept, in order, and at most the incoming one is added at the end.
    ensures |next| == if HasKey(prev, KeyOf(incoming)) then |prev| else |prev| + 1
    ensures next[..|prev|] == prev
    ensures |next| > |prev| ==> next[|prev|] == incoming
    // Afterwards the incoming trans_num is listed, and no other new one.
    ensures forall k :: HasKey(next, k) <==> HasKey(prev, k) || k == KeyOf(incoming)
  {
    if HasKey(prev, KeyOf(incoming)) then prev else prev + [incoming]
  }

  /** The reducer never lets two entries share a trans_num. */
  lemma MergeKeepsUnique(prev: seq<Record<Transaction>>, incoming: Record<Transaction>)
    requires UniqueKeys(prev)
    ensures UniqueKeys(MergeUnique(prev, incoming))
  {
  }

  /** Merging a row whose trans_num is listed changes nothing, so a later
      version of a listed row (an UPDATE notification) is never shown. */
  lemma MergeListedIsNoOp(prev: seq<Record<Transaction>>, i: nat, incoming: Record<Transaction>)
    requires i < |prev| && KeyOf(prev[i]) == KeyOf(incoming)
    ensures MergeUnique(prev, incoming) == prev
  {
  }
}
