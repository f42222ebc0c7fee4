/** `update_transaction` of server/db.py: an update of the `transaction` table
    matched on `trans_num`, and the outcome dict it builds from the backend's
    answer. Rows are column-to-value maps. */
module TransactionUpdate {
  import Decimal

  datatype Option<T> = None | Some(value: T)

  type Row = map<string, string>

  /** What `.update(...).eq("trans_num", ...).execute()` did: it raised, or
      it answered with `response.data` (None when the field is null). */
  datatype Upstream = Raised(reason: string) | Answered(data: Option<seq<Row>>)

  /** The returned dict: which of its three keys are present, with their values. */
  datatype Outcome = Outcome(success: Option<string>, data: Option<seq<Row>>, error: Option<string>)

  function NoRowsMessage(transNum: string): string {
    "No rows updated for transaction number: " + transNum
  }

  function ExceptionMessage(transNum: string, reason: string): string {
    "Exception while updating transaction " + transNum + ": " + reason
  }

  function SuccessMessage(n: nat): string {
    "Updated " + Decimal.NatToString(n) + " row(s)."
  }

  /** The outcome dict for the backend's answer. */
  function UpdateTransaction(transNum: string, upstream: Upstream): (r: Outcome)
    // Exactly one of "success" and "error"; "data" only beside "success".
    ensures r.success.Some? != r.error.Some?
    ensures r.data.Some? <==> r.success.Some?
    // A raise: only an error naming the transaction number.
    ensures upstream.Raised? ==>
            r == Outcome(None, None, Some(ExceptionMessage(transNum, upstream.reason)))
    // Null or empty data: only the "no rows updated" error.
    ensures upstream.Answered? && (upstream.data == None || upstream.data == Some([])) ==>
            r == Outcome(None, None, Some(NoRowsMessage(transNum)))
    // n > 0 rows: the count in the success message, and the rows themselves.
    ensures upstream.Answered? && upstream.data.Some? && |upstream.data.value| > 0 ==>
            r == Outcome(Some(SuccessMessage(|upstream.data.value|)), upstream.data, None)
  {
    match upstream
    case Raised(reason) => Outcome(None, None, Some(ExceptionMessage(transNum, reason)))
    case Answered(data) =>
      var updated := if data.Some? then data.value else [];
      if updated == [] then Outcome(None, None, Some(NoRowsMessage(transNum)))
      else Outcome(Some(SuccessMessage(|updated|)), Some(updated), None)
  }

  /** The success message names the number of rows, read back from its digits. */
  lemma SuccessMessageCount(n: nat)
    ensures var m := SuccessMessage(n);
            var digits := m[8..|m| - 8];
            && m[..8] == "Updated " && m[|m| - 8..] == " row(s)."
            && Decimal.AllDigits(digits) && Decimal.Value(digits) == n
  {
    var m := SuccessMessage(n);
    assert m[8..|m| - 8] == Decimal.NatToString(n);
    Decimal.ValueOfNatToString(n);
  }

  // ---------------------------------------------------------------------------
  // The update the backend performs, as the doc comment describes it

  /** The row's trans_num column equals the one the update matches on. */
  predicate Matches(row: Row, transNum: string) {
    "trans_num" in row && row["trans_num"] == transNum
  }

  /** The table after setting `fields` on every row whose trans_num matches,
      and the updated rows (what the backend returns as `data`). */
  function ApplyUpdate(table: seq<Row>, transNum: string, fields: Row): (r: (seq<Row>, seq<Row>))
    ensures |r.0| == |table| && |r.1| <= |table|
    decreases |table|
  {
    if table == [] then ([], [])
    else
      var (restTable, restUpdated) := ApplyUpdate(table[1..], transNum, fields);
      var row := table[0];
      if Matches(row, transNum) then
        ([row + fields] + restTable, [row + fields] + restUpdated)
      else ([row] + restTable, restUpdated)
  }

  /** Matching rows get the given fields and keep every other column; the
      other rows are left as they are. */
  lemma {:induction false} UpdateSetsFields(table: seq<Row>, transNum: string, fields: Row)
    ensures var t := ApplyUpdate(table, transNum, fields).0;
            forall i :: 0 <= i < |table| ==>
              if Matches(table[i], transNum)
              then t[i].Keys == table[i].Keys + fields.Keys
                   && (forall c :: c in fields ==> t[i][c] == fields[c])
                   && (forall c :: c in table[i] && c !in fields ==> t[i][c] == table[i][c])
              else t[i] == table[i]
    decreases |table|
  {
    if table != [] {
      UpdateSetsFields(table[1..], transNum, fields);
      var t := ApplyUpdate(table, transNum, fields).0;
      var rest := ApplyUpdate(table[1..], transNum, fields).0;
      assert t == [if Matches(table[0], transNum) then table[0] + fields else table[0]] + rest;
      forall i | 1 <= i < |table| ensures t[i] == rest[i - 1] && table[i] == table[1..][i - 1] { }
    }
  }

  /** The backend returns one row per matching row, so the call reports success
      exactly when some row has the transaction number. */
  lemma {:induction false} UpdatedRowsCount(table: seq<Row>, transNum: string, fields: Row)
    requires "trans_num" !in fields
    ensures var updated := ApplyUpdate(table, transNum, fields).1;
            && (updated == [] <==> forall i :: 0 <= i < |table| ==> !Matches(table[i], transNum))
            && (forall i :: 0 <= i < |updated| ==> Matches(updated[i], transNum))
    decreases |table|
  {
    if table != [] {
      var rest := ApplyUpdate(table[1..], transNum, fields).1;
      UpdatedRowsCount(table[1..], transNum, fields);
      var updated := ApplyUpdate(table, transNum, fields).1;
      if Matches(table[0], transNum) {
        assert updated == [table[0] + fields] + rest;
        assert Matches(table[0] + fields, transNum);
        forall i | 0 <= i < |updated| ensures Matches(updated[i], transNum) {
          if i > 0 { assert updated[i] == rest[i - 1]; }
        }
      } else {
        assert updated == rest;
        assert (forall i :: 0 <= i < |table| ==> !Matches(table[i], transNum)) <==>
               (forall i :: 0 <= i < |table[1..]| ==> !Matches(table[1..][i], transNum)) by {
          assert forall i :: 1 <= i < |table| ==> table[i] == table[1..][i - 1];
        }
      }
    }
  }

  lemma UpdateSucceedsIffMatch(table: seq<Row>, transNum: string, fields: Row)
    requires "trans_num" !in fields
    ensures UpdateTransaction(transNum, Answered(Some(ApplyUpdate(table, transNum, fields).1))).success.Some?
            <==> exists i :: 0 <= i < |table| && Matches(table[i], transNum)
  {
    UpdatedRowsCount(table, transNum, fields);
  }
}
