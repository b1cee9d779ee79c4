/**
 The target tables as the adapter's statements change them in place
 (tools/ingress/reference_adapter.py, _transaction).
 */
module AdapterStore {
  import opened Wrappers
  import opened TargetOracle
  import opened AdapterTarget

  datatype Answer =
    | Committed(inserted: bool, ordinal: int)
    | NotSynchronous
    | ContentConflict
    | BudgetExhausted
    | CommitRefused

  class Target {
    var rows: map<Key, Row>
    var attempts: map<Slot, Attempt>

    function Contents(): Tables
      reads this
    {
      Tables(rows, attempts)
    }

    constructor ()
      ensures Contents() == EMPTY_TABLES
    {
      rows, attempts := map[], map[];
    }

    /**
     The statements in order. A rollback restores both tables. `synchronous` is the server's
     setting and `refused` says that COMMIT itself fails.
     */
    method Transaction(item: Input, synchronous: bool, refused: bool) returns (answer: Answer)
      requires TablesOk(Contents())
      modifies this
      ensures answer.Committed? ==> Some(Contents()) == Write(old(Contents()), item)
      ensures !answer.Committed? ==> Contents() == old(Contents())
      ensures answer.NotSynchronous? <==> !synchronous
      ensures answer.ContentConflict? <==>
                synchronous && item.key in old(rows) && !RowMatches(old(rows[item.key]), item)
      ensures answer.BudgetExhausted? <==>
                synchronous && item.key in old(rows) && RowMatches(old(rows[item.key]), item)
                && old(rows[item.key]).attempts == MAX_ATTEMPTS
      ensures answer.Committed? ==>
                && (answer.inserted <==> item.key !in old(rows))
                && answer.ordinal == if item.key in old(rows) then old(rows[item.key]).attempts + 1 else 1
      ensures TablesOk(Contents())
    {
      assert RowOk(Contents(), item.key);
      if !synchronous {
        return NotSynchronous;
      }
      var savedRows, savedAttempts := rows, attempts;
      var inserted := item.key !in rows;
      if inserted {
        rows := rows[item.key := NewRow(item)];
      }
      var prior := rows[item.key];
      if !RowMatches(prior, item) {
        rows := savedRows;
        return ContentConflict;
      }
      if prior.attempts >= MAX_ATTEMPTS {
        rows := savedRows;
        return BudgetExhausted;
      }
      rows := rows[item.key := prior.(attempts := prior.attempts + 1)];
      var ordinal := rows[item.key].attempts;
      attempts := attempts[Slot(item.key, ordinal) := AttemptOf(item, ordinal, inserted)];
      if refused {
        rows, attempts := savedRows, savedAttempts;
        return CommitRefused;
      }
      WriteKeepsTables(old(Contents()), item);
      assert Contents() == Written(old(Contents()), item);
      answer := Committed(inserted, ordinal);
    }
  }
}
