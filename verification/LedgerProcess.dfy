/** The inference ledger's methods over its directory of records. */
module LedgerProcess {
  import opened Options
  import L = InferenceLedger
  import A = Accounts

  class Ledger {
    var files: L.Files

    constructor ()
      ensures files == []
    {
      files := [];
    }

    /** Interrupt what was left reserved, record by record in any order, as far as the sweep got. */
    method Recover(reached: set<L.TaskId>)
      requires Distinct()
      modifies this
      ensures files == L.Recover(old(files), reached)
      ensures A.SweptRightly(old(files), files, reached)
    {
      A.SweepIsRight(files, reached);
      var todo := reached;
      while todo != {}
        invariant todo <= reached && files == L.Recover(old(files), reached - todo)
        decreases todo
      {
        var id :| id in todo;
        todo := todo - {id};
        var found := L.Find(files, id);
        if found.Some? {
          var record := files[found.value].record;
          if record.status.Reserved? {
            files := files[found.value := files[found.value].(record := record.(status := L.Interrupted))];
          }
        }
      }
    }

    /** One file per task. */
    ghost predicate Distinct()
      reads this
    {
      forall i, j :: 0 <= i < j < |files| ==> files[i].id != files[j].id
    }

    method Write(i: nat, record: L.Record, write: L.Write) returns (error: Option<L.Error>)
      requires i < |files|
      modifies this
      ensures L.Answer(files, error) == L.Written(old(files), i, record, write)
    {
      if !write.Lost? {
        files := files[i := files[i].(record := record)];
      }
      error := if write.Done? then None else Some(L.StorageError);
    }

    method Start(provider: string, id: L.TaskId, write: L.Write) returns (error: Option<L.Error>)
      modifies this
      ensures L.Answer(files, error) == L.Start(old(files), provider, id, write)
      ensures A.StartedRightly(old(files), files, provider, id, write, error)
    {
      A.StartIsRight(files, provider, id, write);
      if L.Find(files, id).Some? {
        return Some(L.CodingFailure("interrupted"));
      }
      if |files| >= L.RETAINED {
        return Some(L.CodingFailure("model_budget_exceeded"));
      }
      if !write.Lost? {
        files := files + [L.Entry(id, L.Record(L.Status.Reserved, [], Some(provider)))];
      }
      error := if write.Done? then None else Some(L.StorageError);
    }

    /** What a provider's records have reserved in a month, record by record and turn by turn. */
    method Total(provider: string, month: int) returns (total: nat)
      ensures total == L.MonthTotal(files, provider, month)
      ensures A.AllReserved(files) ==> total == 250000 * |A.TurnsIn(files, provider, month)|
    {
      if A.AllReserved(files) { A.TotalCounts(files, provider, month); }
      total := 0;
      for i := 0 to |files|
        invariant total == L.MonthTotal(files[..i], provider, month)
      {
        var item := files[i].record;
        if L.ProviderOf(item) == provider {
          var sum := 0;
          for k := 0 to |item.turns|
            invariant sum == L.MonthOfTurns(item.turns[..k], month)
          {
            assert item.turns[..k + 1][..k] == item.turns[..k];
            if item.turns[k].month == month {
              sum := sum + item.turns[k].reserved;
            }
          }
          assert item.turns[..|item.turns|] == item.turns;
          total := total + sum;
        }
        assert files[..i + 1][..i] == files[..i];
      }
      assert files[..|files|] == files;
    }

    method Reserve(provider: string, id: L.TaskId, month: int, priceReviewed: bool, write: L.Write)
      returns (error: Option<L.Error>)
      modifies this
      ensures L.Answer(files, error) == L.Reserve(old(files), provider, id, month, priceReviewed, write)
      ensures A.ReservedRightly(old(files), files, provider, id, month, priceReviewed, write, error)
    {
      A.ReserveIsRight(files, provider, id, month, priceReviewed, write);
      if !priceReviewed {
        return Some(L.CodingFailure("model_budget_exceeded"));
      }
      var found := L.Find(files, id);
      if found.None? {
        return Some(L.MissingRecord);
      }
      var record := files[found.value].record;
      var total := Total(provider, month);
      if |record.turns| >= L.MAX_TURNS || (|record.turns| + 1) * L.TURN_RESERVE > L.TASK_BUDGET
         || (provider != L.ACCEPTANCE && total + L.TURN_RESERVE > L.MONTH_BUDGET) {
        return Some(L.CodingFailure("model_budget_exceeded"));
      }
      var turn := L.Turn(month, L.TURN_RESERVE, None, 0);
      error := Write(found.value, record.(turns := record.turns + [turn]), write);
    }

    method RecordUsage(id: L.TaskId, tokens: Option<(nat, nat)>, write: L.Write) returns (error: Option<L.Error>)
      modifies this
      ensures L.Answer(files, error) == L.RecordUsage(old(files), id, tokens, write)
      ensures A.UsedRightly(old(files), files, id, tokens, write, error)
    {
      A.UsageIsRight(files, id, tokens, write);
      if tokens.None? || tokens.value.0 > L.TOKEN_LIMIT || tokens.value.1 > L.TOKEN_LIMIT {
        return Some(L.CodingFailure("model_invalid_response"));
      }
      var found := L.Find(files, id);
      if found.None? {
        return Some(L.MissingRecord);
      }
      var record := files[found.value].record;
      if record.turns == [] {
        return Some(L.NoTurn);
      }
      var last := |record.turns| - 1;
      var estimated := tokens.value.0 * 3 + tokens.value.1 * 11;
      var turn := record.turns[last].(usage := Some(L.Tokens(tokens.value.0, tokens.value.1, estimated)));
      error := Write(found.value, record.(turns := record.turns[last := turn]), write);
      if error.None? && estimated > turn.reserved {
        error := Some(L.CodingFailure("model_budget_exceeded"));
      }
    }

    method Finish(id: L.TaskId, status: L.Status, write: L.Write) returns (error: Option<L.Error>)
      modifies this
      ensures L.Answer(files, error) == L.Finish(old(files), id, status, write)
      ensures A.FinishedRightly(old(files), files, id, status, write, error)
    {
      A.FinishIsRight(files, id, status, write);
      var found := L.Find(files, id);
      if found.None? {
        return Some(L.MissingRecord);
      }
      error := Write(found.value, files[found.value].record.(status := status), write);
    }
  }
}
