/**
 What each operation on the ledger must do, in numbers: prices are 3 micro-dollars for a token read and 11 for one
 written, a call is reserved at 250000, a month is worth 15000000, a task has 8 turns, and 256 records are kept.
 */
module Accounts {
  import opened Options
  import opened InferenceLedger

  predicate SameFiles(files: Files, files': Files, error: Option<Error>, expected: Error) {
    files' == files && error == Some(expected)
  }

  /** The one record that is written, unless the write is lost; and whether it raised. */
  predicate Writes(files: Files, files': Files, i: nat, record: Record, write: Write, error: Option<Error>)
    requires i < |files|
  {
    && (write.Lost? ==> files' == files)
    && (!write.Lost? ==>
          && |files'| == |files| && files'[i].id == files[i].id && files'[i].record == record
          && forall k :: 0 <= k < |files| && k != i ==> files'[k] == files[k])
    && (!write.Done? ==> error == Some(StorageError))
  }

  predicate StartedRightly(files: Files, files': Files, provider: string, id: TaskId, write: Write, error: Option<Error>) {
    if exists k :: 0 <= k < |files| && files[k].id == id then SameFiles(files, files', error, CodingFailure("interrupted"))
    else if |files| >= 256 then SameFiles(files, files', error, CodingFailure("model_budget_exceeded"))
    else
      && files' == (if write.Lost? then files else files + [Entry(id, Record(Reserved, [], Some(provider)))])
      && error == if write.Done? then None else Some(StorageError)
  }

  lemma StartIsRight(files: Files, provider: string, id: TaskId, write: Write)
    ensures var a := Start(files, provider, id, write);
      StartedRightly(files, a.files, provider, id, write, a.error)
  {
    hide Find;
  }

  // ----- reservations

  /** The turns that a provider's records have in a month. Old records, which name none, are openai's. */
  function TurnsIn(files: Files, provider: string, month: int): set<(int, int)> {
    set i, k | 0 <= i < |files| && 0 <= k < |files[i].record.turns| && files[i].record.turns[k].month == month
               && (files[i].record.provider == Some(provider) || (files[i].record.provider.None? && provider == "openai")) :: (i, k)
  }

  predicate AllReserved(files: Files) {
    forall i, k :: 0 <= i < |files| && 0 <= k < |files[i].record.turns| ==> files[i].record.turns[k].reserved == 250000
  }

  function MonthTurns(turns: seq<Turn>, month: int): set<int> {
    set k | 0 <= k < |turns| && turns[k].month == month
  }

  lemma {:induction false} TurnsCount(turns: seq<Turn>, month: int)
    requires forall k :: 0 <= k < |turns| ==> turns[k].reserved == 250000
    ensures MonthOfTurns(turns, month) == 250000 * |MonthTurns(turns, month)|
    decreases |turns|
  {
    if turns == [] {
      assert MonthTurns(turns, month) == {};
    } else {
      var last := |turns| - 1;
      TurnsCount(turns[..last], month);
      assert MonthTurns(turns, month) == MonthTurns(turns[..last], month) + (if turns[last].month == month then {last} else {});
    }
  }

  function Pairs<K(==)>(i: int, ks: set<K>): set<(int, K)> {
    set k | k in ks :: (i, k)
  }

  lemma {:induction false} PairsCount<K>(i: int, ks: set<K>)
    ensures |Pairs(i, ks)| == |ks|
    decreases |ks|
  {
    if ks == {} {
      assert Pairs(i, ks) == {};
    } else {
      var k :| k in ks;
      PairsCount(i, ks - {k});
      assert Pairs(i, ks) == Pairs(i, ks - {k}) + {(i, k)};
    }
  }

  /** A month's total is 250000 for each of the provider's turns in it. */
  lemma {:induction false} TotalCounts(files: Files, provider: string, month: int)
    requires AllReserved(files)
    ensures MonthTotal(files, provider, month) == 250000 * |TurnsIn(files, provider, month)|
    decreases |files|
  {
    if files == [] {
      assert TurnsIn(files, provider, month) == {};
    } else {
      var last := |files| - 1;
      TotalCounts(files[..last], provider, month);
      var turns := files[last].record.turns;
      TurnsCount(turns, month);
      PairsCount(last, MonthTurns(turns, month));
      hide MonthOfTurns;
      var more := if ProviderOf(files[last].record) == provider then Pairs(last, MonthTurns(turns, month)) else {};
      LastTurns(files, provider, month);
      assert more !! TurnsIn(files[..last], provider, month);
      assert |TurnsIn(files, provider, month)| == |TurnsIn(files[..last], provider, month)| + |more|;
    }
  }

  lemma LastTurns(files: Files, provider: string, month: int)
    requires files != []
    ensures var last := |files| - 1;
      TurnsIn(files, provider, month) == TurnsIn(files[..last], provider, month) +
        if ProviderOf(files[last].record) == provider then Pairs(last, MonthTurns(files[last].record.turns, month)) else {}
  {
    var last := |files| - 1;
    var front, turns := files[..last], files[last].record.turns;
    var more := if ProviderOf(files[last].record) == provider then Pairs(last, MonthTurns(turns, month)) else {};
    forall i, k ensures (i, k) in TurnsIn(files, provider, month) <==> (i, k) in TurnsIn(front, provider, month) || (i, k) in more {
      if (i, k) in more { assert k in MonthTurns(turns, month); }
      if i == last && 0 <= k < |turns| && turns[k].month == month { assert k in MonthTurns(turns, month); }
    }
    assert TurnsIn(files, provider, month) == TurnsIn(front, provider, month) + more;
  }

  predicate ReservedRightly(files: Files, files': Files, provider: string, id: TaskId, month: int, reviewed: bool,
                            write: Write, error: Option<Error>) {
    var found := Find(files, id);
    if !reviewed then SameFiles(files, files', error, CodingFailure("model_budget_exceeded"))
    else if found.None? then SameFiles(files, files', error, MissingRecord)
    else
      var record := files[found.value].record;
      if |record.turns| >= 8 || (provider != "acceptance" && MonthTotal(files, provider, month) > 14750000) then
        SameFiles(files, files', error, CodingFailure("model_budget_exceeded"))
      else
        && Writes(files, files', found.value, record.(turns := record.turns + [Turn(month, 250000, None, 0)]), write, error)
        && (write.Done? ==> error.None?)
  }

  lemma ReserveIsRight(files: Files, provider: string, id: TaskId, month: int, reviewed: bool, write: Write)
    ensures var a := Reserve(files, provider, id, month, reviewed, write);
      ReservedRightly(files, a.files, provider, id, month, reviewed, write, a.error)
  {
    hide Find, MonthTotal;
  }

  /** With every turn reserved at the price of a call, the provider's sixtieth turn of a month is its last. */
  lemma SixtyAMonth(files: Files, provider: string, id: TaskId, month: int)
    requires AllReserved(files) && Find(files, id).Some? && provider != "acceptance"
    ensures Reserve(files, provider, id, month, true, Done).error.None? <==>
      |files[Find(files, id).value].record.turns| < 8 && |TurnsIn(files, provider, month)| < 60
  {
    TotalCounts(files, provider, month);
    hide Find, MonthTotal;
  }

  // ----- usage

  predicate InRange(tokens: Option<(nat, nat)>) {
    tokens.Some? && tokens.value.0 <= 1000000 && tokens.value.1 <= 1000000
  }

  /** The last turn with what it used; the rest of the record stays. */
  predicate Accounted(record: Record, record': Record, input: nat, output: nat)
    requires record.turns != []
  {
    var last := |record.turns| - 1;
    && record'.status == record.status && record'.provider == record.provider
    && |record'.turns| == |record.turns| && record'.turns[..last] == record.turns[..last]
    && record'.turns[last].month == record.turns[last].month && record'.turns[last].reserved == record.turns[last].reserved
    && record'.turns[last].calls == record.turns[last].calls
    && record'.turns[last].usage == Some(Tokens(input, output, 3 * input + 11 * output))
  }

  predicate UsedRightly(files: Files, files': Files, id: TaskId, tokens: Option<(nat, nat)>, write: Write, error: Option<Error>) {
    var found := Find(files, id);
    if !InRange(tokens) then SameFiles(files, files', error, CodingFailure("model_invalid_response"))
    else if found.None? then SameFiles(files, files', error, MissingRecord)
    else if files[found.value].record.turns == [] then SameFiles(files, files', error, NoTurn)
    else
      var record := files[found.value].record;
      var (input, output) := tokens.value;
      && |files'| == |files|
      && (!write.Lost? ==> Accounted(record, files'[found.value].record, input, output))
      && Writes(files, files', found.value, files'[found.value].record, write, error)
      && (write.Done? ==>
            if 3 * input + 11 * output > record.turns[|record.turns| - 1].reserved
            then error == Some(CodingFailure("model_budget_exceeded")) else error.None?)
  }

  lemma UsageIsRight(files: Files, id: TaskId, tokens: Option<(nat, nat)>, write: Write)
    ensures var a := RecordUsage(files, id, tokens, write);
      UsedRightly(files, a.files, id, tokens, write, a.error)
  {
    hide Find;
  }

  /** With a reservation of 250000 and a write that goes through, the price decides. */
  lemma PriceDecides(files: Files, id: TaskId, input: nat, output: nat)
    requires Find(files, id).Some? && input <= 1000000 && output <= 1000000
    requires var turns := files[Find(files, id).value].record.turns; turns != [] && turns[|turns| - 1].reserved == 250000
    ensures RecordUsage(files, id, Some((input, output)), Done).error.Some? <==> 3 * input + 11 * output > 250000
  {
    hide Find;
    UsageIsRight(files, id, Some((input, output)), Done);
  }

  // ----- ends

  predicate FinishedRightly(files: Files, files': Files, id: TaskId, status: Status, write: Write, error: Option<Error>) {
    var found := Find(files, id);
    if found.None? then SameFiles(files, files', error, MissingRecord)
    else
      && Writes(files, files', found.value, files[found.value].record.(status := status), write, error)
      && (write.Done? ==> error.None?)
  }

  lemma FinishIsRight(files: Files, id: TaskId, status: Status, write: Write)
    ensures var a := Finish(files, id, status, write);
      FinishedRightly(files, a.files, id, status, write, a.error)
  {
    hide Find;
  }

  /** What was left reserved, among the records reached, is interrupted; nothing else changes. */
  predicate SweptRightly(files: Files, files': Files, reached: set<TaskId>) {
    && |files'| == |files|
    && forall i :: 0 <= i < |files| ==>
         && files'[i].id == files[i].id
         && files'[i].record.turns == files[i].record.turns && files'[i].record.provider == files[i].record.provider
         && files'[i].record.status ==
              if files[i].id in reached && files[i].record.status == Reserved then Interrupted else files[i].record.status
  }

  lemma SweepIsRight(files: Files, reached: set<TaskId>)
    ensures SweptRightly(files, Recover(files, reached), reached)
  {
  }
}
