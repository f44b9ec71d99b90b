/**
 The paid-inference ledger: one record per task, a reservation written before each
 provider call and never refunded. `calls` is history, not stored: it counts the
 provider calls made on the strength of a reservation.
 */
module InferenceLedger {
  import opened Options

  type TaskId = string

  const MAX_TURNS := 8
  const TURN_RESERVE := 250000
  const TASK_BUDGET := 2000000
  const MONTH_BUDGET := 15000000
  const RETAINED := 256
  const TOKEN_LIMIT := 1000000
  const OPENAI := "openai"
  const ACCEPTANCE := "acceptance"

  datatype Status = Reserved | Interrupted | ReasoningCompleted | Failed(code: string)

  datatype Usage = Tokens(input: nat, output: nat, estimated: nat)

  datatype Turn = Turn(month: int, reserved: nat, usage: Option<Usage>, calls: nat)

  // Records written before providers were named count as openai's.
  datatype Record = Record(status: Status, turns: seq<Turn>, provider: Option<string>)

  datatype Entry = Entry(id: TaskId, record: Record)

  // The ledger directory, in the order of creation.
  type Files = seq<Entry>

  datatype Error = CodingFailure(code: string) | StorageError | MissingRecord | NoTurn

  /** How a durable write ends: done, failed without effect, or in effect although it raised. */
  datatype Write = Done | Lost | DoneThenRaised

  datatype Answer = Answer(files: Files, error: Option<Error>)

  function ProviderOf(record: Record): string {
    if record.provider.None? then OPENAI else record.provider.value
  }

  function Find(files: Files, id: TaskId): (i: Option<nat>)
    ensures i.Some? ==> i.value < |files| && files[i.value].id == id
    ensures i.None? ==> forall k :: 0 <= k < |files| ==> files[k].id != id
  {
    if files == [] then None
    else if files[|files| - 1].id == id then Some(|files| - 1)
    else Find(files[..|files| - 1], id)
  }

  function Written(files: Files, i: nat, record: Record, write: Write): Answer
    requires i < |files|
  {
    Answer(if write.Lost? then files else files[i := files[i].(record := record)],
           if write.Done? then None else Some(StorageError))
  }

  // ----- sums

  function MonthOfTurns(turns: seq<Turn>, month: int): nat {
    if turns == [] then 0
    else
      var last := turns[|turns| - 1];
      MonthOfTurns(turns[..|turns| - 1], month) + (if last.month == month then last.reserved else 0)
  }

  function Share(entry: Entry, provider: string, month: int): nat {
    if ProviderOf(entry.record) == provider then MonthOfTurns(entry.record.turns, month) else 0
  }

  /** What a provider's records have reserved in a month. */
  function MonthTotal(files: Files, provider: string, month: int): nat {
    if files == [] then 0
    else MonthTotal(files[..|files| - 1], provider, month) + Share(files[|files| - 1], provider, month)
  }

  lemma {:induction false} MonthTotalUpdate(files: Files, i: nat, entry: Entry, provider: string, month: int)
    requires i < |files|
    ensures MonthTotal(files[i := entry], provider, month)
         == MonthTotal(files, provider, month) - Share(files[i], provider, month) + Share(entry, provider, month)
    decreases |files|
  {
    var last := |files| - 1;
    var files' := files[i := entry];
    if i < last {
      assert files'[..last] == files[..last][i := entry];
      MonthTotalUpdate(files[..last], i, entry, provider, month);
    } else {
      assert files'[..last] == files[..last];
    }
  }

  // ----- operations

  function Start(files: Files, provider: string, id: TaskId, write: Write): Answer {
    if Find(files, id).Some? then Answer(files, Some(CodingFailure("interrupted")))
    else if |files| >= RETAINED then Answer(files, Some(CodingFailure("model_budget_exceeded")))
    else
      Answer(if write.Lost? then files else files + [Entry(id, Record(Status.Reserved, [], Some(provider)))],
             if write.Done? then None else Some(StorageError))
  }

  function Reserve(files: Files, provider: string, id: TaskId, month: int, priceReviewed: bool, write: Write): Answer {
    if !priceReviewed then Answer(files, Some(CodingFailure("model_budget_exceeded")))
    else
      var found := Find(files, id);
      if found.None? then Answer(files, Some(MissingRecord))
      else
        var record := files[found.value].record;
        if |record.turns| >= MAX_TURNS || (|record.turns| + 1) * TURN_RESERVE > TASK_BUDGET
           || (provider != ACCEPTANCE && MonthTotal(files, provider, month) + TURN_RESERVE > MONTH_BUDGET)
        then Answer(files, Some(CodingFailure("model_budget_exceeded")))
        else Written(files, found.value, record.(turns := record.turns + [Turn(month, TURN_RESERVE, None, 0)]), write)
  }

  function Estimate(input: nat, output: nat): nat {
    input * 3 + output * 11
  }

  /** `tokens` is None when the provider's usage is not two integers in range. */
  function RecordUsage(files: Files, id: TaskId, tokens: Option<(nat, nat)>, write: Write): Answer {
    if tokens.None? || tokens.value.0 > TOKEN_LIMIT || tokens.value.1 > TOKEN_LIMIT
    then Answer(files, Some(CodingFailure("model_invalid_response")))
    else
      var found := Find(files, id);
      if found.None? then Answer(files, Some(MissingRecord))
      else
        var record := files[found.value].record;
        if record.turns == [] then Answer(files, Some(NoTurn))
        else
          var last := |record.turns| - 1;
          var estimated := Estimate(tokens.value.0, tokens.value.1);
          var turn := record.turns[last].(usage := Some(Tokens(tokens.value.0, tokens.value.1, estimated)));
          var answer := Written(files, found.value, record.(turns := record.turns[last := turn]), write);
          if answer.error.None? && estimated > turn.reserved
          then answer.(error := Some(CodingFailure("model_budget_exceeded")))
          else answer
  }

  function Finish(files: Files, id: TaskId, status: Status, write: Write): Answer {
    var found := Find(files, id);
    if found.None? then Answer(files, Some(MissingRecord))
    else Written(files, found.value, files[found.value].record.(status := status), write)
  }

  function Recovered(entry: Entry): Entry {
    if entry.record.status.Reserved? then entry.(record := entry.record.(status := Interrupted)) else entry
  }

  /** Recovery over the records it reached: it takes them in any order, and a crash may stop it anywhere. */
  function Recover(files: Files, reached: set<TaskId>): Files {
    seq(|files|, i requires 0 <= i < |files| => if files[i].id in reached then Recovered(files[i]) else files[i])
  }

  // ----- the monthly cap at the ledger's interface

  ghost predicate WithinCap(files: Files) {
    forall month :: MonthTotal(files, OPENAI, month) <= MONTH_BUDGET
  }

  lemma MonthOfLongerTurns(turns: seq<Turn>, turn: Turn, month: int)
    ensures MonthOfTurns(turns + [turn], month)
         == MonthOfTurns(turns, month) + (if turn.month == month then turn.reserved else 0)
  {
    assert (turns + [turn])[..|turns|] == turns;
  }

  /** What one accepted reservation adds to the openai total of each month. */
  lemma ReserveAdds(files: Files, provider: string, id: TaskId, month: int, write: Write, m: int)
    requires Find(files, id).Some? && Reserve(files, provider, id, month, true, write).error.None?
    ensures var paid := ProviderOf(files[Find(files, id).value].record) == OPENAI;
      MonthTotal(Reserve(files, provider, id, month, true, write).files, OPENAI, m)
      == MonthTotal(files, OPENAI, m) + (if paid && m == month then TURN_RESERVE else 0)
  {
    hide MonthTotal, MonthOfTurns;
    var i := Find(files, id).value;
    var record := files[i].record;
    var turn := Turn(month, TURN_RESERVE, None, 0);
    MonthOfLongerTurns(record.turns, turn, m);
    MonthTotalUpdate(files, i, files[i].(record := record.(turns := record.turns + [turn])), OPENAI, m);
  }

  /**
   The cap does not hold at this interface alone. A reservation keeps it exactly when the record is not openai's,
   or the ledger's provider makes it look at the openai total, or there is headroom anyway.
   */
  lemma ReserveKeepsCap(files: Files, provider: string, id: TaskId, month: int)
    requires provider == OPENAI || provider == ACCEPTANCE
    requires WithinCap(files) && Find(files, id).Some?
    requires Reserve(files, provider, id, month, true, Done).error.None?
    ensures WithinCap(Reserve(files, provider, id, month, true, Done).files) <==>
      || ProviderOf(files[Find(files, id).value].record) != OPENAI
      || provider == OPENAI
      || MonthTotal(files, OPENAI, month) + TURN_RESERVE <= MONTH_BUDGET
  {
    var files' := Reserve(files, provider, id, month, true, Done).files;
    forall m
      ensures MonthTotal(files', OPENAI, m) == MonthTotal(files, OPENAI, m) +
        (if ProviderOf(files[Find(files, id).value].record) == OPENAI && m == month then TURN_RESERVE else 0)
    {
      ReserveAdds(files, provider, id, month, Done, m);
    }
    assert MonthTotal(files', OPENAI, month) <= MONTH_BUDGET || !WithinCap(files');
  }

  function ReservedTurns(n: nat, month: int): (turns: seq<Turn>)
    ensures |turns| == n
    ensures MonthOfTurns(turns, month) == n * TURN_RESERVE
    ensures forall m :: m != month ==> MonthOfTurns(turns, m) == 0
  {
    if n == 0 then []
    else
      var turns := ReservedTurns(n - 1, month);
      var turn := Turn(month, TURN_RESERVE, None, 0);
      MonthOfLongerTurns(turns, turn, month);
      assert forall m :: m != month ==> MonthOfTurns(turns + [turn], m) == 0 by {
        forall m | m != month ensures MonthOfTurns(turns + [turn], m) == 0 { MonthOfLongerTurns(turns, turn, m); }
      }
      turns + [turn]
  }

  function FullRecords(n: nat, month: int): (files: Files)
    ensures |files| == n
    ensures MonthTotal(files, OPENAI, month) == n * MAX_TURNS * TURN_RESERVE
    ensures forall m :: m != month ==> MonthTotal(files, OPENAI, m) == 0
  {
    if n == 0 then []
    else
      var files := FullRecords(n - 1, month);
      var entry := Entry(seq(n, _ => 'x'), Record(Status.Reserved, ReservedTurns(MAX_TURNS, month), Some(OPENAI)));
      assert (files + [entry])[..n - 1] == files;
      files + [entry]
  }

  /** An exhausted month, and one more reservation on an openai record through an acceptance ledger. */
  lemma CapCanBreak(month: int) returns (files: Files, id: TaskId)
    ensures WithinCap(files)
    ensures Reserve(files, ACCEPTANCE, id, month, true, Done).error.None?
    ensures !WithinCap(Reserve(files, ACCEPTANCE, id, month, true, Done).files)
    ensures Reserve(files, OPENAI, id, month, true, Done).error == Some(CodingFailure("model_budget_exceeded"))
  {
    id := "last";
    var full := FullRecords(7, month);
    var entry := Entry(id, Record(Status.Reserved, ReservedTurns(4, month), Some(OPENAI)));
    files := full + [entry];
    assert files[..7] == full;
    assert MonthTotal(files, OPENAI, month) == MONTH_BUDGET;
    forall m ensures MonthTotal(files, OPENAI, m) <= MONTH_BUDGET {
      assert m != month ==> MonthTotal(files, OPENAI, m) == 0;
    }
    assert Find(files, id) == Some(7);
    ReserveKeepsCap(files, ACCEPTANCE, id, month);
  }
}
