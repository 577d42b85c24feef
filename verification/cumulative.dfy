/** `add_cumulative_columns`: a drun performance trace is a header and a list
    of records; every record gets three running totals appended, of its
    instructions (column 3), accessed host pages (column 4) and dirtied host
    pages (column 5), columns counted from 1.

    The specification is `WithCumulativeColumns`, built from `Step` (one
    record) and `Walk` (the records in file order); the method
    `AddCumulativeColumns` is the loop of the source, updating the records in
    place, and is proved to compute the specification. */
module CumulativeColumns {
  import opened Results
  import opened Decimal

  type Field = string
  type Record = seq<Field>

  /** A CSV file: its header row and its records, in file order. */
  datatype Table = Table(header: Record, records: seq<Record>)

  /** 1-based indices of the three columns that are summed. */
  const INSTRUCTIONS_COL_IDX: nat := 3
  const ACCESSED_HOST_PAGES_COL_IDX: nat := 4
  const DIRTIED_HOST_PAGES_COL_IDX: nat := 5

  const TOTAL_INSTRUCTIONS: string := "total instructions"
  const TOTAL_ACCESSED_HOST_PAGES: string := "total accessed host pages"
  const TOTAL_DIRTIED_HOST_PAGES: string := "total dirtied host pages"

  const NOT_ENOUGH_COLUMNS: string := "CSV record doesn't have enough columns"

  /** The `Error` values the transform returns. */
  datatype Error = StringError(message: string) | IntParseError(kind: ParseIntError)

  /** The ways the transform panics instead of returning: an `unwrap` of a
      missing field or of a failed parse, or a `u64` addition that overflows
      (checked arithmetic). `column` is the 1-based column being summed. */
  datatype Panic =
    | UnwrapNone(column: nat)
    | UnwrapErr(column: nat, kind: ParseIntError)
    | AddOverflow(column: nat)

  /** Why a transform produced no output. */
  datatype Stop = Failed(error: Error) | Panicked(panic: Panic)

  /** The three running totals. */
  datatype Totals = Totals(instructions: nat, accessedHostPages: nat, dirtiedHostPages: nat)

  datatype Stepped = Stepped(record: Record, totals: Totals)
  datatype Walked = Walked(records: seq<Record>, totals: Totals)

  /** `StringRecord::get` with a 0-based index. */
  function Get(r: Record, i: nat): (o: Option<Field>)
    ensures o.Some? <==> i < |r|
    ensures o.Some? ==> o.value == r[i]
  {
    if i < |r| then Some(r[i]) else None
  }

  predicate Numeric(f: Field) {
    ParseU64(f).Ok?
  }

  /** The number a field holds, 0 if it holds none. */
  function Value(f: Field): nat {
    match ParseU64(f)
    case Ok(v) => v
    case Err(_) => 0
  }

  function CellValue(r: Record, k: nat): nat {
    if k < |r| then Value(r[k]) else 0
  }

  /** The sum of the values in 0-based column `k` over `rows`. */
  function ColumnSum(rows: seq<Record>, k: nat): nat
    decreases |rows|
  {
    if rows == [] then 0 else ColumnSum(rows[..|rows| - 1], k) + CellValue(rows[|rows| - 1], k)
  }

  /** The sums of the three summed columns over `rows`. */
  function ColumnTotals(rows: seq<Record>): Totals {
    Totals(
      ColumnSum(rows, INSTRUCTIONS_COL_IDX - 1),
      ColumnSum(rows, ACCESSED_HOST_PAGES_COL_IDX - 1),
      ColumnSum(rows, DIRTIED_HOST_PAGES_COL_IDX - 1))
  }

  predicate FitsU64(t: Totals) {
    t.instructions < U64_LIMIT && t.accessedHostPages < U64_LIMIT && t.dirtiedHostPages < U64_LIMIT
  }

  function TotalsText(t: Totals): Record {
    [NatToString(t.instructions), NatToString(t.accessedHostPages), NatToString(t.dirtiedHostPages)]
  }

  /** `out` is record `r`, which has at least the instructions column, with
      three fields appended. */
  predicate Augments(r: Record, out: Record) {
    && |r| >= INSTRUCTIONS_COL_IDX
    && |out| == |r| + 3
    && out[..|r|] == r
  }

  datatype Pushed = Pushed(record: Record, total: nat)

  /** Reads 1-based column `column` of `r` and parses it. The instructions
      column is read with `?`, so a missing or unparsable field is an
      `Error`; the other two are read with `unwrap`, so it is a panic. */
  function ReadColumn(r: Record, column: nat): (o: Result<nat, Stop>)
    requires column >= 1
    ensures o.Ok? <==> column - 1 < |r| && Numeric(r[column - 1])
    ensures o.Ok? ==> o.value == Value(r[column - 1])
    ensures o.Err? ==> (o.error.Failed? <==> column == INSTRUCTIONS_COL_IDX)
    ensures column - 1 >= |r| ==>
      o == Err(if column == INSTRUCTIONS_COL_IDX then Failed(StringError(NOT_ENOUGH_COLUMNS))
               else Panicked(UnwrapNone(column)))
    ensures column - 1 < |r| && ParseU64(r[column - 1]).Err? ==>
      o == Err(if column == INSTRUCTIONS_COL_IDX then Failed(IntParseError(ParseU64(r[column - 1]).error))
               else Panicked(UnwrapErr(column, ParseU64(r[column - 1]).error)))
  {
    match Get(r, column - 1)
    case None =>
      if column == INSTRUCTIONS_COL_IDX then Err(Failed(StringError(NOT_ENOUGH_COLUMNS)))
      else Err(Panicked(UnwrapNone(column)))
    case Some(field) =>
      match ParseU64(field)
      case Err(kind) =>
        if column == INSTRUCTIONS_COL_IDX then Err(Failed(IntParseError(kind)))
        else Err(Panicked(UnwrapErr(column, kind)))
      case Ok(v) => Ok(v)
  }

  /** `total += value; record.push_field(&total.to_string())` for one column. */
  function Accumulate(r: Record, column: nat, total: nat): (o: Result<Pushed, Stop>)
    requires column >= 1
    ensures o.Ok? ==>
      && column - 1 < |r| && Numeric(r[column - 1])
      && o.value.total == total + Value(r[column - 1]) < U64_LIMIT
      && o.value.record == r + [NatToString(o.value.total)]
    ensures o.Ok? <==> ReadColumn(r, column).Ok? && total + ReadColumn(r, column).value < U64_LIMIT
    ensures ReadColumn(r, column).Err? ==> o == Err(ReadColumn(r, column).error)
    ensures ReadColumn(r, column).Ok? && o.Err? ==> o.error == Panicked(AddOverflow(column))
  {
    match ReadColumn(r, column)
    case Err(stop) => Err(stop)
    case Ok(v) =>
      if total + v >= U64_LIMIT then Err(Panicked(AddOverflow(column)))
      else Ok(Pushed(r + [NatToString(total + v)], total + v))
  }

  /** One iteration of the loop over the records. Each column is read after
      the totals before it have been pushed onto the record, so a record
      with three fields reads its own new instructions total as column 4,
      and its own new accessed-pages total as column 5. */
  function Step(t: Totals, r: Record): (o: Result<Stepped, Stop>)
    ensures o.Ok? ==> Augments(r, o.value.record)
    ensures o == Err(Failed(StringError(NOT_ENOUGH_COLUMNS))) <==> |r| < INSTRUCTIONS_COL_IDX
    ensures !(o.Err? && o.error.Panicked? && o.error.panic.UnwrapNone?)
  {
    match Accumulate(r, INSTRUCTIONS_COL_IDX, t.instructions)
    case Err(stop) => Err(stop)
    case Ok(p1) =>
      match Accumulate(p1.record, ACCESSED_HOST_PAGES_COL_IDX, t.accessedHostPages)
      case Err(stop) => Err(stop)
      case Ok(p2) =>
        match Accumulate(p2.record, DIRTIED_HOST_PAGES_COL_IDX, t.dirtiedHostPages)
        case Err(stop) => Err(stop)
        case Ok(p3) =>
          assert p3.record[..|r|] == r;
          Ok(Stepped(p3.record, Totals(p1.total, p2.total, p3.total)))
  }

  /** The loop over `rs` in file order, from zero totals; the first record
      that fails or panics stops it. On success there is one output record
      per input record and the totals fit in `u64`. */
  function Walk(rs: seq<Record>): (o: Result<Walked, Stop>)
    ensures o.Ok? ==> |o.value.records| == |rs|
    ensures o.Ok? ==> FitsU64(o.value.totals)
    decreases |rs|
  {
    if rs == [] then Ok(Walked([], Totals(0, 0, 0)))
    else
      match Walk(rs[..|rs| - 1])
      case Err(stop) => Err(stop)
      case Ok(w) =>
        match Step(w.totals, rs[|rs| - 1])
        case Err(stop) => Err(stop)
        case Ok(s) =>
          var records := w.records + [s.record];
          assert records[..|records| - 1] == w.records;
          Ok(Walked(records, s.totals))
  }

  const TOTAL_LABELS: Record := [TOTAL_INSTRUCTIONS, TOTAL_ACCESSED_HOST_PAGES, TOTAL_DIRTIED_HOST_PAGES]

  /** The transformed table, or why there is none. */
  function WithCumulativeColumns(input: Table): (o: Result<Table, Stop>)
    ensures o.Ok? ==> o.value.header == input.header + TOTAL_LABELS
    ensures o.Ok? ==> |o.value.records| == |input.records|
  {
    match Walk(input.records)
    case Ok(w) => Ok(Table(input.header + TOTAL_LABELS, w.records))
    case Err(stop) => Err(stop)
  }

  /** The source's loop: the header gets the three labels, the records are
      collected into a buffer, then updated one by one in place with three
      running `u64` totals. */
  method AddCumulativeColumns(input: Table) returns (out: Result<Table, Stop>)
    ensures out == WithCumulativeColumns(input)
  {
    var headers := input.header;
    headers := headers + [TOTAL_INSTRUCTIONS];
    headers := headers + [TOTAL_ACCESSED_HOST_PAGES];
    headers := headers + [TOTAL_DIRTIED_HOST_PAGES];
    assert headers == input.header + TOTAL_LABELS;

    var records := new Record[|input.records|](i requires 0 <= i < |input.records| => input.records[i]);

    var totals := Totals(0, 0, 0);

    for i := 0 to records.Length
      invariant forall j :: i <= j < records.Length ==> records[j] == input.records[j]
      invariant Walk(input.records[..i]) == Ok(Walked(records[..i], totals))
    {
      var stepped := AdvanceRecord(records, i, totals, input.records);
      if stepped.Err? {
        out := Err(stepped.error);
        return;
      }
      totals := stepped.value;
    }
    assert input.records[..records.Length] == input.records;
    assert records[..records.Length] == records[..];
    out := Ok(Table(headers, records[..]));
  }

  /** One iteration of the loop, with what it means for the walk: after
      record `i` is updated, the buffer up to `i` is the walk of the input
      up to `i`, or the walk of the whole input stops where this record
      stopped. */
  method AdvanceRecord(records: array<Record>, i: nat, totals: Totals, ghost rs: seq<Record>)
    returns (o: Result<Totals, Stop>)
    requires i < records.Length == |rs|
    requires forall j :: i <= j < records.Length ==> records[j] == rs[j]
    requires Walk(rs[..i]) == Ok(Walked(records[..i], totals))
    modifies records
    ensures o.Ok? ==> forall j :: i < j < records.Length ==> records[j] == rs[j]
    ensures o.Ok? ==> Walk(rs[..i + 1]) == Ok(Walked(records[..i + 1], o.value))
    ensures o.Err? ==> Walk(rs) == Err(o.error)
  {
    ghost var before := Walked(records[..i], totals);
    ghost var buffer := records[..];
    assert records[i] == rs[i];
    o := UpdateRecord(records, i, totals);
    if o.Err? {
      StepStops(rs, i, before, o.error);
      StopPersists(rs, i + 1);
      return;
    }
    WalkExtends(rs, i, before, Stepped(records[i], o.value));
    assert records[..i + 1] == before.records + [records[i]];
  }

  /** The body of the loop over the records: the record at index `i` of the
      buffer gets the three running totals pushed onto it, each column read
      after the pushes before it. */
  method UpdateRecord(records: array<Record>, i: nat, totals: Totals) returns (o: Result<Totals, Stop>)
    requires i < records.Length
    modifies records
    ensures
      var s := Step(totals, old(records[i]));
      if s.Ok? then o == Ok(s.value.totals) && records[..] == old(records[..])[i := s.value.record]
      else o == Err(s.error)
  {
    ghost var original := records[i];

    var totalInstructions := PushRunningTotal(records, i, INSTRUCTIONS_COL_IDX, totals.instructions);
    ghost var first := Accumulate(original, INSTRUCTIONS_COL_IDX, totals.instructions);
    if totalInstructions.Err? {
      o := Err(totalInstructions.error);
      return;
    }
    assert records[i] == first.value.record;

    var totalAccessed := PushRunningTotal(records, i, ACCESSED_HOST_PAGES_COL_IDX, totals.accessedHostPages);
    ghost var second := Accumulate(first.value.record, ACCESSED_HOST_PAGES_COL_IDX, totals.accessedHostPages);
    if totalAccessed.Err? {
      o := Err(totalAccessed.error);
      return;
    }
    assert records[i] == second.value.record;

    var totalDirtied := PushRunningTotal(records, i, DIRTIED_HOST_PAGES_COL_IDX, totals.dirtiedHostPages);
    ghost var third := Accumulate(second.value.record, DIRTIED_HOST_PAGES_COL_IDX, totals.dirtiedHostPages);
    if totalDirtied.Err? {
      o := Err(totalDirtied.error);
      return;
    }
    assert records[i] == third.value.record;
    o := Ok(Totals(totalInstructions.value, totalAccessed.value, totalDirtied.value));
  }

  /** One column of the loop body, on the record at index `i` of the buffer:
      read the column (with `?` for the instructions column, with `unwrap`
      for the others), add it to `total` and push the new total onto the
      record. */
  method PushRunningTotal(records: array<Record>, i: nat, column: nat, total: nat)
    returns (o: Result<nat, Stop>)
    requires i < records.Length && column >= 1
    modifies records
    ensures
      var a := Accumulate(old(records[i]), column, total);
      if a.Ok? then o == Ok(a.value.total) && records[..] == old(records[..])[i := a.value.record]
      else o == Err(a.error)
  {
    var field := Get(records[i], column - 1);
    if field.None? {
      if column == INSTRUCTIONS_COL_IDX {
        o := Err(Failed(StringError(NOT_ENOUGH_COLUMNS)));
      } else {
        o := Err(Panicked(UnwrapNone(column)));
      }
      return;
    }
    var value := ParseU64(field.value);
    if value.Err? {
      if column == INSTRUCTIONS_COL_IDX {
        o := Err(Failed(IntParseError(value.error)));
      } else {
        o := Err(Panicked(UnwrapErr(column, value.error)));
      }
      return;
    }
    if total + value.value >= U64_LIMIT {
      o := Err(Panicked(AddOverflow(column)));
      return;
    }
    records[i] := records[i] + [NatToString(total + value.value)];
    o := Ok(total + value.value);
  }

  /** Once a prefix of the records stops the walk, the whole walk stops
      with the same reason. */
  lemma {:induction false} StopPersists(rs: seq<Record>, j: nat)
    requires j <= |rs|
    requires Walk(rs[..j]).Err?
    ensures Walk(rs) == Walk(rs[..j])
    decreases |rs|
  {
    if j < |rs| {
      var front := rs[..|rs| - 1];
      assert front[..j] == rs[..j];
      StopPersists(front, j);
    } else {
      assert rs[..j] == rs;
    }
  }

  /** A record that steps extends a successful walk by one record. */
  lemma WalkExtends(rs: seq<Record>, i: nat, w: Walked, s: Stepped)
    requires i < |rs|
    requires Walk(rs[..i]) == Ok(w)
    requires Step(w.totals, rs[i]) == Ok(s)
    ensures Walk(rs[..i + 1]) == Ok(Walked(w.records + [s.record], s.totals))
  {
    var upTo := rs[..i + 1];
    assert upTo[..|upTo| - 1] == rs[..i];
    assert upTo[|upTo| - 1] == rs[i];
  }

  /** A record that fails or panics stops the walk there. */
  lemma StepStops(rs: seq<Record>, i: nat, w: Walked, stop: Stop)
    requires i < |rs|
    requires Walk(rs[..i]) == Ok(w)
    requires Step(w.totals, rs[i]) == Err(stop)
    ensures Walk(rs[..i + 1]) == Err(stop)
  {
    var upTo := rs[..i + 1];
    assert upTo[..|upTo| - 1] == rs[..i];
    assert upTo[|upTo| - 1] == rs[i];
  }

  /** The running totals after a successful walk are the sums of the summed
      columns of the output records, as each column was read. */
  lemma {:induction false} WalkTotalsAreColumnSums(rs: seq<Record>)
    requires Walk(rs).Ok?
    ensures Walk(rs).value.totals == ColumnTotals(Walk(rs).value.records)
    decreases |rs|
  {
    if rs != [] {
      var front := rs[..|rs| - 1];
      WalkTotalsAreColumnSums(front);
      var w := Walk(front).value;
      var s := Step(w.totals, rs[|rs| - 1]).value;
      var records := Walk(rs).value.records;
      assert records == w.records + [s.record];
      assert records[..|records| - 1] == w.records;
    }
  }

  /** Every prefix of a successful walk is the walk of the input prefix, and
      its totals are the column sums of the output records so far. */
  lemma {:induction false} WalkPrefix(rs: seq<Record>, k: nat)
    requires Walk(rs).Ok? && k <= |rs|
    ensures
      var out := Walk(rs).value.records;
      Walk(rs[..k]) == Ok(Walked(out[..k], ColumnTotals(out[..k])))
    decreases |rs|
  {
    var out := Walk(rs).value.records;
    if k == |rs| {
      assert rs[..k] == rs;
      assert out[..k] == out;
      WalkTotalsAreColumnSums(rs);
    } else {
      var front := rs[..|rs| - 1];
      var w := Walk(front).value;
      var s := Step(w.totals, rs[|rs| - 1]).value;
      assert out == w.records + [s.record];
      WalkPrefix(front, k);
      assert front[..k] == rs[..k];
      assert w.records[..k] == out[..k];
    }
  }

  /** The exact effect of a successful step: the record gains the decimal
      texts of the new totals, and each total grows by the value its column
      holds in the output record (columns 4 and 5 of a short record are
      totals the step pushed itself). */
  lemma StepAppendsTotals(t: Totals, r: Record)
    requires Step(t, r).Ok?
    ensures
      var s := Step(t, r).value;
      && s.record == r + TotalsText(s.totals)
      && Numeric(s.record[INSTRUCTIONS_COL_IDX - 1])
      && Numeric(s.record[ACCESSED_HOST_PAGES_COL_IDX - 1])
      && Numeric(s.record[DIRTIED_HOST_PAGES_COL_IDX - 1])
      && s.totals == Totals(
        t.instructions + Value(s.record[INSTRUCTIONS_COL_IDX - 1]),
        t.accessedHostPages + Value(s.record[ACCESSED_HOST_PAGES_COL_IDX - 1]),
        t.dirtiedHostPages + Value(s.record[DIRTIED_HOST_PAGES_COL_IDX - 1]))
  {
  }

  /** The three fields appended to record `i` are the decimal texts of the
      sums of columns 3, 4 and 5 over the output records up to and including
      record `i`, as each of those columns was read; those columns hold
      numbers, and the input record itself has a numeric instructions field. */
  lemma CumulativeFieldsArePrefixSums(rs: seq<Record>, i: nat)
    requires Walk(rs).Ok? && i < |rs|
    ensures
      var out := Walk(rs).value.records;
      && out[i] == rs[i] + TotalsText(ColumnTotals(out[..i + 1]))
      && FitsU64(ColumnTotals(out[..i + 1]))
      && |rs[i]| >= INSTRUCTIONS_COL_IDX
      && Numeric(out[i][INSTRUCTIONS_COL_IDX - 1])
      && Numeric(out[i][ACCESSED_HOST_PAGES_COL_IDX - 1])
      && Numeric(out[i][DIRTIED_HOST_PAGES_COL_IDX - 1])
      && Numeric(rs[i][INSTRUCTIONS_COL_IDX - 1])
  {
    var out := Walk(rs).value.records;
    WalkPrefix(rs, i);
    WalkPrefix(rs, i + 1);
    var upTo := rs[..i + 1];
    assert upTo[..|upTo| - 1] == rs[..i];
    assert upTo[|upTo| - 1] == rs[i];
    var w := Walk(rs[..i]).value;
    var s := Step(w.totals, rs[i]).value;
    StepAppendsTotals(w.totals, rs[i]);
    assert Walk(upTo).value == Walked(w.records + [s.record], s.totals);
    assert out[i] == (out[..i + 1])[i] == s.record;
  }

  /** Column sums only grow along the records. */
  lemma {:induction false} ColumnSumMonotone(rows: seq<Record>, a: nat, b: nat, k: nat)
    requires a <= b <= |rows|
    ensures ColumnSum(rows[..a], k) <= ColumnSum(rows[..b], k)
    decreases b
  {
    if a < b {
      ColumnSumMonotone(rows, a, b - 1, k);
      assert rows[..b][..b - 1] == rows[..b - 1];
    }
  }

  /** The value of the decimal text of a `u64` is that number. */
  lemma ValueOfText(n: nat)
    requires n < U64_LIMIT
    ensures Numeric(NatToString(n)) && Value(NatToString(n)) == n
  {
    ParseNatToString(n);
  }

  /** Each output record of a successful walk is its input record, which
      has at least three fields, unchanged, with three fields appended. */
  lemma WalkAugmentsEachRecord(rs: seq<Record>, i: nat)
    requires Walk(rs).Ok? && i < |rs|
    ensures Augments(rs[i], Walk(rs).value.records[i])
  {
    CumulativeFieldsArePrefixSums(rs, i);
  }

  /** Reading back the decimal text of the column sums of `rows` appended to
      a record gives those sums. */
  lemma ReadBackTotals(r: Record, rows: seq<Record>, c: nat)
    requires FitsU64(ColumnTotals(rows)) && c < 3
    ensures
      var out := r + TotalsText(ColumnTotals(rows));
      Value(out[|r| + c]) == ColumnSum(rows, INSTRUCTIONS_COL_IDX - 1 + c)
  {
    var totals := ColumnTotals(rows);
    var out := r + TotalsText(totals);
    if c == 0 {
      assert out[|r| + c] == NatToString(totals.instructions);
      ValueOfText(totals.instructions);
    } else if c == 1 {
      assert out[|r| + c] == NatToString(totals.accessedHostPages);
      ValueOfText(totals.accessedHostPages);
    } else {
      assert out[|r| + c] == NatToString(totals.dirtiedHostPages);
      ValueOfText(totals.dirtiedHostPages);
    }
  }

  /** The value of appended field `c` of output record `i`: the sum of its
      summed column over the output records up to record `i`. */
  lemma AppendedFieldValue(rs: seq<Record>, i: nat, c: nat)
    requires Walk(rs).Ok? && i < |rs| && c < 3
    ensures
      var out := Walk(rs).value.records;
      && |out[i]| == |rs[i]| + 3
      && Value(out[i][|rs[i]| + c]) == ColumnSum(out[..i + 1], INSTRUCTIONS_COL_IDX - 1 + c)
  {
    CumulativeFieldsArePrefixSums(rs, i);
    ReadBackTotals(rs[i], Walk(rs).value.records[..i + 1], c);
  }

  /** Down the output, each cumulative column never decreases: the value of
      appended field `c` of record `i` is at most that of record `j`. */
  lemma TotalsNonDecreasing(rs: seq<Record>, i: nat, j: nat, c: nat)
    requires Walk(rs).Ok? && i <= j < |rs| && c < 3
    ensures
      var out := Walk(rs).value.records;
      && |out[i]| == |rs[i]| + 3 && |out[j]| == |rs[j]| + 3
      && Value(out[i][|rs[i]| + c]) <= Value(out[j][|rs[j]| + c])
  {
    AppendedFieldValue(rs, i, c);
    AppendedFieldValue(rs, j, c);
    ColumnSumMonotone(Walk(rs).value.records, i + 1, j + 1, INSTRUCTIONS_COL_IDX - 1 + c);
  }

  /** A record with exactly three fields has no accessed or dirtied column
      of its own: column 4 is its new instructions total and column 5 its new
      accessed-pages total, so each total grows by the total before it. */
  lemma ThreeFieldRecordReadsItsOwnTotals(t: Totals, r: Record)
    requires |r| == 3 && Numeric(r[INSTRUCTIONS_COL_IDX - 1])
    ensures
      var instructions := t.instructions + Value(r[INSTRUCTIONS_COL_IDX - 1]);
      var accessed := t.accessedHostPages + instructions;
      var dirtied := t.dirtiedHostPages + accessed;
      Step(t, r) ==
        if instructions >= U64_LIMIT then Err(Panicked(AddOverflow(INSTRUCTIONS_COL_IDX)))
        else if accessed >= U64_LIMIT then Err(Panicked(AddOverflow(ACCESSED_HOST_PAGES_COL_IDX)))
        else if dirtied >= U64_LIMIT then Err(Panicked(AddOverflow(DIRTIED_HOST_PAGES_COL_IDX)))
        else Ok(Stepped(r + TotalsText(Totals(instructions, accessed, dirtied)), Totals(instructions, accessed, dirtied)))
  {
    var instructions := t.instructions + Value(r[INSTRUCTIONS_COL_IDX - 1]);
    var accessed := t.accessedHostPages + instructions;
    if instructions < U64_LIMIT {
      ValueOfText(instructions);
      var p1 := Accumulate(r, INSTRUCTIONS_COL_IDX, t.instructions).value;
      assert p1.record[3] == NatToString(instructions);
      assert ReadColumn(p1.record, ACCESSED_HOST_PAGES_COL_IDX) == Ok(instructions);
      if accessed < U64_LIMIT {
        ValueOfText(accessed);
        var p2 := Accumulate(p1.record, ACCESSED_HOST_PAGES_COL_IDX, t.accessedHostPages).value;
        assert p2.record[4] == NatToString(accessed);
        assert ReadColumn(p2.record, DIRTIED_HOST_PAGES_COL_IDX) == Ok(accessed);
        if t.dirtiedHostPages + accessed < U64_LIMIT {
          var p3 := Accumulate(p2.record, DIRTIED_HOST_PAGES_COL_IDX, t.dirtiedHostPages).value;
          assert p3.record == r + TotalsText(Totals(instructions, accessed, t.dirtiedHostPages + accessed));
        }
      }
    }
  }

  /** A record with exactly four fields has no dirtied column of its own:
      column 5 is its new instructions total. */
  lemma FourFieldRecordReadsItsOwnTotal(t: Totals, r: Record)
    requires |r| == 4 && Numeric(r[INSTRUCTIONS_COL_IDX - 1]) && Numeric(r[ACCESSED_HOST_PAGES_COL_IDX - 1])
    ensures
      var instructions := t.instructions + Value(r[INSTRUCTIONS_COL_IDX - 1]);
      var accessed := t.accessedHostPages + Value(r[ACCESSED_HOST_PAGES_COL_IDX - 1]);
      var dirtied := t.dirtiedHostPages + instructions;
      Step(t, r) ==
        if instructions >= U64_LIMIT then Err(Panicked(AddOverflow(INSTRUCTIONS_COL_IDX)))
        else if accessed >= U64_LIMIT then Err(Panicked(AddOverflow(ACCESSED_HOST_PAGES_COL_IDX)))
        else if dirtied >= U64_LIMIT then Err(Panicked(AddOverflow(DIRTIED_HOST_PAGES_COL_IDX)))
        else Ok(Stepped(r + TotalsText(Totals(instructions, accessed, dirtied)), Totals(instructions, accessed, dirtied)))
  {
    var instructions := t.instructions + Value(r[INSTRUCTIONS_COL_IDX - 1]);
    var accessed := t.accessedHostPages + Value(r[ACCESSED_HOST_PAGES_COL_IDX - 1]);
    var dirtied := t.dirtiedHostPages + instructions;
    if instructions < U64_LIMIT {
      ValueOfText(instructions);
      var p1 := Accumulate(r, INSTRUCTIONS_COL_IDX, t.instructions).value;
      assert p1.record[3] == r[3];
      if accessed < U64_LIMIT {
        var p2 := Accumulate(p1.record, ACCESSED_HOST_PAGES_COL_IDX, t.accessedHostPages).value;
        assert p2.record[4] == NatToString(instructions);
        assert ReadColumn(p2.record, DIRTIED_HOST_PAGES_COL_IDX) == Ok(instructions);
        if dirtied < U64_LIMIT {
          var p3 := Accumulate(p2.record, DIRTIED_HOST_PAGES_COL_IDX, t.dirtiedHostPages).value;
          assert p3.record == r + TotalsText(Totals(instructions, accessed, dirtied));
        }
      }
    }
  }

  /** A record with all three summed columns, each numeric, reads its own
      fields; it steps exactly when the new totals fit in a `u64`. */
  lemma StepReadsInputColumns(t: Totals, r: Record)
    requires |r| >= DIRTIED_HOST_PAGES_COL_IDX
    requires Numeric(r[INSTRUCTIONS_COL_IDX - 1])
    requires Numeric(r[ACCESSED_HOST_PAGES_COL_IDX - 1])
    requires Numeric(r[DIRTIED_HOST_PAGES_COL_IDX - 1])
    ensures
      var next := Totals(
        t.instructions + Value(r[INSTRUCTIONS_COL_IDX - 1]),
        t.accessedHostPages + Value(r[ACCESSED_HOST_PAGES_COL_IDX - 1]),
        t.dirtiedHostPages + Value(r[DIRTIED_HOST_PAGES_COL_IDX - 1]));
      Step(t, r) ==
        if next.instructions >= U64_LIMIT then Err(Panicked(AddOverflow(INSTRUCTIONS_COL_IDX)))
        else if next.accessedHostPages >= U64_LIMIT then Err(Panicked(AddOverflow(ACCESSED_HOST_PAGES_COL_IDX)))
        else if next.dirtiedHostPages >= U64_LIMIT then Err(Panicked(AddOverflow(DIRTIED_HOST_PAGES_COL_IDX)))
        else Ok(Stepped(r + TotalsText(next), next))
  {
    var instructions := t.instructions + Value(r[INSTRUCTIONS_COL_IDX - 1]);
    var accessed := t.accessedHostPages + Value(r[ACCESSED_HOST_PAGES_COL_IDX - 1]);
    if instructions < U64_LIMIT {
      var p1 := Accumulate(r, INSTRUCTIONS_COL_IDX, t.instructions).value;
      assert p1.record[3] == r[3];
      if accessed < U64_LIMIT {
        var p2 := Accumulate(p1.record, ACCESSED_HOST_PAGES_COL_IDX, t.accessedHostPages).value;
        assert p2.record[4] == r[4];
        assert ReadColumn(p2.record, DIRTIED_HOST_PAGES_COL_IDX) == Ok(Value(r[4]));
        if t.dirtiedHostPages + Value(r[4]) < U64_LIMIT {
          var p3 := Accumulate(p2.record, DIRTIED_HOST_PAGES_COL_IDX, t.dirtiedHostPages).value;
          assert p3.record == r + [NatToString(instructions), NatToString(accessed), NatToString(p3.total)];
        }
      }
    }
  }

  /** A record as the drun traces have them: all three summed columns are
      present and hold numbers. */
  predicate WellFormed(r: Record) {
    && |r| >= DIRTIED_HOST_PAGES_COL_IDX
    && Numeric(r[INSTRUCTIONS_COL_IDX - 1])
    && Numeric(r[ACCESSED_HOST_PAGES_COL_IDX - 1])
    && Numeric(r[DIRTIED_HOST_PAGES_COL_IDX - 1])
  }

  /** The output records a well-formed trace is expected to give: each
      record followed by the texts of the column sums up to it. */
  predicate CarriesPrefixSums(rs: seq<Record>, out: seq<Record>) {
    && |out| == |rs|
    && forall i :: 0 <= i < |rs| ==> out[i] == rs[i] + TotalsText(ColumnTotals(rs[..i + 1]))
  }

  lemma CarriesPrefixSumsSnoc(rs: seq<Record>, out: seq<Record>)
    requires rs != [] && CarriesPrefixSums(rs[..|rs| - 1], out)
    ensures CarriesPrefixSums(rs, out + [rs[|rs| - 1] + TotalsText(ColumnTotals(rs))])
  {
    var front := rs[..|rs| - 1];
    var out' := out + [rs[|rs| - 1] + TotalsText(ColumnTotals(rs))];
    forall i | 0 <= i < |rs|
      ensures out'[i] == rs[i] + TotalsText(ColumnTotals(rs[..i + 1]))
    {
      if i < |front| {
        assert front[..i + 1] == rs[..i + 1];
      } else {
        assert rs[..i + 1] == rs;
      }
    }
  }

  /** The sums over a prefix are at most the sums over the whole. */
  lemma FrontFits(rs: seq<Record>)
    requires rs != [] && FitsU64(ColumnTotals(rs))
    ensures FitsU64(ColumnTotals(rs[..|rs| - 1]))
  {
  }

  /** On well-formed records whose column sums fit in a `u64` the transform
      succeeds; record `i` gets the sums of the input columns over records
      0 to `i`, and the final totals are the sums over all records. */
  lemma {:induction false} WellFormedTraceSucceeds(rs: seq<Record>)
    requires forall i :: 0 <= i < |rs| ==> WellFormed(rs[i])
    requires FitsU64(ColumnTotals(rs))
    ensures Walk(rs).Ok?
    ensures Walk(rs).value.totals == ColumnTotals(rs)
    ensures CarriesPrefixSums(rs, Walk(rs).value.records)
    decreases |rs|
  {
    if rs != [] {
      var front := rs[..|rs| - 1];
      var last := rs[|rs| - 1];
      FrontFits(rs);
      WellFormedTraceSucceeds(front);
      var w := Walk(front).value;
      StepReadsInputColumns(w.totals, last);
      var s := Step(w.totals, last).value;
      assert s.totals == ColumnTotals(rs);
      CarriesPrefixSumsSnoc(rs, w.records);
    }
  }

  /** A record with fewer than three fields, reached by the loop, makes the
      transform fail with "CSV record doesn't have enough columns". */
  lemma ShortRecordFails(rs: seq<Record>, i: nat)
    requires i < |rs| && Walk(rs[..i]).Ok? && |rs[i]| < INSTRUCTIONS_COL_IDX
    ensures Walk(rs) == Err(Failed(StringError(NOT_ENOUGH_COLUMNS)))
  {
    StepStops(rs, i, Walk(rs[..i]).value, Failed(StringError(NOT_ENOUGH_COLUMNS)));
    StopPersists(rs, i + 1);
  }

  /** An instructions field that is not a `u64`, reached by the loop, makes
      the transform fail with that parse error. */
  lemma UnparsableInstructionsFail(rs: seq<Record>, i: nat, kind: ParseIntError)
    requires i < |rs| && Walk(rs[..i]).Ok?
    requires |rs[i]| >= INSTRUCTIONS_COL_IDX && ParseU64(rs[i][INSTRUCTIONS_COL_IDX - 1]) == Err(kind)
    ensures Walk(rs) == Err(Failed(IntParseError(kind)))
  {
    var w := Walk(rs[..i]).value;
    assert ReadColumn(rs[i], INSTRUCTIONS_COL_IDX) == Err(Failed(IntParseError(kind)));
    StepStops(rs, i, w, Failed(IntParseError(kind)));
    StopPersists(rs, i + 1);
  }

  /** A failed `unwrap` of a parse can only be in columns 4 and 5, and only
      on a field the record had on input: the totals the step pushes always
      parse. */
  lemma UnwrapErrBlamesInputField(t: Totals, r: Record, column: nat, kind: ParseIntError)
    requires Step(t, r) == Err(Panicked(UnwrapErr(column, kind)))
    ensures column == ACCESSED_HOST_PAGES_COL_IDX || column == DIRTIED_HOST_PAGES_COL_IDX
    ensures column - 1 < |r| && ParseU64(r[column - 1]) == Err(kind)
  {
    var p1 := Accumulate(r, INSTRUCTIONS_COL_IDX, t.instructions).value;
    ValueOfText(p1.total);
    assert p1.record[|r|] == NatToString(p1.total);
    var a2 := Accumulate(p1.record, ACCESSED_HOST_PAGES_COL_IDX, t.accessedHostPages);
    if a2.Err? {
      assert column == ACCESSED_HOST_PAGES_COL_IDX;
    } else {
      var p2 := a2.value;
      ValueOfText(p2.total);
      assert p2.record[|r| + 1] == NatToString(p2.total);
      assert p2.record[..|r| + 1] == p1.record;
      assert column == DIRTIED_HOST_PAGES_COL_IDX;
    }
  }

  /** An accessed-pages field that is not a `u64`, in a record whose
      instructions are summed without overflow, makes the step panic in the
      `unwrap` of column 4 with that parse error. */
  lemma UnparsableAccessedPanics(t: Totals, r: Record, kind: ParseIntError)
    requires |r| >= ACCESSED_HOST_PAGES_COL_IDX
    requires Numeric(r[INSTRUCTIONS_COL_IDX - 1])
    requires t.instructions + Value(r[INSTRUCTIONS_COL_IDX - 1]) < U64_LIMIT
    requires ParseU64(r[ACCESSED_HOST_PAGES_COL_IDX - 1]) == Err(kind)
    ensures Step(t, r) == Err(Panicked(UnwrapErr(ACCESSED_HOST_PAGES_COL_IDX, kind)))
  {
    var p1 := Accumulate(r, INSTRUCTIONS_COL_IDX, t.instructions).value;
    assert p1.record[3] == r[3];
  }

  /** A dirtied-pages field that is not a `u64`, in a record whose first two
      summed columns are numbers summed without overflow, makes the step
      panic in the `unwrap` of column 5 with that parse error. */
  lemma UnparsableDirtiedPanics(t: Totals, r: Record, kind: ParseIntError)
    requires |r| >= DIRTIED_HOST_PAGES_COL_IDX
    requires Numeric(r[INSTRUCTIONS_COL_IDX - 1]) && Numeric(r[ACCESSED_HOST_PAGES_COL_IDX - 1])
    requires t.instructions + Value(r[INSTRUCTIONS_COL_IDX - 1]) < U64_LIMIT
    requires t.accessedHostPages + Value(r[ACCESSED_HOST_PAGES_COL_IDX - 1]) < U64_LIMIT
    requires ParseU64(r[DIRTIED_HOST_PAGES_COL_IDX - 1]) == Err(kind)
    ensures Step(t, r) == Err(Panicked(UnwrapErr(DIRTIED_HOST_PAGES_COL_IDX, kind)))
  {
    var p1 := Accumulate(r, INSTRUCTIONS_COL_IDX, t.instructions).value;
    assert p1.record[3] == r[3];
    var p2 := Accumulate(p1.record, ACCESSED_HOST_PAGES_COL_IDX, t.accessedHostPages).value;
    assert p2.record[4] == r[4];
  }

  /** A bad accessed-pages field, reached by the loop after a successful
      instructions sum, makes the whole transform panic there. */
  lemma UnparsableAccessedPanicsWalk(rs: seq<Record>, i: nat, kind: ParseIntError)
    requires i < |rs| && Walk(rs[..i]).Ok?
    requires |rs[i]| >= ACCESSED_HOST_PAGES_COL_IDX && Numeric(rs[i][INSTRUCTIONS_COL_IDX - 1])
    requires Walk(rs[..i]).value.totals.instructions + Value(rs[i][INSTRUCTIONS_COL_IDX - 1]) < U64_LIMIT
    requires ParseU64(rs[i][ACCESSED_HOST_PAGES_COL_IDX - 1]) == Err(kind)
    ensures Walk(rs) == Err(Panicked(UnwrapErr(ACCESSED_HOST_PAGES_COL_IDX, kind)))
  {
    var w := Walk(rs[..i]).value;
    UnparsableAccessedPanics(w.totals, rs[i], kind);
    StepStops(rs, i, w, Panicked(UnwrapErr(ACCESSED_HOST_PAGES_COL_IDX, kind)));
    StopPersists(rs, i + 1);
  }

  /** A bad dirtied-pages field, reached by the loop after successful sums
      of the first two columns, makes the whole transform panic there. */
  lemma UnparsableDirtiedPanicsWalk(rs: seq<Record>, i: nat, kind: ParseIntError)
    requires i < |rs| && Walk(rs[..i]).Ok?
    requires |rs[i]| >= DIRTIED_HOST_PAGES_COL_IDX
    requires Numeric(rs[i][INSTRUCTIONS_COL_IDX - 1]) && Numeric(rs[i][ACCESSED_HOST_PAGES_COL_IDX - 1])
    requires Walk(rs[..i]).value.totals.instructions + Value(rs[i][INSTRUCTIONS_COL_IDX - 1]) < U64_LIMIT
    requires Walk(rs[..i]).value.totals.accessedHostPages + Value(rs[i][ACCESSED_HOST_PAGES_COL_IDX - 1]) < U64_LIMIT
    requires ParseU64(rs[i][DIRTIED_HOST_PAGES_COL_IDX - 1]) == Err(kind)
    ensures Walk(rs) == Err(Panicked(UnwrapErr(DIRTIED_HOST_PAGES_COL_IDX, kind)))
  {
    var w := Walk(rs[..i]).value;
    UnparsableDirtiedPanics(w.totals, rs[i], kind);
    StepStops(rs, i, w, Panicked(UnwrapErr(DIRTIED_HOST_PAGES_COL_IDX, kind)));
    StopPersists(rs, i + 1);
  }
}
