/** `MysqlWireSource`: one of the workers runs the query and turns its rows into batches of columns. */
module Mysql {
  import opened Wrappers
  import I = Ingest
  import IngestOps

  // ---- Cells ----

  datatype Cell = Null | Bool(b: bool) | Int(i: int) | Text(s: string) | Bits(bits: nat)

  /** `strtof` and `strtod` on a whole cell: the bits, or `None` if it is not read to its end. */
  type Floats = (I.Type, string) -> Option<nat>

  predicate IsSpace(c: char) {
    c == ' ' || '\t' <= c <= '\r'
  }

  predicate IsDigit(c: char) {
    '0' <= c <= '9'
  }

  function SkipSpaces(s: string): string {
    if s != "" && IsSpace(s[0]) then SkipSpaces(s[1..]) else s
  }

  function Digits(s: string, acc: nat): Option<nat> {
    if s == "" then Some(acc) else if IsDigit(s[0]) then Digits(s[1..], 10 * acc + (s[0] - '0') as nat) else None
  }

  /** The number a cell spells: spaces, a sign and digits up to its end. */
  function Numeral(s: string): Option<int> {
    var t := SkipSpaces(s);
    var signed := t != "" && (t[0] == '-' || t[0] == '+');
    var digits := if signed then t[1..] else t;
    if digits == "" then None
    else
      var n :- Digits(digits, 0);
      Some(if signed && t[0] == '-' then 0 - n else n)
  }

  lemma {:induction false} DigitsAre(s: string, acc: nat, before: string)
    requires acc == IngestOps.Number(before)
    ensures Digits(s, acc) == if forall c :: c in s ==> '0' <= c <= '9' then Some(IngestOps.Number(before + s)) else None
    decreases |s|
  {
    if s == "" {
      assert before + s == before;
    } else if IsDigit(s[0]) {
      assert (before + [s[0]])[..|before|] == before;
      DigitsAre(s[1..], 10 * acc + (s[0] - '0') as nat, before + [s[0]]);
      assert before + s == before + [s[0]] + s[1..];
      FirstOf(s);
    } else {
      assert s[0] in s;
    }
  }

  lemma FirstOf(s: string)
    requires s != "" && '0' <= s[0] <= '9'
    ensures (forall c :: c in s ==> '0' <= c <= '9') <==> forall c :: c in s[1..] ==> '0' <= c <= '9'
  {
    var rest := s[1..];
    assert s == [s[0]] + rest;
    assert forall c :: c in s <==> c == s[0] || c in rest;
  }

  predicate IsSign(sign: string) {
    sign == "" || sign == "+" || sign == "-"
  }

  lemma {:induction false} Skipped(blank: string, t: string)
    requires (forall c :: c in blank ==> IsSpace(c)) && (t != "" ==> !IsSpace(t[0]))
    ensures SkipSpaces(blank + t) == t
  {
    if blank == "" {
      assert blank + t == t;
    } else {
      assert (blank + t)[1..] == blank[1..] + t;
      Skipped(blank[1..], t);
    }
  }

  /** Spaces, a sign and a decimal spell the number of the decimal with that sign. */
  lemma NumeralReads(blank: string, sign: string, digits: string)
    requires (forall c :: c in blank ==> IsSpace(c)) && IsSign(sign) && IngestOps.IsDecimal(digits)
    ensures Numeral(blank + sign + digits) == Some(if sign == "-" then 0 - IngestOps.Number(digits) else IngestOps.Number(digits))
  {
    hide Digits, SkipSpaces, IngestOps.Number;
    var t := sign + digits;
    assert '0' <= digits[0] <= '9' by { assert digits[0] in digits; }
    Skipped(blank, t);
    assert blank + sign + digits == blank + t;
    assert t[|sign|..] == digits;
    NoDigitsYet();
    DigitsAre(digits, 0, "");
    assert "" + digits == digits;
  }

  lemma NoDigitsYet()
    ensures IngestOps.Number("") == 0
  {
  }

  /** And nothing else spells a number. */
  lemma NumeralIs(s: string) returns (blank: string, sign: string, digits: string)
    requires Numeral(s).Some?
    ensures s == blank + sign + digits && (forall c :: c in blank ==> IsSpace(c)) && IsSign(sign) && IngestOps.IsDecimal(digits)
  {
    hide Digits, SkipSpaces, IngestOps.Number;
    var t := SkipSpaces(s);
    blank := Blank(s);
    var signed := t != "" && (t[0] == '-' || t[0] == '+');
    sign, digits := if signed then t[..1] else "", if signed then t[1..] else t;
    NoDigitsYet();
    DigitsAre(digits, 0, "");
    assert t == sign + digits;
  }

  /** What SkipSpaces skips. */
  lemma {:induction false} Blank(s: string) returns (blank: string)
    ensures s == blank + SkipSpaces(s) && forall c :: c in blank ==> IsSpace(c)
  {
    blank := "";
    if s != "" && IsSpace(s[0]) {
      blank := Blank(s[1..]);
      blank := [s[0]] + blank;
    }
  }

  /** The text of an integer reads as the integer. */
  lemma IntegersRead(i: int)
    ensures Numeral(IngestOps.KeyText(I.Int(i))) == Some(i)
  {
    hide Numeral, IngestOps.Digits, IngestOps.Number, IngestOps.IsDecimal;
    var n := if i < 0 then -i else i;
    var sign := if i < 0 then "-" else "";
    IngestOps.DigitsStandFor(n);
    NumeralReads("", sign, IngestOps.Digits(n));
    assert "" + sign + IngestOps.Digits(n) == IngestOps.KeyText(I.Int(i));
  }

  const INT64_MIN := -0x8000_0000_0000_0000
  const INT64_MAX := 0x7fff_ffff_ffff_ffff

  /** `strtol` stops at the ends of its range, which only `errno` tells. */
  function Clamped(n: int): int {
    if n < INT64_MIN then INT64_MIN else if n > INT64_MAX then INT64_MAX else n
  }

  function AppendBool(s: string): Option<Cell> {
    if s == "0" || s == "1" then Some(Bool(s == "1"))
    else if IngestOps.Lower(s) == "true" then Some(Bool(true))
    else if IngestOps.Lower(s) == "false" then Some(Bool(false))
    else
      var n :- Numeral(s);
      Some(Bool(Clamped(n) != 0))
  }

  function AppendInt32(s: string): Option<Cell> {
    var n :- Numeral(s);
    if -0x8000_0000 <= Clamped(n) <= 0x7fff_ffff then Some(Int(Clamped(n))) else None
  }

  function AppendInt64(s: string): Option<Cell> {
    var n :- Numeral(s);
    Some(Int(Clamped(n)))
  }

  /** `AppendForField` */
  function Append(floats: Floats, ty: I.Type, data: Option<string>): Option<Cell> {
    if data.None? then Some(Null)
    else
      match ty
      case Bool => AppendBool(data.value)
      case Int32 => AppendInt32(data.value)
      case Int64 => AppendInt64(data.value)
      case Float32 | Float64 =>
        var bits :- floats(ty, data.value);
        Some(Bits(bits))
      case String | Bytes => Some(Text(data.value))
  }

  /** A 32-bit cell is exactly the number it spells, or refused; a 64-bit cell is exactly the number it
      spells if and only if that number has 64 bits, and otherwise it becomes another one unnoticed. */
  lemma IntegersKept(floats: Floats, s: string, n: int)
    requires Numeral(s) == Some(n)
    ensures Append(floats, I.Int32, Some(s)) == (if -0x8000_0000 <= n < 0x8000_0000 then Some(Int(n)) else None)
    ensures Append(floats, I.Int64, Some(s)) == Some(Int(n)) <==> INT64_MIN <= n <= INT64_MAX
    ensures Append(floats, I.Int64, Some(s)).Some?
  {
  }

  /** A boolean cell is a number, true unless it is zero, or one of two words in whatever case. */
  lemma BooleansKept(floats: Floats, s: string)
    ensures Numeral(s).Some? ==> Append(floats, I.Bool, Some(s)) == Some(Bool(Numeral(s).value != 0))
    ensures IngestOps.SameLetters(s, "true") ==> Append(floats, I.Bool, Some(s)) == Some(Bool(true))
    ensures IngestOps.SameLetters(s, "false") ==> Append(floats, I.Bool, Some(s)) == Some(Bool(false))
    ensures Numeral(s).None? && !IngestOps.SameLetters(s, "true") && !IngestOps.SameLetters(s, "false") ==>
              Append(floats, I.Bool, Some(s)) == None
  {
    IngestOps.LowerIs(s, "true");
    IngestOps.LowerIs(s, "false");
    assert IngestOps.Lower("true") == "true" && IngestOps.Lower("false") == "false";
    hide Numeral, IngestOps.Lower;
    SmallNumerals();
    if Numeral(s).Some? { NoWord(s); }
  }

  lemma SmallNumerals()
    ensures Numeral("0") == Some(0) && Numeral("1") == Some(1)
  {
    IntegersRead(0);
    IntegersRead(1);
    assert IngestOps.KeyText(I.Int(0)) == "0" && IngestOps.KeyText(I.Int(1)) == "1";
  }

  /** What spells a number is none of the words. */
  lemma NoWord(s: string)
    requires Numeral(s).Some?
    ensures !IngestOps.SameLetters(s, "true") && !IngestOps.SameLetters(s, "false")
  {
    hide Numeral, IngestOps.Number;
    var blank, sign, digits := NumeralIs(s);
    var c := s[|s| - 1];
    assert c == digits[|digits| - 1] && c in digits;
  }

  /** A null cell is null whatever its type, and a text is kept as it is. */
  lemma OthersKept(floats: Floats, ty: I.Type, s: string)
    ensures Append(floats, ty, None) == Some(Null)
    ensures ty.String? || ty.Bytes? ==> Append(floats, ty, Some(s)) == Some(Text(s))
    ensures ty.Float32? || ty.Float64? ==>
              Append(floats, ty, Some(s)) == if floats(ty, s).Some? then Some(Bits(floats(ty, s).value)) else None
  {
  }

  // ---- Columns ----

  /** `NameEqualInsensitive` */
  predicate SameName(a: string, b: string) {
    IngestOps.Lower(a) == IngestOps.Lower(b)
  }

  lemma SameNameIs(a: string, b: string)
    ensures SameName(a, b) <==> IngestOps.SameLetters(a, b)
  {
    IngestOps.LowerIs(a, b);
  }

  datatype Mapping = Columns(index: seq<nat>) | Ambiguous(field: nat) | Missing(field: nat)

  /** Column `j`, and no other, is named like the field. */
  predicate OnlyMatch(def: I.FieldDef, names: seq<string>, j: nat) {
    j < |names| && forall k :: 0 <= k < |names| ==> (SameName(def.name, names[k]) <==> k == j)
  }

  predicate Mapped(fields: seq<I.FieldDef>, names: seq<string>, index: seq<nat>) {
    |index| <= |fields| && forall i :: 0 <= i < |index| ==> OnlyMatch(fields[i], names, index[i])
  }

  predicate TwoMatches(def: I.FieldDef, names: seq<string>) {
    exists j, k :: 0 <= j < k < |names| && SameName(def.name, names[j]) && SameName(def.name, names[k])
  }

  /** Finds the column of every field, or the first field that has none or more than one. */
  method MapColumns(fields: seq<I.FieldDef>, names: seq<string>) returns (m: Mapping)
    ensures m.Columns? ==> Mapped(fields, names, m.index) && |m.index| == |fields|
    ensures !m.Columns? ==> m.field < |fields| && exists before: seq<nat> :: Mapped(fields, names, before) && |before| == m.field
    ensures m.Missing? ==> forall k :: 0 <= k < |names| ==> !SameName(fields[m.field].name, names[k])
    ensures m.Ambiguous? ==> TwoMatches(fields[m.field], names)
  {
    hide SameName;
    var index: seq<nat> := [];
    for i := 0 to |fields|
      invariant Mapped(fields, names, index) && |index| == i
    {
      var found := -1;
      for j := 0 to |names|
        invariant -1 <= found < j
        invariant forall k :: 0 <= k < j ==> (SameName(fields[i].name, names[k]) <==> k == found)
      {
        if !SameName(fields[i].name, names[j]) { continue; }
        if found >= 0 {
          assert SameName(fields[i].name, names[found]);
          return Ambiguous(i);
        }
        found := j;
      }
      if found < 0 { return Missing(i); }
      index := index + [found];
    }
    m := Columns(index);
  }

  // ---- Batches ----

  /** A row of the result, null cells being `None`; and a record batch, column by column. */
  type Fetched = seq<Option<string>>
  datatype Batch = Batch(columns: seq<seq<Cell>>, rows: nat)

  /** Column `f` holds what the rows have there, in the order of the rows. */
  predicate IsTable(columns: seq<seq<Cell>>, fields: nat, rows: seq<seq<Cell>>) {
    && |columns| == fields && (forall r :: 0 <= r < |rows| ==> |rows[r]| == fields)
    && forall f :: 0 <= f < fields ==>
         |columns[f]| == |rows| && forall r :: 0 <= r < |rows| ==> columns[f][r] == rows[r][f]
  }

  /** The batches hold the rows, in order and nothing else. */
  predicate AreBatches(batches: seq<Batch>, fields: nat, rows: seq<seq<Cell>>) {
    if batches == [] then rows == []
    else
      var last := batches[|batches| - 1];
      && last.rows <= |rows|
      && IsTable(last.columns, fields, rows[|rows| - last.rows..])
      && AreBatches(batches[..|batches| - 1], fields, rows[..|rows| - last.rows])
  }

  predicate AllFull(batches: seq<Batch>, size: nat) {
    forall b :: 0 <= b < |batches| ==> batches[b].rows == size
  }

  /** All batches are full, but for the last, which is not empty. */
  predicate FullButLast(batches: seq<Batch>, size: nat) {
    batches == [] || (AllFull(batches[..|batches| - 1], size) && 0 < batches[|batches| - 1].rows <= size)
  }

  /** Every cell of the row can be converted to the type of its field. */
  predicate RowOk(floats: Floats, fields: seq<I.FieldDef>, index: seq<nat>, row: Fetched)
    requires InRow(fields, index, row)
  {
    forall f :: 0 <= f < |fields| ==> Append(floats, fields[f].ty, row[index[f]]).Some?
  }

  predicate InRow(fields: seq<I.FieldDef>, index: seq<nat>, row: Fetched) {
    |index| == |fields| && forall f :: 0 <= f < |index| ==> index[f] < |row|
  }

  /** The cells of a row in the order of the schema's fields. */
  function Converted(floats: Floats, fields: seq<I.FieldDef>, index: seq<nat>, row: Fetched): (cells: seq<Cell>)
    requires InRow(fields, index, row) && RowOk(floats, fields, index, row)
    ensures |cells| == |fields|
  {
    seq(|fields|, f requires 0 <= f < |fields| => Append(floats, fields[f].ty, row[index[f]]).value)
  }

  predicate RowsOk(floats: Floats, fields: seq<I.FieldDef>, index: seq<nat>, rows: seq<Fetched>) {
    forall r :: 0 <= r < |rows| ==> InRow(fields, index, rows[r]) && RowOk(floats, fields, index, rows[r])
  }

  function AllConverted(floats: Floats, fields: seq<I.FieldDef>, index: seq<nat>, rows: seq<Fetched>): (cells: seq<seq<Cell>>)
    requires RowsOk(floats, fields, index, rows)
    ensures |cells| == |rows| && forall r :: 0 <= r < |rows| ==> cells[r] == Converted(floats, fields, index, rows[r])
  {
    seq(|rows|, r requires 0 <= r < |rows| => Converted(floats, fields, index, rows[r]))
  }

  // ---- The source ----

  class BatchQueue {
    var pushed: seq<Batch>
    var aborted: bool

    /** A batch pushed after an abort is dropped. */
    method Push(batch: Batch)
      modifies this`pushed
      ensures pushed == if aborted then old(pushed) else old(pushed) + [batch]
    {
      if !aborted { pushed := pushed + [batch]; }
    }

    method Abort()
      modifies this`aborted
      ensures aborted
    {
      aborted := true;
    }
  }

  class ErrorState {
    var error: Option<string>

    /** The first error wins; no error is none. */
    method Set(status: Option<string>)
      modifies this
      ensures error == if old(error).Some? then old(error) else status
    {
      if error.None? { error := status; }
    }
  }

  /** Pushes what the builders hold, if anything. */
  method FlushBatch(q: BatchQueue, columns: seq<seq<Cell>>, ghost rows: seq<seq<Cell>>)
    requires columns != [] && IsTable(columns, |columns|, rows)
    modifies q`pushed
    ensures q.pushed == if rows == [] || q.aborted then old(q.pushed) else old(q.pushed) + [Batch(columns, |rows|)]
  {
    var nrows := |columns[0]|;
    if nrows == 0 { return; }
    q.Push(Batch(columns, nrows));
  }

  /** One row, cell by cell. */
  method AppendRow(floats: Floats, fields: seq<I.FieldDef>, index: seq<nat>, row: Fetched, columns: seq<seq<Cell>>, ghost rows: seq<seq<Cell>>)
    returns (ok: bool, more: seq<seq<Cell>>)
    requires InRow(fields, index, row) && IsTable(columns, |fields|, rows)
    ensures ok <==> RowOk(floats, fields, index, row)
    ensures ok ==> IsTable(more, |fields|, rows + [Converted(floats, fields, index, row)])
  {
    hide Append;
    more := columns;
    for f := 0 to |fields|
      invariant |more| == |fields|
      invariant forall g :: 0 <= g < f ==> Append(floats, fields[g].ty, row[index[g]]).Some?
      invariant forall g :: 0 <= g < |fields| ==>
                  more[g] == columns[g] + if g < f then [Append(floats, fields[g].ty, row[index[g]]).value] else []
    {
      var cell := Append(floats, fields[f].ty, row[index[f]]);
      if cell.None? { return false, []; }
      more := more[f := more[f] + [cell.value]];
    }
    ok := true;
  }

  datatype Connection =
    | Refused(message: string)
    | NoResult
    | Result(names: seq<string>, rows: seq<Fetched>, fetchError: Option<string>)

  predicate Rectangular(c: Connection) {
    c.Result? ==> forall r :: 0 <= r < |c.rows| ==> |c.rows[r]| == |c.names|
  }

  predicate NoArrays(fields: seq<I.FieldDef>) {
    forall f :: 0 <= f < |fields| ==> !fields[f].isArray
  }

  lemma NoRows(fields: nat)
    ensures IsTable(seq(fields, _ => []), fields, []) && AreBatches([], fields, [])
  {
  }

  lemma OneMoreBatch(batches: seq<Batch>, fields: nat, rows: seq<seq<Cell>>, columns: seq<seq<Cell>>, more: seq<seq<Cell>>)
    requires AreBatches(batches, fields, rows) && IsTable(columns, fields, more)
    ensures AreBatches(batches + [Batch(columns, |more|)], fields, rows + more)
  {
    var all := batches + [Batch(columns, |more|)];
    assert all[..|all| - 1] == batches;
    assert (rows + more)[|rows|..] == more && (rows + more)[..|rows|] == rows;
  }

  lemma FullOnes(batches: seq<Batch>, last: Batch, size: nat)
    requires AllFull(batches, size) && 0 < last.rows <= size
    ensures FullButLast(batches + [last], size)
    ensures last.rows == size ==> AllFull(batches + [last], size)
  {
    assert (batches + [last])[..|batches|] == batches;
  }

  lemma FullToo(batches: seq<Batch>, size: nat)
    requires AllFull(batches, size) && size > 0
    ensures FullButLast(batches, size)
  {
  }

  lemma ConvertedMore(floats: Floats, fields: seq<I.FieldDef>, index: seq<nat>, rows: seq<Fetched>, a: nat, b: nat)
    requires a <= b < |rows| && RowsOk(floats, fields, index, rows[a..b])
    requires InRow(fields, index, rows[b]) && RowOk(floats, fields, index, rows[b])
    ensures RowsOk(floats, fields, index, rows[a..b + 1])
    ensures AllConverted(floats, fields, index, rows[a..b + 1])
         == AllConverted(floats, fields, index, rows[a..b]) + [Converted(floats, fields, index, rows[b])]
  {
    hide RowOk, Converted;
    assert rows[a..b + 1] == rows[a..b] + [rows[b]];
  }

  lemma ConvertedJoin(floats: Floats, fields: seq<I.FieldDef>, index: seq<nat>, rows: seq<Fetched>, a: nat, b: nat)
    requires a <= b <= |rows| && RowsOk(floats, fields, index, rows[..a]) && RowsOk(floats, fields, index, rows[a..b])
    ensures RowsOk(floats, fields, index, rows[..b])
    ensures AllConverted(floats, fields, index, rows[..b])
         == AllConverted(floats, fields, index, rows[..a]) + AllConverted(floats, fields, index, rows[a..b])
  {
    hide RowOk, Converted, InRow;
    assert rows[..b] == rows[..a] + rows[a..b];
  }

  /** The batches pushed since `before` are those of the first `n` rows. */
  ghost predicate Delivered(floats: Floats, fields: seq<I.FieldDef>, index: seq<nat>, rows: seq<Fetched>, n: nat,
                            before: seq<Batch>, now: seq<Batch>)
  {
    && n <= |rows| && before <= now && RowsOk(floats, fields, index, rows[..n])
    && AreBatches(now[|before|..], |fields|, AllConverted(floats, fields, index, rows[..n]))
  }

  lemma DeliveredMore(floats: Floats, fields: seq<I.FieldDef>, index: seq<nat>, rows: seq<Fetched>, base: nat, n: nat,
                      before: seq<Batch>, now: seq<Batch>, columns: seq<seq<Cell>>)
    requires Delivered(floats, fields, index, rows, base, before, now) && base <= n <= |rows|
    requires RowsOk(floats, fields, index, rows[base..n])
    requires IsTable(columns, |fields|, AllConverted(floats, fields, index, rows[base..n]))
    ensures Delivered(floats, fields, index, rows, n, before, now + [Batch(columns, n - base)])
  {
    hide RowsOk, AllConverted, IsTable, AreBatches;
    ConvertedJoin(floats, fields, index, rows, base, n);
    assert (now + [Batch(columns, n - base)])[|before|..] == now[|before|..] + [Batch(columns, n - base)];
    OneMoreBatch(now[|before|..], |fields|, AllConverted(floats, fields, index, rows[..base]), columns,
                 AllConverted(floats, fields, index, rows[base..n]));
  }

  /** The batch about to be pushed keeps all of them full, or at least all before the last. */
  lemma OneBatchMore(floats: Floats, fields: seq<I.FieldDef>, index: seq<nat>, rows: seq<Fetched>, base: nat, n: nat,
                     before: seq<Batch>, now: seq<Batch>, columns: seq<seq<Cell>>, size: nat)
    requires Delivered(floats, fields, index, rows, base, before, now) && base < n <= |rows| && n - base <= size
    requires RowsOk(floats, fields, index, rows[base..n])
    requires IsTable(columns, |fields|, AllConverted(floats, fields, index, rows[base..n]))
    requires before <= now && AllFull(now[|before|..], size)
    ensures var pushed := now + [Batch(columns, n - base)];
            && Delivered(floats, fields, index, rows, n, before, pushed) && before <= pushed
            && FullButLast(pushed[|before|..], size) && (n - base == size ==> AllFull(pushed[|before|..], size))
  {
    hide RowsOk, AllConverted, IsTable, Delivered, AllFull, FullButLast;
    DeliveredMore(floats, fields, index, rows, base, n, before, now, columns);
    assert (now + [Batch(columns, n - base)])[|before|..] == now[|before|..] + [Batch(columns, n - base)];
    FullOnes(now[|before|..], Batch(columns, n - base), size);
  }

  class MysqlWireSource {
    const fields: seq<I.FieldDef>
    const batchRows: nat
    const floats: Floats
    var consumed: bool

    constructor (fields: seq<I.FieldDef>, batchRows: nat, floats: Floats)
      ensures this.fields == fields && this.batchRows == batchRows && this.floats == floats && !consumed
    {
      this.fields, this.batchRows, this.floats, consumed := fields, batchRows, floats, false;
    }

    function BatchSize(): (size: nat)
      ensures size > 0
    {
      if batchRows < 1 then 4096 else batchRows
    }

    /** Less than a batch after what was delivered came a row that cannot be converted, or the end by an error. */
    predicate StoppedAt(index: seq<nat>, rows: seq<Fetched>, fetchError: Option<string>, until: nat, delivered: nat) {
      || (fetchError.Some? && delivered <= |rows| < until && |rows| - delivered < BatchSize())
      || BadRow(index, rows, until, delivered)
    }

    predicate BadRow(index: seq<nat>, rows: seq<Fetched>, until: nat, delivered: nat) {
      exists r :: delivered <= r < delivered + BatchSize() && r < |rows| && r < until
                  && InRow(fields, index, rows[r]) && !RowOk(floats, fields, index, rows[r])
    }

    /** The rows of a result, up to the one before which another thread's error is seen, in batches of
        columns.  Without an error of its own every row is delivered; with one, whole batches only. */
    method FetchLoop(q: BatchQueue, err: ErrorState, index: seq<nat>, rows: seq<Fetched>, fetchError: Option<string>, until: nat)
      returns (ghost delivered: nat)
      requires fields != [] && !q.aborted && err.error.None?
      requires forall r :: 0 <= r < |rows| ==> InRow(fields, index, rows[r])
      modifies q, err
      ensures Delivered(floats, fields, index, rows, delivered, old(q.pushed), q.pushed)
      ensures FullButLast(q.pushed[|old(q.pushed)|..], if batchRows == 0 then 4096 else batchRows)
      ensures err.error.None? ==> !q.aborted && delivered == (if until < |rows| then until else |rows|)
      ensures err.error.None? ==> fetchError.None? || until <= |rows|
      ensures err.error.Some? ==> q.aborted && AllFull(q.pushed[|old(q.pushed)|..], BatchSize())
      ensures err.error.Some? ==> StoppedAt(index, rows, fetchError, until, delivered)
    {
      hide IsTable, AreBatches, AllFull, FullButLast, RowOk, AllConverted, InRow, RowsOk, Converted, Delivered;
      ghost var before := q.pushed;
      var size := BatchSize();
      var columns: seq<seq<Cell>> := seq(|fields|, _ => []);
      var r, inBatch := 0, 0;
      delivered := 0;
      Started(floats, fields, index, rows, before, size);
      ghost var cells: seq<seq<Cell>> := [];
      while r < until
        invariant 0 <= r <= |rows| && r <= until && delivered + inBatch == r && inBatch < size
        invariant !q.aborted && err.error.None? && size == BatchSize()
        invariant RowsOk(floats, fields, index, rows[delivered..r]) && |columns| == |fields|
        invariant IsTable(columns, |fields|, AllConverted(floats, fields, index, rows[delivered..r]))
        invariant Delivered(floats, fields, index, rows, delivered, before, q.pushed)
        invariant before <= q.pushed && AllFull(q.pushed[|before|..], size)
        decreases until - r
      {
        if r == |rows| {
          if fetchError.Some? {
            err.Set(fetchError);
            q.Abort();
          }
          break;
        }
        cells := AllConverted(floats, fields, index, rows[delivered..r]);
        var ok;
        ok, columns := AppendRow(floats, fields, index, rows[r], columns, cells);
        if !ok {
          err.Set(Some("bad cell"));
          q.Abort();
          FullToo(q.pushed[|before|..], size);
          assert BadRow(index, rows, until, delivered);
          return;
        }
        ConvertedMore(floats, fields, index, rows, delivered, r);
        TableWidth(columns, |fields|, cells + [Converted(floats, fields, index, rows[r])]);
        r := r + 1;
        inBatch := inBatch + 1;
        if inBatch >= size {
          OneBatchMore(floats, fields, index, rows, delivered, r, before, q.pushed, columns, size);
          FlushBatch(q, columns, AllConverted(floats, fields, index, rows[delivered..r]));
          columns := seq(|fields|, _ => []);
          Started(floats, fields, index, rows, before, size);
          delivered := r;
          NothingFetched(floats, fields, index, rows, r);
          inBatch := 0;
        }
      }
      FullToo(q.pushed[|before|..], size);
      if inBatch > 0 {
        OneBatchMore(floats, fields, index, rows, delivered, r, before, q.pushed, columns, size);
        FlushBatch(q, columns, AllConverted(floats, fields, index, rows[delivered..r]));
        if !q.aborted { delivered := r; }
      }
    }

    /** The first worker to come runs the query; all others leave at once. */
    method ProduceLoop(q: BatchQueue, err: ErrorState, connection: Connection, until: nat)
      returns (ghost delivered: nat, ghost index: seq<nat>)
      requires fields != [] && Rectangular(connection) && !q.aborted
      modifies this, q, err
      ensures consumed
      ensures old(consumed) ==> q.pushed == old(q.pushed) && q.aborted == old(q.aborted) && err.error == old(err.error)
      ensures !old(consumed) && err.error.Some? ==> q.aborted
      ensures old(err.error).Some? ==> err.error == old(err.error) && q.pushed == old(q.pushed)
      ensures !old(consumed) && err.error.None? ==> NoArrays(fields) && !connection.Refused? && !q.aborted
      ensures !old(consumed) && err.error.None? && connection.NoResult? ==> q.pushed == old(q.pushed)
      ensures !old(consumed) && err.error.None? && connection.Result? ==>
                && Mapped(fields, connection.names, index) && |index| == |fields|
                && delivered == (if until < |connection.rows| then until else |connection.rows|)
                && Delivered(floats, fields, index, connection.rows, delivered, old(q.pushed), q.pushed)
                && FullButLast(q.pushed[|old(q.pushed)|..], BatchSize())
    {
      hide IsTable, AreBatches, AllFull, FullButLast, Delivered;
      delivered, index := 0, [];
      if consumed { return; }
      consumed := true;
      var valid := ValidateNoArrayFields(fields);
      err.Set(if valid then None else Some("array fields not supported"));
      if err.error.Some? {
        q.Abort();
        return;
      }
      match connection
      case Refused(message) =>
        err.Set(Some(message));
        q.Abort();
      case NoResult =>
      case Result(names, rows, fetchError) =>
        var m := MapColumns(fields, names);
        if !m.Columns? {
          err.Set(Some(if m.Missing? then "result set missing column" else "ambiguous duplicate name"));
          q.Abort();
          return;
        }
        index := m.index;
        MappedInRow(fields, names, m.index, rows);
        delivered := FetchLoop(q, err, m.index, rows, fetchError, until);
    }
  }

  method ValidateNoArrayFields(fields: seq<I.FieldDef>) returns (ok: bool)
    ensures ok <==> NoArrays(fields)
  {
    for f := 0 to |fields|
      invariant forall g :: 0 <= g < f ==> !fields[g].isArray
    {
      if fields[f].isArray { return false; }
    }
    ok := true;
  }

  lemma MappedInRow(fields: seq<I.FieldDef>, names: seq<string>, index: seq<nat>, rows: seq<Fetched>)
    requires Mapped(fields, names, index) && |index| == |fields|
    requires forall r :: 0 <= r < |rows| ==> |rows[r]| == |names|
    ensures forall r :: 0 <= r < |rows| ==> InRow(fields, index, rows[r])
  {
    hide SameName;
    forall r, f | 0 <= r < |rows| && 0 <= f < |index|
      ensures index[f] < |rows[r]|
    {
      assert OnlyMatch(fields[f], names, index[f]);
    }
  }

  lemma TableWidth(columns: seq<seq<Cell>>, fields: nat, rows: seq<seq<Cell>>)
    requires IsTable(columns, fields, rows)
    ensures |columns| == fields
  {
  }

  lemma NothingFetched(floats: Floats, fields: seq<I.FieldDef>, index: seq<nat>, rows: seq<Fetched>, r: nat)
    requires r <= |rows|
    ensures RowsOk(floats, fields, index, rows[r..r]) && AllConverted(floats, fields, index, rows[r..r]) == []
    ensures IsTable(seq(|fields|, _ => []), |fields|, [])
  {
  }

  lemma Started(floats: Floats, fields: seq<I.FieldDef>, index: seq<nat>, rows: seq<Fetched>, before: seq<Batch>, size: nat)
    ensures RowsOk(floats, fields, index, rows[..0]) && rows[0..0] == rows[..0] == []
    ensures AllConverted(floats, fields, index, rows[0..0]) == [] && IsTable(seq(|fields|, _ => []), |fields|, [])
    ensures Delivered(floats, fields, index, rows, 0, before, before) && AllFull(before[|before|..], size)
  {
    assert rows[..0] == [] && before[|before|..] == [];
    NoRows(|fields|);
  }
}
