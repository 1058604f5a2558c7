/** `obtener_datos` after the quote service has answered: the checks on the decoded reply and
    the step-by-step normalisation of the bar table (lower-cased names, a synthesised close,
    a datetime index in ascending order, numeric price columns, no missing values). */
module DataProviders {
  import opened Frames
  import opened Indicators

  /** The columns `pd.to_numeric(errors='coerce')` is applied to, in order. */
  const Coerced: seq<string> := ["open", "high", "low", "close", "volume"]
  const OpenHighLow: set<string> := {"open", "high", "low"}

  /** `if not API_KEY`: an unset or empty key. */
  predicate KeyPresent(apiKey: Option<string>)
  {
    apiKey.Some? && apiKey.value != ""
  }

  /** The reply as the code sees it: `Unreadable` when the request or `response.json()` raises;
      otherwise the "status" field (when it is a string) and the "values" records (when the
      field is there), each record a map from field name to text. */
  datatype Response = Unreadable | Json(status: Option<string>, values: Option<seq<map<string, Text>>>)

  // ---------------------------------------------------------------------------
  // pd.DataFrame(valores) and the lower-cased names

  function RecordNames(records: seq<map<string, Text>>): set<string>
  {
    set r, k | r in records && k in r :: k
  }

  /** One row per record, one column per field name seen in any record, NaN where a record
      lacks the field; the index is the record's position. */
  function Build(records: seq<map<string, Text>>): (f: Frame)
    ensures WellFormed(f) && f.names == RecordNames(records) && |f.rows| == |records|
    ensures forall i, k :: 0 <= i < |records| && k in records[i] ==> f.rows[i].cells[k] == Str(records[i][k])
    ensures forall i, k :: 0 <= i < |records| && k in f.names && k !in records[i] ==> f.rows[i].cells[k] == NaN
  {
    var names := RecordNames(records);
    Frame(names, seq(|records|, i requires 0 <= i < |records| =>
      Row(i, map k | k in names :: if k in records[i] then Str(records[i][k]) else NaN)))
  }

  /** Every field of every record sits in the record's row under its lower-cased name. */
  predicate HoldsFields(records: seq<map<string, Text>>, t: Frame)
  {
    && |t.rows| == |records|
    && forall i, k :: 0 <= i < |records| && k in records[i] ==>
         Lower(k) in t.rows[i].cells && t.rows[i].cells[Lower(k)] == Str(records[i][k])
  }

  /** A field that some record has and another lacks is NaN in the row of the one lacking it. */
  predicate HoldsGaps(records: seq<map<string, Text>>, t: Frame)
  {
    && |t.rows| == |records|
    && forall i, k :: 0 <= i < |records| && k in RecordNames(records) && k !in records[i] ==>
         Lower(k) in t.rows[i].cells && t.rows[i].cells[Lower(k)] == NaN
  }

  /** The table with lower-cased names; `None` when two names coincide once lower-cased. */
  function Tabulate(records: seq<map<string, Text>>): (t: Option<Frame>)
    ensures t.Some? ==> WellFormed(t.value) && t.value.names == LowerNames(RecordNames(records))
    ensures t.Some? ==> |t.value.rows| == |records| && forall k :: k in t.value.names ==> IsLower(k)
    ensures t.Some? <==> LowerInjective(RecordNames(records))
    ensures t.Some? ==> HoldsFields(records, t.value) && HoldsGaps(records, t.value)
  {
    var f := Build(records);
    if LowerInjective(f.names) then
      LowerNamesAllLower(f.names);
      TabulateCells(records, f, LowerFrame(f));
      Some(LowerFrame(f))
    else None
  }

  /** Each field of a record lands in its row under its lower-cased name. */
  lemma TabulateCells(records: seq<map<string, Text>>, f: Frame, g: Frame)
    requires f == Build(records) && LowerInjective(f.names) && g == LowerFrame(f)
    ensures HoldsFields(records, g) && HoldsGaps(records, g)
  {
    forall i, k | 0 <= i < |records| && k in records[i]
      ensures Lower(k) in g.rows[i].cells && g.rows[i].cells[Lower(k)] == Str(records[i][k])
    {
      assert records[i] in records;
      assert k in f.names;
    }
  }

  // ---------------------------------------------------------------------------
  // Close synthesis: df[["open","high","low"]].astype(float).mean(axis=1)

  /** `astype(float)` raises on text that is not a number. */
  predicate FloatFails(c: Cell)
  {
    c.Str? && c.text.number.None?
  }

  function NumCount(cs: seq<Cell>): nat
  {
    if cs == [] then 0 else (if cs[0].Num? then 1 else 0) + NumCount(cs[1..])
  }

  function NumSum(cs: seq<Cell>): real
  {
    if cs == [] then 0.0 else (if cs[0].Num? then cs[0].v else 0.0) + NumSum(cs[1..])
  }

  /** `mean(axis=1)`, which skips NaN: the mean of the floats, NaN when there is none. */
  function Mean(cs: seq<Cell>): Cell
  {
    if NumCount(cs) == 0 then NaN else Num(NumSum(cs) / NumCount(cs) as real)
  }

  /** The synthesised close of a row. `astype(float)` on cells where it does not raise reads
      them as `to_numeric` does. */
  function CloseOf(r: Row): Cell
    requires OpenHighLow <= r.cells.Keys
  {
    Mean([ToNumeric(r.cells["open"]), ToNumeric(r.cells["high"]), ToNumeric(r.cells["low"])])
  }

  predicate Convertible(f: Frame)
    requires WellFormed(f) && OpenHighLow <= f.names
  {
    forall i, k :: 0 <= i < |f.rows| && k in OpenHighLow ==> !FloatFails(f.rows[i].cells[k])
  }

  function SynthesiseClose(f: Frame): (g: Option<Frame>)
    requires WellFormed(f) && OpenHighLow <= f.names
    ensures g.Some? <==> Convertible(f)
    ensures g.Some? ==> WellFormed(g.value) && g.value.names == f.names + {"close"} && |g.value.rows| == |f.rows|
    ensures g.Some? ==> forall i :: 0 <= i < |f.rows| ==>
      g.value.rows[i] == Row(f.rows[i].stamp, f.rows[i].cells["close" := CloseOf(f.rows[i])])
  {
    if Convertible(f) then
      Some(WithColumn(f, "close", seq(|f.rows|, i requires 0 <= i < |f.rows| => CloseOf(f.rows[i]))))
    else None
  }

  /** A present close is kept; otherwise it is synthesised, which fails when open, high or low
      is missing or one of their cells is not a number. */
  function EnsureClose(f: Frame): (g: Option<Frame>)
    requires WellFormed(f)
    ensures g.Some? ==> WellFormed(g.value) && g.value.names == f.names + {"close"} && |g.value.rows| == |f.rows|
    ensures "close" in f.names ==> g == Some(f)
    ensures "close" !in f.names && !(OpenHighLow <= f.names) ==> g.None?
    ensures "close" !in f.names && OpenHighLow <= f.names ==> (g.Some? <==> Convertible(f))
    ensures "close" !in f.names && g.Some? ==> OpenHighLow <= f.names && forall i :: 0 <= i < |f.rows| ==>
      g.value.rows[i] == Row(f.rows[i].stamp, f.rows[i].cells["close" := CloseOf(f.rows[i])])
  {
    if "close" in f.names then Some(f)
    else if !(OpenHighLow <= f.names) then None
    else SynthesiseClose(f)
  }

  /** Where open, high and low all read as numbers, the synthesised close is their mean. */
  lemma CloseIsMean(f: Frame, i: nat, o: real, h: real, l: real)
    requires WellFormed(f) && OpenHighLow <= f.names && SynthesiseClose(f).Some? && i < |f.rows|
    requires ToNumeric(f.rows[i].cells["open"]) == Num(o)
    requires ToNumeric(f.rows[i].cells["high"]) == Num(h)
    requires ToNumeric(f.rows[i].cells["low"]) == Num(l)
    ensures SynthesiseClose(f).value.rows[i].cells["close"] == Num((o + h + l) / 3.0)
  {
    var cs := [Num(o), Num(h), Num(l)];
    assert cs[1..] == [Num(h), Num(l)] && cs[1..][1..] == [Num(l)] && cs[1..][1..][1..] == [];
    assert NumCount(cs[1..][1..]) == 1 && NumSum(cs[1..][1..]) == l;
    assert NumCount(cs[1..]) == 2 && NumSum(cs[1..]) == h + l;
    assert NumCount(cs) == 3 && NumSum(cs) == o + h + l;
  }

  /** Where none of open, high and low reads as a number, the synthesised close is NaN. */
  lemma CloseWithoutReadings(f: Frame, i: nat)
    requires WellFormed(f) && OpenHighLow <= f.names && SynthesiseClose(f).Some? && i < |f.rows|
    requires forall k :: k in OpenHighLow ==> ToNumeric(f.rows[i].cells[k]) == NaN
    ensures SynthesiseClose(f).value.rows[i].cells["close"] == NaN
  {
    var cs := [NaN, NaN, NaN];
    assert cs[1..] == [NaN, NaN] && cs[1..][1..] == [NaN] && cs[1..][1..][1..] == [];
    assert NumCount(cs[1..][1..]) == 0 && NumCount(cs[1..]) == 0;
    assert NumCount(cs) == 0;
  }

  // ---------------------------------------------------------------------------
  // The datetime index: to_datetime, set_index, sort_index

  function StampOf(c: Cell): int
  {
    if c.Str? && c.text.stamp.Some? then c.text.stamp.value else 0
  }

  /** `pd.to_datetime` succeeds on every cell of the datetime column. */
  predicate Parses(f: Frame)
    requires WellFormed(f) && "datetime" in f.names
  {
    forall i :: 0 <= i < |f.rows| ==> f.rows[i].cells["datetime"].Str? && f.rows[i].cells["datetime"].text.stamp.Some?
  }

  /** One row of `set_index("datetime")`: its datetime cell becomes the index. */
  function IndexRow(r: Row): Row
    requires "datetime" in r.cells
  {
    Row(StampOf(r.cells["datetime"]), r.cells - {"datetime"})
  }

  /** `set_index("datetime")`: the parsed datetime becomes each row's index and leaves the
      columns; every other cell stays. */
  function SetIndex(f: Frame): (g: Frame)
    requires WellFormed(f) && "datetime" in f.names
    ensures WellFormed(g) && g.names == f.names - {"datetime"} && |g.rows| == |f.rows|
    ensures forall i :: 0 <= i < |f.rows| ==> g.rows[i] == IndexRow(f.rows[i])
    ensures forall i :: 0 <= i < |f.rows| ==> g.rows[i].cells == f.rows[i].cells - {"datetime"}
    ensures Parses(f) ==> forall i :: 0 <= i < |f.rows| ==> g.rows[i].stamp == f.rows[i].cells["datetime"].text.stamp.value
  {
    Frame(f.names - {"datetime"}, seq(|f.rows|, i requires 0 <= i < |f.rows| => IndexRow(f.rows[i])))
  }

  predicate Sorted(rows: seq<Row>)
  {
    forall i, j :: 0 <= i < j < |rows| ==> rows[i].stamp <= rows[j].stamp
  }

  function Insert(r: Row, rows: seq<Row>): (out: seq<Row>)
    requires Sorted(rows)
    ensures |out| == |rows| + 1 && forall x :: x in out <==> x == r || x in rows
    ensures Sorted(out)
  {
    if rows == [] then [r]
    else if r.stamp <= rows[0].stamp then [r] + rows
    else
      var rest := Insert(r, rows[1..]);
      assert forall j :: 0 <= j < |rest| ==> rest[j] == r || rest[j] in rows[1..];
      [rows[0]] + rest
  }

  lemma {:induction false} InsertPermutes(r: Row, rows: seq<Row>)
    requires Sorted(rows)
    ensures multiset(Insert(r, rows)) == multiset(rows) + multiset{r}
    decreases |rows|
  {
    if rows != [] && r.stamp > rows[0].stamp {
      InsertPermutes(r, rows[1..]);
      assert rows == [rows[0]] + rows[1..];
      assert Insert(r, rows) == [rows[0]] + Insert(r, rows[1..]);
    }
  }

  /** `sort_index()`: the same rows, ascending by timestamp. */
  function SortRows(rows: seq<Row>): (out: seq<Row>)
    ensures |out| == |rows| && forall x :: x in out <==> x in rows
    ensures Sorted(out)
  {
    if rows == [] then []
    else
      assert forall x :: x in rows ==> x == rows[0] || x in rows[1..];
      Insert(rows[0], SortRows(rows[1..]))
  }

  /** Sorting keeps every row as often as it occurs. */
  lemma {:induction false} SortPermutes(rows: seq<Row>)
    ensures multiset(SortRows(rows)) == multiset(rows)
    decreases |rows|
  {
    if rows != [] {
      SortPermutes(rows[1..]);
      InsertPermutes(rows[0], SortRows(rows[1..]));
      assert rows == [rows[0]] + rows[1..];
    }
  }

  /** `sort_index()` on a frame: the same rows, as often as before, ascending by timestamp. */
  function SortIndex(f: Frame): (g: Frame)
    requires WellFormed(f)
    ensures WellFormed(g) && g.names == f.names && Sorted(g.rows) && |g.rows| == |f.rows|
    ensures multiset(g.rows) == multiset(f.rows)
    ensures forall r :: r in g.rows <==> r in f.rows
  {
    var out := SortRows(f.rows);
    SortPermutes(f.rows);
    assert forall j :: 0 <= j < |out| ==> out[j] in f.rows;
    Frame(f.names, out)
  }

  /** A reply whose datetime column is missing, or has a cell that does not parse, fails;
      otherwise the rows are re-indexed by datetime and sorted. */
  function IndexByDatetime(f: Frame): (g: Option<Frame>)
    requires WellFormed(f)
    ensures g.Some? <==> "datetime" in f.names && Parses(f)
    ensures g.Some? ==> WellFormed(g.value) && g.value.names == f.names - {"datetime"} && Sorted(g.value.rows)
    ensures g.Some? ==> |g.value.rows| == |f.rows| && multiset(g.value.rows) == multiset(SetIndex(f).rows)
    ensures g.Some? ==> forall r :: r in g.value.rows <==>
      exists i :: 0 <= i < |f.rows| && "datetime" in f.rows[i].cells && r == IndexRow(f.rows[i])
  {
    if "datetime" in f.names && Parses(f) then Some(SortIndex(SetIndex(f))) else None
  }

  // ---------------------------------------------------------------------------
  // pd.to_numeric(errors='coerce') on the price and volume columns

  /** Text becomes its number, or NaN when it is not one; floats and NaN stay. */
  function ToNumeric(c: Cell): (d: Cell)
    ensures !d.Str?
    ensures !c.Str? ==> d == c
    ensures c.Str? && c.text.number.Some? ==> d == Num(c.text.number.value)
    ensures c.Str? && c.text.number.None? ==> d == NaN
  {
    if c.Str? then (if c.text.number.Some? then Num(c.text.number.value) else NaN) else c
  }

  function CoerceColumn(f: Frame, col: string): (g: Frame)
    requires WellFormed(f) && col in f.names
    ensures WellFormed(g) && g.names == f.names && |g.rows| == |f.rows|
    ensures forall i :: 0 <= i < |f.rows| ==>
      g.rows[i] == Row(f.rows[i].stamp, f.rows[i].cells[col := ToNumeric(f.rows[i].cells[col])])
  {
    WithColumn(f, col, seq(|f.rows|, i requires 0 <= i < |f.rows| => ToNumeric(f.rows[i].cells[col])))
  }

  /** The coercion loop over `cols`: afterwards every cell of a listed column present in the
      frame is `to_numeric` of what it was, the other columns are unchanged, and so are the
      timestamps. */
  function CoerceAll(f: Frame, cols: seq<string>): (g: Frame)
    requires WellFormed(f)
    ensures WellFormed(g) && g.names == f.names && |g.rows| == |f.rows|
    ensures forall i :: 0 <= i < |f.rows| ==> g.rows[i].stamp == f.rows[i].stamp
    ensures forall c, i :: c in cols && c in f.names && 0 <= i < |g.rows| ==> g.rows[i].cells[c] == ToNumeric(f.rows[i].cells[c])
    ensures forall c, i :: c in cols && c in f.names && 0 <= i < |g.rows| ==> !g.rows[i].cells[c].Str?
    ensures forall c, i :: c !in cols && c in f.names && 0 <= i < |g.rows| ==> g.rows[i].cells[c] == f.rows[i].cells[c]
    decreases |cols|
  {
    if cols == [] then f
    else
      var h := if cols[0] in f.names then CoerceColumn(f, cols[0]) else f;
      CoerceAll(h, cols[1..])
  }

  /** One row after the coercion loop: its price and volume cells are `to_numeric` of what
      they were. */
  function CoerceRow(r: Row): Row
  {
    Row(r.stamp, map k | k in r.cells :: if k in Coerced then ToNumeric(r.cells[k]) else r.cells[k])
  }

  /** A row as `obtener_datos` finishes with it before `dropna()`: indexed by its parsed
      datetime, without the datetime column, its price and volume cells coerced. */
  function CleanRow(r: Row): Row
    requires "datetime" in r.cells
  {
    CoerceRow(IndexRow(r))
  }

  /** The coercion loop treats each row on its own. */
  lemma CoerceAllRows(f: Frame)
    requires WellFormed(f)
    ensures forall i :: 0 <= i < |f.rows| ==> CoerceAll(f, Coerced).rows[i] == CoerceRow(f.rows[i])
  {
    var g := CoerceAll(f, Coerced);
    forall i | 0 <= i < |f.rows| ensures g.rows[i] == CoerceRow(f.rows[i]) {
      var want := CoerceRow(f.rows[i]);
      assert g.rows[i].cells.Keys == want.cells.Keys;
      forall k | k in want.cells ensures g.rows[i].cells[k] == want.cells[k] {
        assert k in f.names;
      }
      assert g.rows[i].cells == want.cells;
    }
  }

  // ---------------------------------------------------------------------------
  // dropna()

  predicate Complete(r: Row)
  {
    forall k :: k in r.cells ==> !r.cells[k].NaN?
  }

  /** Keeps the complete rows and drops the others. */
  function CompleteRows(rows: seq<Row>): (out: seq<Row>)
    ensures forall x :: x in out <==> x in rows && Complete(x)
    ensures |out| <= |rows|
    ensures Sorted(rows) ==> Sorted(out)
  {
    if rows == [] then []
    else
      var rest := CompleteRows(rows[1..]);
      if Complete(rows[0]) then
        assert forall j :: 0 <= j < |rest| ==> rest[j] in rows[1..];
        [rows[0]] + rest
      else rest
  }

  /** `dropna()` keeps each complete row as many times as it occurs and drops the others. */
  lemma {:induction false} CompleteRowsCounts(rows: seq<Row>)
    ensures forall x :: multiset(CompleteRows(rows))[x] == if Complete(x) then multiset(rows)[x] else 0
  {
    if rows != [] {
      CompleteRowsCounts(rows[1..]);
      assert rows == [rows[0]] + rows[1..];
    }
  }

  function DropNa(f: Frame): (g: Frame)
    requires WellFormed(f)
    ensures WellFormed(g) && g.names == f.names
    ensures forall i :: 0 <= i < |g.rows| ==> Complete(g.rows[i]) && g.rows[i] in f.rows
    ensures forall r :: r in g.rows <==> r in f.rows && Complete(r)
    ensures forall r :: multiset(g.rows)[r] == if Complete(r) then multiset(f.rows)[r] else 0
    ensures |g.rows| <= |f.rows| && (Sorted(f.rows) ==> Sorted(g.rows))
  {
    var out := CompleteRows(f.rows);
    CompleteRowsCounts(f.rows);
    assert forall j :: 0 <= j < |out| ==> out[j] in f.rows;
    Frame(f.names, out)
  }

  // ---------------------------------------------------------------------------
  // The whole normalisation

  /** The records the code goes on with; `None` for an unreadable reply, an error status, and
      missing or empty "values". */
  function Records(response: Response): Option<seq<map<string, Text>>>
  {
    match response
    case Unreadable => None
    case Json(status, values) =>
      if status == Some("error") || values.None? || values.value == [] then None else values
  }

  /** Every open, high or low field of every record, whatever its case, reads as a number. */
  predicate ReadingsConvert(records: seq<map<string, Text>>)
  {
    forall i, k :: 0 <= i < |records| && k in records[i] && Lower(k) in OpenHighLow ==> records[i][k].number.Some?
  }

  /** Every row's close is the mean of its open, high and low. */
  predicate ClosesAreMeans(t: Frame)
  {
    forall i :: 0 <= i < |t.rows| ==>
      OpenHighLow <= t.rows[i].cells.Keys && "close" in t.rows[i].cells && t.rows[i].cells["close"] == CloseOf(t.rows[i])
  }

  /** The table with lower-cased names and a close column; `None` on a name collision or when
      close can be neither found nor synthesised. Every field of the records is in it, and a
      close it had to add is the mean of open, high and low. */
  function Table(records: seq<map<string, Text>>): (t: Option<Frame>)
    ensures t.Some? <==> (LowerInjective(RecordNames(records)) &&
      ("close" in LowerNames(RecordNames(records)) ||
       (OpenHighLow <= LowerNames(RecordNames(records)) && ReadingsConvert(records))))
    ensures t.Some? ==> t.value.names == LowerNames(RecordNames(records)) + {"close"}
    ensures t.Some? ==> WellFormed(t.value) && |t.value.rows| == |records|
    ensures t.Some? ==> "close" in t.value.names && forall k :: k in t.value.names ==> IsLower(k)
    ensures t.Some? ==> HoldsFields(records, t.value) && HoldsGaps(records, t.value)
    ensures t.Some? && "close" !in LowerNames(RecordNames(records)) ==> ClosesAreMeans(t.value)
  {
    match Tabulate(records)
    case None => None
    case Some(t) =>
      var r := EnsureClose(t);
      CloseUnlessListed(records, t, r);
      TableSucceeds(records, t, r);
      CloseIsLower();
      assert r.Some? ==> r.value.names == t.names + {"close"};
      r
  }

  /** Adding a close keeps every field of the tabulated records, and the close is the mean of
      open, high and low. */
  lemma TableCells(records: seq<map<string, Text>>, t: Frame, r: Frame)
    requires WellFormed(t) && "close" !in t.names && HoldsFields(records, t) && HoldsGaps(records, t)
    requires EnsureClose(t) == Some(r)
    ensures HoldsFields(records, r) && HoldsGaps(records, r) && ClosesAreMeans(r)
  {
    forall i | 0 <= i < |t.rows|
      ensures r.rows[i] == Row(t.rows[i].stamp, t.rows[i].cells["close" := CloseOf(t.rows[i])])
    {
    }
  }

  /** The open, high and low cells of the table convert exactly when the records' readings do:
      a cell is either a record's field or the NaN of a gap. */
  lemma ConvertibleReadings(records: seq<map<string, Text>>, t: Frame)
    requires WellFormed(t) && t.names == LowerNames(RecordNames(records)) && OpenHighLow <= t.names
    requires HoldsFields(records, t) && HoldsGaps(records, t)
    ensures Convertible(t) <==> ReadingsConvert(records)
  {
    if Convertible(t) {
      forall i, k | 0 <= i < |records| && k in records[i] && Lower(k) in OpenHighLow
        ensures records[i][k].number.Some?
      {
        assert !FloatFails(t.rows[i].cells[Lower(k)]);
      }
    }
    if ReadingsConvert(records) {
      forall i, c | 0 <= i < |t.rows| && c in OpenHighLow ensures !FloatFails(t.rows[i].cells[c]) {
        var k :| k in RecordNames(records) && Lower(k) == c;
        if k in records[i] {
          assert t.rows[i].cells[c] == Str(records[i][k]);
        } else {
          assert t.rows[i].cells[c] == NaN;
        }
      }
    }
  }

  /** Once tabulated, a table results exactly when close is listed or open, high and low are
      all listed and read as numbers. */
  lemma TableSucceeds(records: seq<map<string, Text>>, t: Frame, r: Option<Frame>)
    requires Tabulate(records) == Some(t) && r == EnsureClose(t)
    ensures r.Some? <==> ("close" in LowerNames(RecordNames(records)) ||
      (OpenHighLow <= LowerNames(RecordNames(records)) && ReadingsConvert(records)))
  {
    if "close" !in t.names && OpenHighLow <= t.names {
      ConvertibleReadings(records, t);
    }
  }

  /** Table's last two postconditions, case by case on whether close was listed. */
  lemma CloseUnlessListed(records: seq<map<string, Text>>, t: Frame, r: Option<Frame>)
    requires WellFormed(t) && HoldsFields(records, t) && HoldsGaps(records, t) && r == EnsureClose(t)
    ensures r.Some? ==> HoldsFields(records, r.value) && HoldsGaps(records, r.value)
    ensures r.Some? && "close" !in t.names ==> ClosesAreMeans(r.value)
  {
    if "close" !in t.names && r.Some? {
      TableCells(records, t, r.value);
    }
  }

  /** Each row of `source` coerced, in order. */
  function CoerceRows(rows: seq<Row>): seq<Row>
  {
    seq(|rows|, i requires 0 <= i < |rows| => CoerceRow(rows[i]))
  }

  predicate Indexable(source: seq<Row>)
  {
    forall i :: 0 <= i < |source| ==> "datetime" in source[i].cells
  }

  /** Each row of `source` indexed and coerced, in order. */
  function CleanRows(source: seq<Row>): seq<Row>
    requires Indexable(source)
  {
    seq(|source|, i requires 0 <= i < |source| => CleanRow(source[i]))
  }

  /** Rows that are, in any order, the complete ones among the cleaned rows of `source`, each
      as many times as it occurs there. */
  ghost predicate CleanedFrom(rows: seq<Row>, source: seq<Row>)
  {
    && (forall r :: r in rows <==>
          Complete(r) && exists i :: 0 <= i < |source| && "datetime" in source[i].cells && r == CleanRow(source[i]))
    && Indexable(source)
    && forall r :: multiset(rows)[r] == if Complete(r) then multiset(CleanRows(source))[r] else 0
  }

  /** The datetime index, coercion and `dropna()`; `None` when the datetime column is missing
      or does not parse. The rows kept are the complete cleaned rows of the input. */
  function Indexed(f: Frame): (g: Option<Frame>)
    requires WellFormed(f)
    ensures g.Some? <==> "datetime" in f.names && Parses(f)
    ensures g.Some? ==> WellFormed(g.value) && g.value.names == f.names - {"datetime"}
    ensures g.Some? ==> Sorted(g.value.rows) && |g.value.rows| <= |f.rows|
    ensures g.Some? ==> forall i :: 0 <= i < |g.value.rows| ==> Complete(g.value.rows[i])
    ensures g.Some? ==> forall c :: c in Coerced && c in g.value.names ==> NumericColumn(g.value, c)
    ensures g.Some? ==> CleanedFrom(g.value.rows, f.rows)
  {
    match IndexByDatetime(f)
    case None => None
    case Some(x) =>
      var y := CoerceAll(x, Coerced);
      CompleteCoercedNumeric(y);
      SameStampsSorted(x.rows, y.rows);
      IndexedRows(f, x, y);
      Some(DropNa(y))
  }

  /** After `dropna()`, the rows are the complete cleaned input rows, in some order. */
  lemma IndexedRows(f: Frame, x: Frame, y: Frame)
    requires WellFormed(f) && IndexByDatetime(f) == Some(x) && y == CoerceAll(x, Coerced)
    ensures CleanedFrom(DropNa(y).rows, f.rows)
  {
    CoerceAllRows(x);
    CleanedRows(f.rows, x.rows, y.rows);
    IndexedCounts(f, x, y);
    CleanedKept(f.rows, y.rows, DropNa(y).rows);
  }

  /** Before `dropna()`, each cleaned input row occurs as often as it does in the input. */
  lemma IndexedCounts(f: Frame, x: Frame, y: Frame)
    requires WellFormed(f) && IndexByDatetime(f) == Some(x) && y == CoerceAll(x, Coerced)
    ensures Indexable(f.rows) && multiset(y.rows) == multiset(CleanRows(f.rows))
  {
    var s := SetIndex(f);
    CoerceAllRows(x);
    RowsCoerced(x.rows, y.rows);
    CoerceRowsPermute(x.rows, s.rows);
    RowsCleaned(f.rows, s.rows);
  }

  lemma RowsCoerced(rows: seq<Row>, coerced: seq<Row>)
    requires |coerced| == |rows| && forall i :: 0 <= i < |rows| ==> coerced[i] == CoerceRow(rows[i])
    ensures coerced == CoerceRows(rows)
  {
  }

  lemma RowsCleaned(source: seq<Row>, indexed: seq<Row>)
    requires Indexable(source) && |indexed| == |source|
    requires forall i :: 0 <= i < |source| ==> indexed[i] == IndexRow(source[i])
    ensures CoerceRows(indexed) == CleanRows(source)
  {
  }

  /** Coercing row by row maps a permutation to a permutation. */
  lemma {:induction false} CoerceRowsPermute(a: seq<Row>, b: seq<Row>)
    requires multiset(a) == multiset(b)
    ensures multiset(CoerceRows(a)) == multiset(CoerceRows(b))
    decreases |a|
  {
    if a == [] {
      assert |b| == |multiset(b)| == 0;
    } else {
      var x := a[0];
      assert x in multiset(b);
      var j :| 0 <= j < |b| && b[j] == x;
      var rest := b[..j] + b[j + 1..];
      assert b == b[..j] + [x] + b[j + 1..];
      assert a == [x] + a[1..];
      calc {
        multiset(a[1..]);
        multiset(a) - multiset{x};
        multiset(b) - multiset{x};
        { assert multiset(b) == multiset(b[..j]) + multiset{x} + multiset(b[j + 1..]); }
        multiset(b[..j]) + multiset(b[j + 1..]);
        multiset(rest);
      }
      CoerceRowsPermute(a[1..], rest);
      CoerceRowsAppend([x], a[1..]);
      CoerceRowsAppend(b[..j] + [x], b[j + 1..]);
      CoerceRowsAppend(b[..j], [x]);
      CoerceRowsAppend(b[..j], b[j + 1..]);
      assert CoerceRows([x]) == [CoerceRow(x)];
    }
  }

  lemma CoerceRowsAppend(p: seq<Row>, q: seq<Row>)
    ensures CoerceRows(p + q) == CoerceRows(p) + CoerceRows(q)
  {
  }

  /** Indexed source rows in any order, each then coerced: the rows are the cleaned source rows. */
  lemma CleanedRows(source: seq<Row>, sorted: seq<Row>, coerced: seq<Row>)
    requires forall r :: r in sorted <==>
      exists i :: 0 <= i < |source| && "datetime" in source[i].cells && r == IndexRow(source[i])
    requires |coerced| == |sorted| && forall j :: 0 <= j < |sorted| ==> coerced[j] == CoerceRow(sorted[j])
    ensures forall r :: r in coerced <==>
      exists i :: 0 <= i < |source| && "datetime" in source[i].cells && r == CleanRow(source[i])
  {
    forall r | r in coerced
      ensures exists i :: 0 <= i < |source| && "datetime" in source[i].cells && r == CleanRow(source[i])
    {
      var j :| 0 <= j < |coerced| && coerced[j] == r;
      assert sorted[j] in sorted;
      var i :| 0 <= i < |source| && "datetime" in source[i].cells && sorted[j] == IndexRow(source[i]);
      assert r == CleanRow(source[i]);
    }
    forall i | 0 <= i < |source| && "datetime" in source[i].cells ensures CleanRow(source[i]) in coerced {
      assert IndexRow(source[i]) in sorted;
      var j :| 0 <= j < |sorted| && sorted[j] == IndexRow(source[i]);
      assert coerced[j] == CleanRow(source[i]);
    }
  }

  /** Rows with the same stamps, position by position, as sorted rows are sorted. */
  lemma SameStampsSorted(a: seq<Row>, b: seq<Row>)
    requires Sorted(a) && |b| == |a| && forall i :: 0 <= i < |a| ==> b[i].stamp == a[i].stamp
    ensures Sorted(b)
  {
  }

  /** Keeping the complete rows of the cleaned source rows. */
  lemma CleanedKept(source: seq<Row>, rows: seq<Row>, kept: seq<Row>)
    requires forall r :: r in rows <==> exists i :: 0 <= i < |source| && "datetime" in source[i].cells && r == CleanRow(source[i])
    requires forall r :: r in kept <==> r in rows && Complete(r)
    requires Indexable(source) && multiset(rows) == multiset(CleanRows(source))
    requires forall r :: multiset(kept)[r] == if Complete(r) then multiset(rows)[r] else 0
    ensures CleanedFrom(kept, source)
  {
  }

  /** Once no cell of a coerced column is text, the rows `dropna()` keeps hold floats there. */
  lemma CompleteCoercedNumeric(y: Frame)
    requires WellFormed(y)
    requires forall c, i :: c in Coerced && c in y.names && 0 <= i < |y.rows| ==> !y.rows[i].cells[c].Str?
    ensures forall c :: c in Coerced && c in y.names ==> NumericColumn(DropNa(y), c)
  {
    var g := DropNa(y);
    forall c, i | c in Coerced && c in y.names && 0 <= i < |g.rows| ensures g.rows[i].cells[c].Num? {
      var j :| 0 <= j < |y.rows| && y.rows[j] == g.rows[i];
      assert Complete(g.rows[i]) && !y.rows[j].cells[c].Str?;
    }
  }

  /** The table steps from `pd.DataFrame(valores)` to `dropna()`; `None` on each failure the
      `try` catches. */
  function Clean(records: seq<map<string, Text>>): Option<Frame>
  {
    match Table(records)
    case None => None
    case Some(c) => Indexed(c)
  }

  /** Everything `obtener_datos` returns once the reply has come back. A frame it returns has
      lower-case names including close and excluding datetime, rows ascending by timestamp and
      no more of them than records, no missing cell, and floats in every price or volume column. */
  function Normalise(apiKey: Option<string>, response: Response): (r: Option<Frame>)
    ensures r.Some? <==> (KeyPresent(apiKey) && Records(response).Some? &&
      var t := Table(Records(response).value); t.Some? && "datetime" in t.value.names && Parses(t.value))
    ensures r.Some? ==> WellFormed(r.value) && |r.value.rows| <= |Records(response).value|
    ensures r.Some? ==> "close" in r.value.names && "datetime" !in r.value.names
    ensures r.Some? ==> forall k :: k in r.value.names ==> IsLower(k)
    ensures r.Some? ==> Sorted(r.value.rows) && forall i :: 0 <= i < |r.value.rows| ==> Complete(r.value.rows[i])
    ensures r.Some? ==> forall c :: c in Coerced && c in r.value.names ==> NumericColumn(r.value, c)
    ensures r.Some? ==> var t := Table(Records(response).value);
      t.Some? && "datetime" in t.value.names && Parses(t.value) && CleanedFrom(r.value.rows, t.value.rows)
  {
    if !KeyPresent(apiKey) then None
    else match Records(response)
      case None => None
      case Some(records) => Clean(records)
  }

  /** The loop over the price and volume columns: each one present is coerced in turn. */
  method CoercePrices(f: Frame) returns (g: Frame)
    requires WellFormed(f)
    ensures g == CoerceAll(f, Coerced)
  {
    g := f;
    for i := 0 to |Coerced|
      invariant WellFormed(g)
      invariant CoerceAll(g, Coerced[i..]) == CoerceAll(f, Coerced)
    {
      if Coerced[i] in g.names {
        g := CoerceColumn(g, Coerced[i]);
      }
      assert Coerced[i..][1..] == Coerced[i + 1..];
    }
  }

  /** `obtener_datos`: `requested` tells whether the quote service was asked at all. */
  method ObtenerDatos(apiKey: Option<string>, response: Response) returns (r: Option<Frame>, requested: bool)
    ensures requested <==> KeyPresent(apiKey)
    ensures r == Normalise(apiKey, response)
  {
    if !KeyPresent(apiKey) {
      return None, false;
    }
    requested := true;
    if response.Unreadable? || response.status == Some("error") {
      return None, true;
    }
    if response.values.None? || response.values.value == [] {
      return None, true;
    }
    var table := BuildTable(response.values.value);
    if table.None? {
      return None, true;
    }
    r := IndexAndClean(table.value);
  }

  /** Building the table, lower-casing its names and adding a missing close. */
  method BuildTable(records: seq<map<string, Text>>) returns (r: Option<Frame>)
    ensures r == Table(records)
  {
    var table := Tabulate(records);
    if table.None? {
      return None;
    }
    var df := table.value;
    if "close" !in df.names {
      if !(OpenHighLow <= df.names) {
        return None;
      }
      var withClose := SynthesiseClose(df);
      if withClose.None? {
        return None;
      }
      df := withClose.value;
    }
    r := Some(df);
  }

  /** Indexing by datetime, sorting, coercing and dropping incomplete rows. */
  method IndexAndClean(df: Frame) returns (r: Option<Frame>)
    requires WellFormed(df)
    ensures r == Indexed(df)
  {
    if "datetime" !in df.names || !Parses(df) {
      return None;
    }
    var d := SetIndex(df);
    d := SortIndex(d);
    d := CoercePrices(d);
    d := DropNa(d);
    r := Some(d);
  }

  // ---------------------------------------------------------------------------
  // Properties

  /** Without an API key no request is made and the result is `None`; an unreadable reply, an
      error status, and missing or empty "values" give `None` too. */
  lemma ErrorRepliesGiveNone(apiKey: Option<string>, response: Response)
    ensures !KeyPresent(apiKey) ==> Normalise(apiKey, response).None?
    ensures response.Unreadable? ==> Normalise(apiKey, response).None?
    ensures response.Json? && response.status == Some("error") ==> Normalise(apiKey, response).None?
    ensures response.Json? && (response.values.None? || response.values.value == []) ==> Normalise(apiKey, response).None?
  {
  }

  /** A close that is absent and cannot be synthesised because open, high or low is missing
      from every record gives `None`. */
  lemma NoCloseNoResult(apiKey: Option<string>, records: seq<map<string, Text>>)
    requires forall r :: r in records ==> forall k :: k in r ==> Lower(k) != "close" && Lower(k) != "open"
    ensures Normalise(apiKey, Json(None, Some(records))).None?
  {
    var t := Tabulate(records);
    if t.Some? {
      assert "close" !in t.value.names && "open" !in t.value.names;
    }
  }

  /** A successful normalisation is a valid input to the indicator engine. */
  lemma NormalisedFeedsIndicators(apiKey: Option<string>, response: Response)
    ensures var r := Normalise(apiKey, response);
      r.Some? ==> IndicatorInput(r.value)
  {
    var r := Normalise(apiKey, response);
    if r.Some? {
      var f := r.value;
      forall k | k in f.names ensures Lower(k) == k { LowerOfLower(k); }
      forall i, k | 0 <= i < |f.rows| && k in f.rows[i].cells && Lower(k) in PriceNames
        ensures f.rows[i].cells[k].Num?
      {
        assert k in f.names && Lower(k) == k && k in Coerced;
      }
    }
  }
}
