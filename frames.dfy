/** The data frames the bot passes from the quote service to the indicator engine and the
    strategy: rows indexed by a timestamp, each row a map from column name to cell. */
module Frames {

  datatype Option<T> = None | Some(value: T)

  /** A text field as the quote service sent it, known only through the two readings the
      program makes of it: numeric coercion and datetime parsing (minutes since the epoch,
      naive). `None` means that reading fails. */
  datatype Text = Text(number: Option<real>, stamp: Option<int>)

  /** A frame cell: a float, a missing value (NaN), or text not (yet) coerced. */
  datatype Cell = Num(v: real) | NaN | Str(text: Text)

  /** One row: its index timestamp (minutes since the epoch) and its cells by column. */
  datatype Row = Row(stamp: int, cells: map<string, Cell>)

  datatype Frame = Frame(names: set<string>, rows: seq<Row>)

  /** Every row has exactly the frame's columns. */
  predicate WellFormed(f: Frame)
  {
    forall i :: 0 <= i < |f.rows| ==> f.rows[i].cells.Keys == f.names
  }

  /** Every cell of column `k` holds a float. */
  predicate NumericColumn(f: Frame, k: string)
  {
    forall i :: 0 <= i < |f.rows| ==> k in f.rows[i].cells && f.rows[i].cells[k].Num?
  }

  /** The floats of column `k`, top to bottom. */
  function Column(f: Frame, k: string): (xs: seq<real>)
    requires NumericColumn(f, k)
    ensures |xs| == |f.rows|
    ensures forall i :: 0 <= i < |xs| ==> f.rows[i].cells[k] == Num(xs[i])
  {
    seq(|f.rows|, i requires 0 <= i < |f.rows| => f.rows[i].cells[k].v)
  }

  /** Minutes since midnight of a naive timestamp. */
  function TimeOfDay(stamp: int): (m: int)
    ensures 0 <= m < 1440
  {
    stamp % 1440
  }

  // ---------------------------------------------------------------------------
  // Extremes of a non-empty series (pandas `max()` / `min()` on a float column)

  function SeqMax(s: seq<real>): (m: real)
    requires |s| > 0
    ensures forall i :: 0 <= i < |s| ==> s[i] <= m
    ensures exists i :: 0 <= i < |s| && s[i] == m
  {
    if |s| == 1 then s[0]
    else
      var t := SeqMax(s[1..]);
      assert forall i :: 1 <= i < |s| ==> s[i] == s[1..][i - 1];
      if s[0] >= t then s[0] else t
  }

  function SeqMin(s: seq<real>): (m: real)
    requires |s| > 0
    ensures forall i :: 0 <= i < |s| ==> m <= s[i]
    ensures exists i :: 0 <= i < |s| && s[i] == m
  {
    if |s| == 1 then s[0]
    else
      var t := SeqMin(s[1..]);
      assert forall i :: 1 <= i < |s| ==> s[i] == s[1..][i - 1];
      if s[0] <= t then s[0] else t
  }

  // ---------------------------------------------------------------------------
  // Lower-casing of column names (`col.lower()`), ASCII letters only

  function LowerChar(c: char): char
  {
    if 'A' <= c <= 'Z' then (c as int + 32) as char else c
  }

  function Lower(s: string): string
  {
    seq(|s|, i requires 0 <= i < |s| => LowerChar(s[i]))
  }

  predicate IsLower(s: string)
  {
    forall i :: 0 <= i < |s| ==> !('A' <= s[i] <= 'Z')
  }

  lemma LowerIsLower(s: string)
    ensures IsLower(Lower(s))
  {
  }

  lemma LowerOfLower(s: string)
    requires IsLower(s)
    ensures Lower(s) == s
  {
  }

  lemma CloseIsLower()
    ensures IsLower("close")
  {
  }

  /** No two names become equal once lower-cased. */
  predicate LowerInjective(names: set<string>)
  {
    forall a, b :: a in names && b in names && Lower(a) == Lower(b) ==> a == b
  }

  function LowerNames(names: set<string>): set<string>
  {
    set n | n in names :: Lower(n)
  }

  /** A map whose keys are lower-cased and whose values stay with their keys. */
  function LowerKeys<V>(m: map<string, V>): (r: map<string, V>)
    requires LowerInjective(m.Keys)
    ensures r.Keys == LowerNames(m.Keys)
    ensures forall k :: k in m ==> r[Lower(k)] == m[k]
  {
    map k | k in m :: Lower(k) := m[k]
  }

  lemma LowerNamesAllLower(names: set<string>)
    ensures forall n :: n in LowerNames(names) ==> IsLower(n)
  {
    forall n | n in LowerNames(names) ensures IsLower(n) {
      var k :| k in names && Lower(k) == n;
      LowerIsLower(k);
    }
  }

  // ---------------------------------------------------------------------------
  // Whole-frame updates

  /** `df.columns = [col.lower() for col in df.columns]`, on a frame whose names stay distinct. */
  function LowerFrame(f: Frame): (g: Frame)
    requires WellFormed(f) && LowerInjective(f.names)
    ensures WellFormed(g) && g.names == LowerNames(f.names) && |g.rows| == |f.rows|
    ensures forall i :: 0 <= i < |f.rows| ==> g.rows[i].stamp == f.rows[i].stamp
    ensures forall i, k :: 0 <= i < |f.rows| && k in f.names ==> g.rows[i].cells[Lower(k)] == f.rows[i].cells[k]
  {
    Frame(LowerNames(f.names),
          seq(|f.rows|, i requires 0 <= i < |f.rows| => Row(f.rows[i].stamp, LowerKeys(f.rows[i].cells))))
  }

  /** `df[name] = values`: adds or overwrites one column. */
  function WithColumn(f: Frame, name: string, col: seq<Cell>): (g: Frame)
    requires WellFormed(f) && |col| == |f.rows|
    ensures WellFormed(g) && g.names == f.names + {name} && |g.rows| == |f.rows|
    ensures forall i :: 0 <= i < |f.rows| ==> g.rows[i] == Row(f.rows[i].stamp, f.rows[i].cells[name := col[i]])
  {
    Frame(f.names + {name},
          seq(|f.rows|, i requires 0 <= i < |f.rows| => Row(f.rows[i].stamp, f.rows[i].cells[name := col[i]])))
  }

  /** A frame whose names are already lower-case is unchanged by lower-casing. */
  lemma LowerFrameOfLowerNames(f: Frame)
    requires WellFormed(f) && forall k :: k in f.names ==> IsLower(k)
    ensures LowerInjective(f.names) && LowerFrame(f) == f
  {
    forall k | k in f.names ensures Lower(k) == k { LowerOfLower(k); }
    var g := LowerFrame(f);
    assert g.names == f.names;
    forall i | 0 <= i < |f.rows| ensures g.rows[i] == f.rows[i] {
      assert g.rows[i].cells.Keys == f.rows[i].cells.Keys;
      forall k | k in f.rows[i].cells ensures g.rows[i].cells[k] == f.rows[i].cells[k] {
        assert Lower(k) == k;
      }
    }
  }
}
