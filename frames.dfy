/** The slice of pandas the core uses: a data frame as named columns of cells,
    and a row as named cells, which is what a fitted pipeline consumes. */
module Frames {

  /** One cell of a frame: SQLite NULL, a boolean, a number or text. */
  datatype Cell = Null | Bool(b: bool) | Num(x: real) | Text(s: string)

  datatype Column = Column(name: string, cells: seq<Cell>)

  type Frame = seq<Column>

  /** One input record for a model: column name and value, in column order. */
  type Row = seq<(string, Cell)>

  function Names(f: Frame): (names: seq<string>)
    ensures |names| == |f|
    ensures forall i :: 0 <= i < |f| ==> names[i] == f[i].name
  {
    seq(|f|, i requires 0 <= i < |f| => f[i].name)
  }

  /** Every column has the same number of cells. */
  predicate Rectangular(f: Frame) {
    forall i :: 0 <= i < |f| ==> |f[i].cells| == |f[0].cells|
  }

  predicate DistinctNames(f: Frame) {
    forall i, j :: 0 <= i < j < |f| ==> f[i].name != f[j].name
  }

  /** What a SQLite table read with `SELECT *` always is. */
  predicate WellFormed(f: Frame) {
    Rectangular(f) && DistinctNames(f)
  }

  function RowCount(f: Frame): nat {
    if f == [] then 0 else |f[0].cells|
  }

  /** pandas' `df.empty`: no columns or no rows. */
  predicate IsEmpty(f: Frame) {
    f == [] || RowCount(f) == 0
  }

  /** The names of `s` without those in `drop`, in their original order. */
  function FilterOut(s: seq<string>, drop: set<string>): (r: seq<string>)
    ensures |r| <= |s|
    ensures forall x :: x in r <==> x in s && x !in drop
  {
    if s == [] then []
    else if s[0] in drop then FilterOut(s[1..], drop)
    else [s[0]] + FilterOut(s[1..], drop)
  }

  /** `df.drop(columns=[...])` with absent names ignored: removes every column
      named in `drop` and keeps the rest in order. */
  function DropColumns(f: Frame, drop: set<string>): (r: Frame)
    ensures |r| <= |f|
    ensures forall c :: c in r <==> c in f && c.name !in drop
  {
    if f == [] then []
    else if f[0].name in drop then DropColumns(f[1..], drop)
    else [f[0]] + DropColumns(f[1..], drop)
  }

  /** Dropping columns drops exactly their names, and the survivors keep their
      relative order. */
  lemma {:induction false} DropColumnsNames(f: Frame, drop: set<string>)
    ensures Names(DropColumns(f, drop)) == FilterOut(Names(f), drop)
  {
    if f != [] {
      var rest := DropColumns(f[1..], drop);
      DropColumnsNames(f[1..], drop);
      var names := Names(f);
      assert names[0] == f[0].name;
      assert names[1..] == Names(f[1..]);
      if f[0].name in drop {
        assert DropColumns(f, drop) == rest;
        assert FilterOut(names, drop) == FilterOut(names[1..], drop);
      } else {
        assert DropColumns(f, drop) == [f[0]] + rest;
        assert FilterOut(names, drop) == [names[0]] + FilterOut(names[1..], drop);
        NamesCons(f[0], rest);
      }
    }
  }

  lemma NamesCons(c: Column, f: Frame)
    ensures Names([c] + f) == [c.name] + Names(f)
  {
    var l := Names([c] + f);
    var r := [c.name] + Names(f);
    forall i | 0 <= i < |l| ensures l[i] == r[i] {
      if i > 0 {
        assert ([c] + f)[i] == f[i - 1];
      }
    }
  }

  /** A sub-sequence of a well-formed frame's columns is well formed. */
  lemma {:induction false} DropColumnsWellFormed(f: Frame, drop: set<string>)
    requires WellFormed(f)
    ensures WellFormed(DropColumns(f, drop))
    ensures DropColumns(f, drop) != [] ==> RowCount(DropColumns(f, drop)) == RowCount(f)
  {
    if f != [] {
      assert WellFormed(f[1..]) by {
        forall i | 0 <= i < |f[1..]| ensures |f[1..][i].cells| == |f[1..][0].cells| {
          assert |f[i + 1].cells| == |f[0].cells| && |f[1].cells| == |f[0].cells|;
        }
      }
      DropColumnsWellFormed(f[1..], drop);
      var rest := DropColumns(f[1..], drop);
      if f[0].name !in drop {
        var r := [f[0]] + rest;
        forall i, j | 0 <= i < j < |r| ensures r[i].name != r[j].name {
          if i == 0 {
            assert r[j] in rest && r[j] in f[1..];
          }
        }
        forall i | 0 <= i < |r| ensures |r[i].cells| == |r[0].cells| {
          if i > 0 {
            assert r[i] in f[1..];
          }
        }
      }
    }
  }
}
