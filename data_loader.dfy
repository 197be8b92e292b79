/** load_tourist_data: read one site's historical table, split it into the
    feature frame X and the label column y, drop the stale legacy columns and
    coerce the calendar indicator columns to integers. */
module DataLoader {
  import opened Wrappers
  import opened Errors
  import opened Frames
  import Text
  import Numerics

  /** The SQLite file, when it exists: its tables by name. */
  datatype Database = Database(tables: map<string, Frame>)

  predicate WellFormedDatabase(db: Option<Database>) {
    db.Some? ==> forall t :: t in db.value.tables ==> WellFormed(db.value.tables[t])
  }

  /** Legacy columns removed whenever present. */
  const StaleColumns: set<string> := {"달러환율", "total_7d_avg", "운항수_표준화"}

  /** The calendar indicator columns, in the order the loop visits them. */
  const IndicatorColumns: seq<string> := [
    "weekday_0", "weekday_1", "weekday_2", "weekday_3", "weekday_4", "weekday_5", "weekday_6",
    "season_0", "season_1", "season_2", "season_3"]

  /** `Series.astype(int)` on one cell: booleans become 0 or 1, numbers are
      truncated toward zero, integer text is read as `int(text)` reads it; a
      missing value or any other text cannot be converted. */
  function AsInt(c: Cell): (r: Option<Cell>)
    ensures r.Some? <==> c.Bool? || c.Num? || (c.Text? && Text.ParseInt(c.s).Some?)
    ensures c.Bool? ==> r == Some(Num(if c.b then 1.0 else 0.0))
    ensures c.Num? ==> r == Some(Num(Numerics.Trunc(c.x) as real))
    ensures c.Text? && r.Some? ==> r == Some(Num(Text.ParseInt(c.s).value as real))
    ensures r.Some? ==> r.value.Num? && r.value.x == r.value.x.Floor as real
  {
    match c
    case Bool(b) => Some(Num(if b then 1.0 else 0.0))
    case Num(x) => Some(Num(Numerics.Trunc(x) as real))
    case Text(s) => (match Text.ParseInt(s) case Some(n) => Some(Num(n as real)) case None => None)
    case Null => None
  }

  /** A column of integer text, as `str` prints integers, converts to those
      integers. */
  lemma AsIntOfIntegerText(n: int)
    ensures AsInt(Text(Text.IntToString(n))) == Some(Num(n as real))
  {
    Text.ParseIntOfIntToString(n);
  }

  function AsIntCells(cells: seq<Cell>): (r: Option<seq<Cell>>)
    ensures r.Some? <==> forall i :: 0 <= i < |cells| ==> AsInt(cells[i]).Some?
    ensures r.Some? ==> |r.value| == |cells| && forall i :: 0 <= i < |cells| ==> r.value[i] == AsInt(cells[i]).value
  {
    if cells == [] then Some([])
    else if AsInt(cells[0]).None? then None
    else
      match AsIntCells(cells[1..])
      case None => None
      case Some(rest) => Some([AsInt(cells[0]).value] + rest)
  }

  /** `X[name] = X[name].astype(int)` when X has a column `name`; X unchanged otherwise. */
  function CoerceColumn(x: Frame, name: string): (r: Result<Frame, Error>)
    ensures r.Success? ==> |r.value| == |x| && Names(r.value) == Names(x)
    ensures r.Success? ==> forall i :: 0 <= i < |x| && x[i].name != name ==> r.value[i] == x[i]
    ensures r.Success? ==> forall i :: 0 <= i < |x| && x[i].name == name ==>
      AsIntCells(x[i].cells).Some? && r.value[i].cells == AsIntCells(x[i].cells).value
    ensures r.Failure? <==> exists i :: 0 <= i < |x| && x[i].name == name && AsIntCells(x[i].cells).None?
    ensures r.Failure? ==> r.error == CoercionFailed(name)
  {
    ReplaceColumn(x, name, AsIntCells)
  }

  /** Replace the cells of every column called `name` by their conversion,
      failing when some conversion fails. */
  function ReplaceColumn(x: Frame, name: string, convert: seq<Cell> -> Option<seq<Cell>>): (r: Result<Frame, Error>)
    ensures r.Success? ==> |r.value| == |x| && Names(r.value) == Names(x)
    ensures r.Success? ==> forall i :: 0 <= i < |x| && x[i].name != name ==> r.value[i] == x[i]
    ensures r.Success? ==> forall i :: 0 <= i < |x| && x[i].name == name ==>
      convert(x[i].cells).Some? && r.value[i].cells == convert(x[i].cells).value
    ensures r.Failure? <==> exists i :: 0 <= i < |x| && x[i].name == name && convert(x[i].cells).None?
    ensures r.Failure? ==> r.error == CoercionFailed(name)
  {
    if x == [] then Success([])
    else
      var head :=
        if x[0].name != name then Some(x[0])
        else
          match convert(x[0].cells)
          case None => None
          case Some(cells) => Some(Column(name, cells));
      match ReplaceColumn(x[1..], name, convert)
      case Failure(e) => Failure(e)
      case Success(rest) =>
        if head.None? then Failure(CoercionFailed(name))
        else
          var r := [head.value] + rest;
          assert forall i :: 1 <= i < |x| ==> r[i] == rest[i - 1];
          Success(r)
  }

  /** The coercion loop: each listed column in turn, stopping at the first
      that cannot be converted. */
  function CoerceAll(x: Frame, names: seq<string>): (r: Result<Frame, Error>)
    ensures r.Success? ==> |r.value| == |x|
    decreases names
  {
    if names == [] then Success(x)
    else
      match CoerceColumn(x, names[0])
      case Failure(e) => Failure(e)
      case Success(x') => CoerceAll(x', names[1..])
  }

  /** What load_tourist_data returns for table `name`: the features X and the
      label column y, or the exception it raises. */
  function TouristData(db: Option<Database>, name: string): Result<(Frame, seq<Cell>), Error>
  {
    if db.None? then Failure(DatabaseMissing)
    else if name !in db.value.tables then Failure(TableMissing(name))
    else
      var df := db.value.tables[name];
      if IsEmpty(df) then Failure(EmptyTable(name))
      else if name !in Names(df) then Failure(ColumnsMissing([name]))
      else
        var labels := df[IndexOfName(df, name)].cells;
        match CoerceAll(Candidates(df, name), IndicatorColumns)
        case Failure(e) => Failure(e)
        case Success(x') => Success((x', labels))
  }

  /** The loader's checks, in order: the database file before any table, the
      table before its contents, an empty table before its columns. */
  lemma LoadErrors(db: Option<Database>, name: string)
    ensures db.None? ==> TouristData(db, name) == Failure(DatabaseMissing)
    ensures db.Some? && name !in db.value.tables ==> TouristData(db, name) == Failure(TableMissing(name))
    ensures db.Some? && name in db.value.tables && IsEmpty(db.value.tables[name]) ==>
      TouristData(db, name) == Failure(EmptyTable(name))
    ensures TouristData(db, name).Success? ==>
      db.Some? && name in db.value.tables && !IsEmpty(db.value.tables[name]) && name in Names(db.value.tables[name])
  {
  }

  /** X before the indicator loop: the table without the label and the stale columns. */
  function Candidates(df: Frame, name: string): Frame {
    DropColumns(DropColumns(df, {name}), StaleColumns)
  }

  function IndexOfName(f: Frame, name: string): (i: nat)
    requires name in Names(f)
    ensures i < |f| && f[i].name == name
    ensures forall j :: 0 <= j < i ==> f[j].name != name
  {
    if f[0].name == name then 0
    else
      assert Names(f)[1..] == Names(f[1..]);
      1 + IndexOfName(f[1..], name)
  }

  /** The loop from step `i` on: coerce `names[i]`, then go on from `i + 1`. */
  lemma CoerceAllFrom(x: Frame, names: seq<string>, i: nat)
    requires i < |names|
    ensures CoerceAll(x, names[i..]) ==
      match CoerceColumn(x, names[i])
      case Failure(e) => Failure(e)
      case Success(x') => CoerceAll(x', names[i + 1..])
  {
    assert names[i..][0] == names[i] && names[i..][1..] == names[i + 1..];
  }

  /** load_tourist_data, with the indicator loop as written. */
  method LoadTouristData(db: Option<Database>, name: string) returns (r: Result<(Frame, seq<Cell>), Error>)
    ensures r == TouristData(db, name)
  {
    if db.None? {
      return Failure(DatabaseMissing);
    }
    if name !in db.value.tables {
      return Failure(TableMissing(name));
    }
    var df := db.value.tables[name];
    if IsEmpty(df) {
      return Failure(EmptyTable(name));
    }
    if name !in Names(df) {
      return Failure(ColumnsMissing([name]));
    }
    var x := DropColumns(df, {name});
    var y := df[IndexOfName(df, name)].cells;
    x := DropColumns(x, StaleColumns);
    var i := 0;
    while i < |IndicatorColumns|
      invariant 0 <= i <= |IndicatorColumns|
      invariant CoerceAll(Candidates(df, name), IndicatorColumns)
             == CoerceAll(x, IndicatorColumns[i..])
    {
      CoerceAllFrom(x, IndicatorColumns, i);
      var step := CoerceColumn(x, IndicatorColumns[i]);
      if step.Failure? {
        return Failure(step.error);
      }
      x := step.value;
      i := i + 1;
    }
    assert IndicatorColumns[i..] == [];
    r := Success((x, y));
  }

  /** Names survive coercion, and so does every column no coercion step names. */
  lemma {:induction false} CoerceAllShape(x: Frame, names: seq<string>)
    requires CoerceAll(x, names).Success?
    ensures Names(CoerceAll(x, names).value) == Names(x)
    ensures forall i :: 0 <= i < |x| && x[i].name !in names ==> CoerceAll(x, names).value[i] == x[i]
    decreases names
  {
    if names != [] {
      var x' := CoerceColumn(x, names[0]).value;
      CoerceAllShape(x', names[1..]);
    }
  }

  /** The feature frame: the label and every stale column that was present are
      gone, the other columns keep their original relative order, and the
      label cells are exactly the table's label column. */
  lemma LoadedColumns(db: Option<Database>, name: string)
    requires TouristData(db, name).Success?
    ensures var (x, y) := TouristData(db, name).value;
      var df := db.value.tables[name];
      && Names(x) == FilterOut(FilterOut(Names(df), {name}), StaleColumns)
      && name !in Names(x)
      && (forall s :: s in StaleColumns ==> s !in Names(x))
      && name in Names(df) && y == df[IndexOfName(df, name)].cells
  {
    var df := db.value.tables[name];
    var x0 := Candidates(df, name);
    DropColumnsNames(df, {name});
    DropColumnsNames(DropColumns(df, {name}), StaleColumns);
    CoerceAllShape(x0, IndicatorColumns);
  }

  /** Columns other than the calendar indicators reach X untouched. */
  lemma OtherColumnsUntouched(db: Option<Database>, name: string, i: nat)
    requires TouristData(db, name).Success?
    requires i < |Candidates(db.value.tables[name], name)|
    requires Candidates(db.value.tables[name], name)[i].name !in IndicatorColumns
    ensures TouristData(db, name).value.0[i] == Candidates(db.value.tables[name], name)[i]
  {
    CoerceAllShape(Candidates(db.value.tables[name], name), IndicatorColumns);
  }

  /** Each calendar indicator column present in X is converted cell by cell. */
  lemma {:induction false} CoerceAllConverts(x: Frame, names: seq<string>, i: nat)
    requires CoerceAll(x, names).Success?
    requires forall a, b :: 0 <= a < b < |names| ==> names[a] != names[b]
    requires i < |x| && x[i].name in names
    ensures AsIntCells(x[i].cells).Some?
    ensures CoerceAll(x, names).value[i].cells == AsIntCells(x[i].cells).value
    decreases names
  {
    var x' := CoerceColumn(x, names[0]).value;
    assert Names(x')[i] == Names(x)[i];
    if names[0] == x[i].name {
      assert x[i].name !in names[1..];
      CoerceAllShape(x', names[1..]);
    } else {
      CoerceAllConverts(x', names[1..], i);
    }
  }

  lemma IndicatorColumnsDistinct()
    ensures forall a, b :: 0 <= a < b < |IndicatorColumns| ==> IndicatorColumns[a] != IndicatorColumns[b]
  {
  }

  /** So in the loaded X every present indicator column holds integers. */
  lemma IndicatorColumnsConverted(db: Option<Database>, name: string, i: nat)
    requires TouristData(db, name).Success?
    requires i < |Candidates(db.value.tables[name], name)|
    requires Candidates(db.value.tables[name], name)[i].name in IndicatorColumns
    ensures AsIntCells(Candidates(db.value.tables[name], name)[i].cells).Some?
    ensures TouristData(db, name).value.0[i].cells == AsIntCells(Candidates(db.value.tables[name], name)[i].cells).value
  {
    IndicatorColumnsDistinct();
    CoerceAllConverts(Candidates(db.value.tables[name], name), IndicatorColumns, i);
  }
}
