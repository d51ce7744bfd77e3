/** convert_json_to_excel.py: files of JSON lines turned into tables. A DataFrame is
    modelled by its column names and its rows of cells; what pandas writes to a CSV or
    Excel file is modelled as the header and the record lines of that table. json.loads
    and pd.read_csv are parameters. */
module ConvertJson {
  import opened Common

  /** A JSON object, as its entries in key order. */
  type Object = seq<(string, Value)>

  /** A DataFrame: column names and one row of cells per record (NaN is Null). */
  datatype Frame = Frame(columns: seq<string>, rows: seq<seq<Value>>)

  /** A line of a written table: the header row or one record. */
  datatype Record = Header(names: seq<string>) | Cells(values: seq<Value>)

  /** The key pandas' de-duplication of merged tables uses. */
  const RoomCode: string := "房间代号"

  function Same(k: string): string { k }

  function SameRow(r: seq<Value>): seq<Value> { r }

  predicate Distinct(xs: seq<string>)
  {
    forall i, j | 0 <= i < j < |xs| :: xs[i] != xs[j]
  }

  // ----- load_data -----

  /** json.loads(line) gives a dict. */
  predicate IsObjectLine(line: string, parse: string -> Option<Value>)
  {
    parse(line).Some? && parse(line).value.Dict?
  }

  /** The objects of the lines that parse to dicts, in file order. */
  function ObjectsOf(lines: seq<string>, parse: string -> Option<Value>): seq<Object>
  {
    if lines == [] then []
    else
      var last := lines[|lines| - 1];
      ObjectsOf(lines[..|lines| - 1], parse)
        + (if IsObjectLine(last, parse) then [parse(last).value.entries] else [])
  }

  lemma {:induction false} ObjectsOfConcat(a: seq<string>, b: seq<string>, parse: string -> Option<Value>)
    ensures ObjectsOf(a + b, parse) == ObjectsOf(a, parse) + ObjectsOf(b, parse)
    decreases |b|
  {
    if b == [] {
      assert a + b == a;
    } else {
      assert (a + b)[..|a + b| - 1] == a + b[..|b| - 1];
      ObjectsOfConcat(a, b[..|b| - 1], parse);
    }
  }

  /** The kept objects are exactly those of the object lines; nothing else gets in. */
  lemma {:induction false} ObjectsOfMembers(lines: seq<string>, parse: string -> Option<Value>)
    ensures |ObjectsOf(lines, parse)| <= |lines|
    ensures forall o :: o in ObjectsOf(lines, parse) <==>
      exists i | 0 <= i < |lines| :: IsObjectLine(lines[i], parse) && parse(lines[i]).value.entries == o
    decreases |lines|
  {
    if lines != [] {
      var init, last := lines[..|lines| - 1], lines[|lines| - 1];
      ObjectsOfMembers(init, parse);
      forall o | o in ObjectsOf(lines, parse)
        ensures exists i | 0 <= i < |lines| :: IsObjectLine(lines[i], parse) && parse(lines[i]).value.entries == o
      {
        if o in ObjectsOf(init, parse) {
          var i :| 0 <= i < |init| && IsObjectLine(init[i], parse) && parse(init[i]).value.entries == o;
          assert lines[i] == init[i];
        } else {
          assert lines[|lines| - 1] == last;
        }
      }
      forall o | exists i | 0 <= i < |lines| :: IsObjectLine(lines[i], parse) && parse(lines[i]).value.entries == o
        ensures o in ObjectsOf(lines, parse)
      {
        var i :| 0 <= i < |lines| && IsObjectLine(lines[i], parse) && parse(lines[i]).value.entries == o;
        if i < |init| {
          assert init[i] == lines[i];
        }
      }
    }
  }

  /** Every key of every object, in order of appearance. */
  function AllKeys(objs: seq<Object>): seq<string>
  {
    if objs == [] then [] else AllKeys(objs[..|objs| - 1]) + Keys(objs[|objs| - 1])
  }

  lemma {:induction false} AllKeysMembers(objs: seq<Object>)
    ensures forall k :: k in AllKeys(objs) <==> exists j | 0 <= j < |objs| :: k in Keys(objs[j])
    decreases |objs|
  {
    if objs != [] {
      var init := objs[..|objs| - 1];
      AllKeysMembers(init);
      forall k | exists j | 0 <= j < |objs| :: k in Keys(objs[j]) ensures k in AllKeys(objs) {
        var j :| 0 <= j < |objs| && k in Keys(objs[j]);
        if j < |init| {
          assert init[j] == objs[j];
        }
      }
      forall k | k in AllKeys(objs) ensures exists j | 0 <= j < |objs| :: k in Keys(objs[j]) {
        if k in AllKeys(init) {
          var j :| 0 <= j < |init| && k in Keys(init[j]);
          assert objs[j] == init[j];
        } else {
          assert k in Keys(objs[|objs| - 1]);
        }
      }
    }
  }

  /** `pd.DataFrame(data).columns`: the union of the keys in first-seen order. */
  function ColumnsOf(objs: seq<Object>): seq<string>
  {
    DedupBy(AllKeys(objs), Same)
  }

  /** The cells of one object under the columns; a key it lacks is NaN. */
  function RowOf(o: Object, columns: seq<string>): seq<Value>
  {
    seq(|columns|, i requires 0 <= i < |columns| => GetOr(o, columns[i], Null))
  }

  /** `pd.DataFrame(data)`. */
  function FrameOf(objs: seq<Object>): Frame
  {
    var columns := ColumnsOf(objs);
    Frame(columns, seq(|objs|, i requires 0 <= i < |objs| => RowOf(objs[i], columns)))
  }

  /** `df.drop_duplicates()`: a row equal to an earlier row goes. */
  function DropDuplicates(f: Frame): Frame
  {
    Frame(f.columns, DedupBy(f.rows, SameRow))
  }

  /** What load_data returns as its table. */
  function LoadedFrame(lines: seq<string>, parse: string -> Option<Value>): Frame
  {
    DropDuplicates(FrameOf(ObjectsOf(lines, parse)))
  }

  lemma KeysOfSame(xs: seq<string>)
    ensures forall k :: k in KeysOf(xs, Same) <==> k in xs
  {
    KeysOfMember(xs, Same);
  }

  lemma KeysOfSameRow(xs: seq<seq<Value>>)
    ensures forall r :: r in KeysOf(xs, SameRow) <==> r in xs
  {
    KeysOfMember(xs, SameRow);
  }

  /** The columns are the keys of the objects, each once. */
  lemma ColumnsOfKeys(objs: seq<Object>)
    ensures Distinct(ColumnsOf(objs))
    ensures forall k :: k in ColumnsOf(objs) <==> exists j | 0 <= j < |objs| :: k in Keys(objs[j])
  {
    var ks := AllKeys(objs);
    DedupAfterDistinct({}, ks, Same);
    DedupAfterKeySet({}, ks, Same);
    KeysOfSame(ks);
    KeysOfSame(ColumnsOf(objs));
    AllKeysMembers(objs);
  }

  /** drop_duplicates keeps every row value, adds none, and keeps each once. */
  lemma DropDuplicatesMembers(rows: seq<seq<Value>>)
    ensures forall r :: r in DedupBy(rows, SameRow) <==> r in rows
    ensures var kept := DedupBy(rows, SameRow);
      forall i, j | 0 <= i < j < |kept| :: kept[i] != kept[j]
  {
    DedupAfterDistinct({}, rows, SameRow);
    DedupAfterKeySet({}, rows, SameRow);
    KeysOfSameRow(rows);
    KeysOfSameRow(DedupBy(rows, SameRow));
  }

  /** The rows of the table are the rows of the objects. */
  lemma FrameRowsMembers(objs: seq<Object>)
    ensures forall r :: r in FrameOf(objs).rows <==> exists o | o in objs :: r == RowOf(o, ColumnsOf(objs))
  {
    var all := FrameOf(objs).rows;
    forall r | r in all ensures exists o | o in objs :: r == RowOf(o, ColumnsOf(objs)) {
      var i :| 0 <= i < |all| && all[i] == r;
      assert objs[i] in objs;
    }
    forall r | exists o | o in objs :: r == RowOf(o, ColumnsOf(objs)) ensures r in all {
      var o :| o in objs && r == RowOf(o, ColumnsOf(objs));
      var i :| 0 <= i < |objs| && objs[i] == o;
      assert all[i] == r;
    }
  }

  /** load_data's table: one column per key seen, the rows of the object lines with each
      repeated row dropped, so its rows are pairwise different. */
  lemma LoadedFrameRows(lines: seq<string>, parse: string -> Option<Value>)
    ensures var f := LoadedFrame(lines, parse);
      && f.columns == ColumnsOf(ObjectsOf(lines, parse))
      && (forall i, j | 0 <= i < j < |f.rows| :: f.rows[i] != f.rows[j])
      && forall r :: r in f.rows <==> exists o | o in ObjectsOf(lines, parse) :: r == RowOf(o, f.columns)
  {
    var objs := ObjectsOf(lines, parse);
    DropDuplicatesMembers(FrameOf(objs).rows);
    FrameRowsMembers(objs);
  }

  // ----- get_column_name -----

  /** `get_column_name` over the lines of a file: the keys of the first line that parses
      to a dict; a line before it that does not parse raises. */
  function ColumnName(lines: seq<string>, parse: string -> Option<Value>): Result<Option<seq<string>>>
  {
    if lines == [] then Ok(None)
    else match parse(lines[0])
      case None => Err(ValueError)
      case Some(Dict(es)) => Ok(Some(Keys(es)))
      case Some(_) => ColumnName(lines[1..], parse)
  }

  /** get_column_name agrees with load_data: it names the keys of the first object load_data
      keeps, and None when there is none; it raises only on a line that does not parse. */
  lemma {:induction false} ColumnNameFirstObject(lines: seq<string>, parse: string -> Option<Value>)
    ensures var r := ColumnName(lines, parse);
      && (r.Ok? && r.value.Some? ==> ObjectsOf(lines, parse) != [] && r.value.value == Keys(ObjectsOf(lines, parse)[0]))
      && (r.Ok? && r.value.None? ==> ObjectsOf(lines, parse) == [])
      && (r.Err? ==> r.error == ValueError && exists i | 0 <= i < |lines| :: parse(lines[i]).None?)
      && ((forall i | 0 <= i < |lines| :: parse(lines[i]).Some?) ==> r.Ok?)
    decreases |lines|
  {
    if lines != [] {
      assert lines == [lines[0]] + lines[1..];
      ObjectsOfConcat([lines[0]], lines[1..], parse);
      assert [lines[0]][..0] == [];
      ColumnNameFirstObject(lines[1..], parse);
      var r := ColumnName(lines, parse);
      if parse(lines[0]).Some? && !parse(lines[0]).value.Dict? {
        if r.Err? {
          var i :| 0 <= i < |lines[1..]| && parse(lines[1..][i]).None?;
          assert parse(lines[i + 1]).None?;
        }
        if forall i | 0 <= i < |lines| :: parse(lines[i]).Some? {
          assert forall i | 0 <= i < |lines[1..]| :: lines[1..][i] == lines[i + 1];
        }
      }
    }
  }

  // ----- the CSV header rule -----

  /** The dict has every requested column (`to_csv(columns=...)` raises KeyError otherwise). */
  predicate HasColumns(o: Object, columns: seq<string>)
  {
    forall c | c in columns :: c in Keys(o)
  }

  /** A file's record lines, or None when it does not exist. */
  function ExistingIn(tables: map<string, seq<Record>>, texts: map<string, seq<string>>, path: string): Option<seq<Record>>
  {
    if path in tables then Some(tables[path]) else if path in texts then Some([]) else None
  }

  /** `save_dict_to_csv`: the header only when the file does not exist yet, then the record. */
  function SaveRow(existing: Option<seq<Record>>, o: Object, columns: seq<string>): seq<Record>
  {
    (if existing.None? then [Header(columns)] else existing.value) + [Cells(RowOf(o, columns))]
  }

  /** The file after save_dict_to_csv of each object in turn (None: still absent). */
  function AppendAll(existing: Option<seq<Record>>, objs: seq<Object>, columns: seq<string>): Option<seq<Record>>
  {
    if objs == [] then existing
    else
      var before := AppendAll(existing, objs[..|objs| - 1], columns);
      var o := objs[|objs| - 1];
      if HasColumns(o, columns) then Some(SaveRow(before, o, columns)) else before
  }

  /** The objects that have every column. */
  function Kept(objs: seq<Object>, columns: seq<string>): seq<Object>
  {
    if objs == [] then []
    else Kept(objs[..|objs| - 1], columns) + (if HasColumns(objs[|objs| - 1], columns) then [objs[|objs| - 1]] else [])
  }

  function CellRecords(objs: seq<Object>, columns: seq<string>): seq<Record>
  {
    seq(|objs|, i requires 0 <= i < |objs| => Cells(RowOf(objs[i], columns)))
  }

  lemma CellRecordsSnoc(objs: seq<Object>, o: Object, columns: seq<string>)
    ensures CellRecords(objs + [o], columns) == CellRecords(objs, columns) + [Cells(RowOf(o, columns))]
  {
  }

  /** Appending row by row writes the header exactly once, at the top of a new file, and
      never into a file that exists: the records are those of the objects with every column. */
  lemma {:induction false} AppendAllHeaderOnce(existing: Option<seq<Record>>, objs: seq<Object>, columns: seq<string>)
    ensures existing.Some? ==>
      AppendAll(existing, objs, columns) == Some(existing.value + CellRecords(Kept(objs, columns), columns))
    ensures existing.None? ==>
      (AppendAll(existing, objs, columns)
        == if Kept(objs, columns) == [] then None else Some([Header(columns)] + CellRecords(Kept(objs, columns), columns)))
    decreases |objs|
  {
    if objs != [] {
      var init, o := objs[..|objs| - 1], objs[|objs| - 1];
      AppendAllHeaderOnce(existing, init, columns);
      var before := AppendAll(existing, init, columns);
      var k := Kept(init, columns);
      if HasColumns(o, columns) {
        assert Kept(objs, columns) == k + [o];
        CellRecordsSnoc(k, o, columns);
        var row := Cells(RowOf(o, columns));
        assert AppendAll(existing, objs, columns) == Some(SaveRow(before, o, columns));
        if existing.Some? {
          assert SaveRow(before, o, columns) == (existing.value + CellRecords(k, columns)) + [row];
          assert existing.value + (CellRecords(k, columns) + [row])
              == (existing.value + CellRecords(k, columns)) + [row];
        } else if k == [] {
          assert CellRecords([o], columns) == [row];
          assert k + [o] == [o];
        } else {
          assert SaveRow(before, o, columns) == ([Header(columns)] + CellRecords(k, columns)) + [row];
          assert [Header(columns)] + (CellRecords(k, columns) + [row])
              == ([Header(columns)] + CellRecords(k, columns)) + [row];
        }
      } else {
        assert Kept(objs, columns) == k + [];
        assert Kept(objs, columns) == k;
        assert AppendAll(existing, objs, columns) == before;
      }
    } else {
      assert CellRecords([], columns) == [];
      assert existing.Some? ==> existing.value + [] == existing.value;
    }
  }

  /** The tables after a file that started as `existing` became `now`. */
  function Stored(tables: map<string, seq<Record>>, path: string, existing: Option<seq<Record>>, now: Option<seq<Record>>): map<string, seq<Record>>
  {
    if now.None? || now == existing then tables else tables[path := now.value]
  }

  /** AppendAll only grows the file. */
  lemma {:induction false} AppendAllGrows(existing: Option<seq<Record>>, objs: seq<Object>, columns: seq<string>)
    ensures var now := AppendAll(existing, objs, columns);
      (now.None? ==> existing.None?) && (existing.Some? ==> now.Some? && |now.value| >= |existing.value|)
    decreases |objs|
  {
    if objs != [] {
      AppendAllGrows(existing, objs[..|objs| - 1], columns);
    }
  }

  /** One more save_dict_to_csv call on the stored state is the store of one more object. */
  lemma SaveStep(tables: map<string, seq<Record>>, texts: map<string, seq<string>>, path: string,
                 objs: seq<Object>, o: Object, columns: seq<string>)
    requires HasColumns(o, columns)
    ensures var existing := ExistingIn(tables, texts, path);
      var now := Stored(tables, path, existing, AppendAll(existing, objs, columns));
      && ExistingIn(now, texts, path) == AppendAll(existing, objs, columns)
      && now[path := SaveRow(ExistingIn(now, texts, path), o, columns)]
         == Stored(tables, path, existing, AppendAll(existing, objs + [o], columns))
  {
    var existing := ExistingIn(tables, texts, path);
    var before := AppendAll(existing, objs, columns);
    AppendAllGrows(existing, objs, columns);
    assert (objs + [o])[..|objs|] == objs;
    var after := AppendAll(existing, objs + [o], columns);
    assert after == Some(SaveRow(before, o, columns));
    assert after != existing by {
      if existing.Some? {
        assert |after.value| > |before.value| >= |existing.value|;
      }
    }
  }

  // ----- merge_multiple_csv -----

  /** The first position of a name. */
  function IndexOf(xs: seq<string>, x: string): (k: nat)
    requires x in xs
    ensures k < |xs| && xs[k] == x && forall j | 0 <= j < k :: xs[j] != x
  {
    if xs[0] == x then 0
    else
      var k := IndexOf(xs[1..], x);
      assert forall j | 1 <= j < k + 1 :: xs[j] == xs[1..][j - 1];
      k + 1
  }

  /** The cell of a row under a column name; NaN where the row has no such column. */
  function CellOf(columns: seq<string>, row: seq<Value>, name: string): Value
  {
    if name in columns && IndexOf(columns, name) < |row| then row[IndexOf(columns, name)] else Null
  }

  /** A row of a frame with columns `from`, laid out under the columns `to`. */
  function Align(from: seq<string>, row: seq<Value>, to: seq<string>): seq<Value>
  {
    seq(|to|, j requires 0 <= j < |to| => CellOf(from, row, to[j]))
  }

  /** `df[columns]`: KeyError when a column is missing. */
  function Project(f: Frame, columns: seq<string>): (r: Result<Frame>)
    ensures r.Ok? <==> forall c | c in columns :: c in f.columns
    ensures r.Ok? ==> r.value.columns == columns && |r.value.rows| == |f.rows|
    ensures r.Err? ==> r.error == KeyError
  {
    if forall c | c in columns :: c in f.columns then
      Ok(Frame(columns, seq(|f.rows|, i requires 0 <= i < |f.rows| => Align(f.columns, f.rows[i], columns))))
    else Err(KeyError)
  }

  /** The loop of merge_multiple_csv over the first files: the column names fixed by the
      first file that has any, and the projected frames. */
  function Collect(paths: seq<string>, readCsv: string -> Result<Frame>): Result<(seq<string>, seq<Frame>)>
  {
    if paths == [] then Ok(([], []))
    else match Collect(paths[..|paths| - 1], readCsv)
      case Err(e) => Err(e)
      case Ok((columns, dfs)) =>
        match readCsv(paths[|paths| - 1])
        case Err(e) => Err(e)
        case Ok(f) =>
          var columns' := if columns == [] then f.columns else columns;
          match Project(f, columns')
          case Err(e) => Err(e)
          case Ok(g) => Ok((columns', dfs + [g]))
  }

  function AllColumns(dfs: seq<Frame>): seq<string>
  {
    if dfs == [] then [] else AllColumns(dfs[..|dfs| - 1]) + dfs[|dfs| - 1].columns
  }

  function AlignedRows(dfs: seq<Frame>, columns: seq<string>): seq<seq<Value>>
  {
    if dfs == [] then []
    else
      var g := dfs[|dfs| - 1];
      AlignedRows(dfs[..|dfs| - 1], columns)
        + seq(|g.rows|, i requires 0 <= i < |g.rows| => Align(g.columns, g.rows[i], columns))
  }

  /** `pd.concat(df_list)`: the union of the columns, the rows one frame after another;
      ValueError on an empty list. */
  function Concat(dfs: seq<Frame>): Result<Frame>
  {
    if dfs == [] then Err(ValueError)
    else
      var columns := DedupBy(AllColumns(dfs), Same);
      Ok(Frame(columns, AlignedRows(dfs, columns)))
  }

  /** The de-duplication key: the cell in column k. */
  function RoomKey(k: nat): seq<Value> -> Value
  {
    (r: seq<Value>) => if k < |r| then r[k] else Null
  }

  /** `drop_duplicates(subset=[RoomCode], keep="first")`: KeyError without that column. */
  function DropRoomDuplicates(f: Frame): Result<Frame>
  {
    if RoomCode !in f.columns then Err(KeyError)
    else Ok(Frame(f.columns, DedupBy(f.rows, RoomKey(IndexOf(f.columns, RoomCode)))))
  }

  /** What merge_multiple_csv writes: the concatenation with the first row per RoomCode. */
  function Merge(paths: seq<string>, readCsv: string -> Result<Frame>): Result<Frame>
  {
    match Collect(paths, readCsv)
    case Err(e) => Err(e)
    case Ok((_, dfs)) =>
      match Concat(dfs)
      case Err(e) => Err(e)
      case Ok(f) => DropRoomDuplicates(f)
  }

  /** After the first file with columns, every frame is projected onto its columns. */
  lemma {:induction false} CollectColumns(paths: seq<string>, readCsv: string -> Result<Frame>)
    requires Collect(paths, readCsv).Ok?
    ensures var (columns, dfs) := Collect(paths, readCsv).value;
      && |dfs| == |paths|
      && forall i | 0 <= i < |dfs| :: dfs[i].columns == columns || dfs[i].columns == []
    ensures paths != [] && readCsv(paths[0]).Ok? && readCsv(paths[0]).value.columns != [] ==>
      Collect(paths, readCsv).value.0 == readCsv(paths[0]).value.columns
    decreases |paths|
  {
    if paths != [] {
      var init := paths[..|paths| - 1];
      CollectColumns(init, readCsv);
      if init != [] {
        assert init[0] == paths[0];
      }
    }
  }

  /** A de-duplication with every key already seen keeps nothing. */
  lemma {:induction false} DedupAfterAllSeen(seen: set<string>, xs: seq<string>)
    requires forall k | k in xs :: k in seen
    ensures DedupAfter(seen, xs, Same) == []
    decreases |xs|
  {
    if xs != [] {
      DedupAfterAllSeen(seen, xs[..|xs| - 1]);
      assert xs[|xs| - 1] in xs;
    }
  }

  lemma {:induction false} AllColumnsFront(dfs: seq<Frame>)
    requires dfs != []
    ensures AllColumns(dfs) == dfs[0].columns + AllColumns(dfs[1..])
    decreases |dfs|
  {
    if |dfs| > 1 {
      var init := dfs[..|dfs| - 1];
      AllColumnsFront(init);
      assert init[1..] == dfs[1..][..|dfs[1..]| - 1];
    } else {
      assert dfs[1..] == [];
    }
  }

  /** Frames that have the given columns or none list only those columns. */
  lemma {:induction false} AllColumnsWithin(dfs: seq<Frame>, columns: seq<string>)
    requires forall i | 0 <= i < |dfs| :: dfs[i].columns == columns || dfs[i].columns == []
    ensures forall k | k in AllColumns(dfs) :: k in columns
    decreases |dfs|
  {
    if dfs != [] {
      var init := dfs[..|dfs| - 1];
      assert forall i | 0 <= i < |init| :: init[i] == dfs[i];
      AllColumnsWithin(init, columns);
    }
  }

  /** Concatenating frames that carry the first frame's columns, or none, keeps those columns. */
  lemma ConcatColumns(dfs: seq<Frame>, columns: seq<string>)
    requires forall i | 0 <= i < |dfs| :: dfs[i].columns == columns || dfs[i].columns == []
    requires dfs != [] && dfs[0].columns == columns && Distinct(columns)
    ensures DedupBy(AllColumns(dfs), Same) == columns
  {
    AllColumnsFront(dfs);
    var rest := dfs[1..];
    assert forall i | 0 <= i < |rest| :: rest[i] == dfs[i + 1];
    AllColumnsWithin(rest, columns);
    DedupAfterConcat({}, columns, AllColumns(rest), Same);
    DedupAfterFixpoint({}, columns, Same);
    KeysOfSame(columns);
    DedupAfterAllSeen({} + KeysOf(columns, Same), AllColumns(rest));
    assert columns + [] == columns;
  }

  /** The de-duplicated rows have pairwise different RoomCodes, and every RoomCode of the
      input is still there. */
  lemma DropRoomDuplicatesKeys(f: Frame)
    requires RoomCode in f.columns
    ensures var g := DropRoomDuplicates(f).value;
      var key := RoomKey(IndexOf(f.columns, RoomCode));
      && g.columns == f.columns
      && (forall i, j | 0 <= i < j < |g.rows| :: key(g.rows[i]) != key(g.rows[j]))
      && KeysOf(g.rows, key) == KeysOf(f.rows, key)
  {
    var key := RoomKey(IndexOf(f.columns, RoomCode));
    DedupAfterDistinct({}, f.rows, key);
    DedupAfterKeySet({}, f.rows, key);
  }

  /** No two rows of the merged table share a RoomCode. */
  lemma MergeRoomCodesDistinct(paths: seq<string>, readCsv: string -> Result<Frame>)
    requires Merge(paths, readCsv).Ok?
    ensures var g := Merge(paths, readCsv).value;
      var key := RoomKey(IndexOf(g.columns, RoomCode));
      RoomCode in g.columns && forall i, j | 0 <= i < j < |g.rows| :: key(g.rows[i]) != key(g.rows[j])
  {
    var dfs := Collect(paths, readCsv).value.1;
    var f := Concat(dfs).value;
    assert Merge(paths, readCsv) == DropRoomDuplicates(f);
    DropRoomDuplicatesKeys(f);
  }

  /** When the first file has columns, the merged table has exactly those columns. */
  lemma MergeColumns(paths: seq<string>, readCsv: string -> Result<Frame>)
    requires Merge(paths, readCsv).Ok? && paths != [] && readCsv(paths[0]).Ok?
    requires readCsv(paths[0]).value.columns != [] && Distinct(readCsv(paths[0]).value.columns)
    ensures Merge(paths, readCsv).value.columns == readCsv(paths[0]).value.columns
  {
    var (columns, dfs) := Collect(paths, readCsv).value;
    CollectColumns(paths, readCsv);
    CollectFirst(paths, readCsv);
    ConcatColumns(dfs, columns);
    assert Concat(dfs).value.columns == columns;
  }

  /** The first frame collected keeps the first file's columns. */
  lemma {:induction false} CollectFirst(paths: seq<string>, readCsv: string -> Result<Frame>)
    requires Collect(paths, readCsv).Ok? && paths != []
    requires readCsv(paths[0]).Ok? && readCsv(paths[0]).value.columns != []
    ensures Collect(paths, readCsv).value.1[0].columns == readCsv(paths[0]).value.columns
    decreases |paths|
  {
    var init := paths[..|paths| - 1];
    if init != [] {
      assert init[0] == paths[0];
      CollectFirst(init, readCsv);
    }
  }
  // ----- the files -----

  /** `path` as convert_json_to_excel and convert_json_to_csv pass it to
      `os.path.join(Path(path).parent, f"{name}_{typ}" + ext)`. */
  function SaveName(path: string, typ: string, ext: string): string
  {
    (if '/' in path then path else "./" + path) + "_" + typ + ext
  }

  /** A converted table never lands on its input, and the Excel and CSV outputs differ. */
  lemma SaveNameFresh(path: string, typ: string)
    ensures SaveName(path, typ, ".xls") != path && SaveName(path, typ, ".csv") != path
    ensures SaveName(path, typ, ".xls") != SaveName(path, typ, ".csv")
  {
    var x, c := SaveName(path, typ, ".xls"), SaveName(path, typ, ".csv");
    assert |x| > |path| && |c| > |path|;
    assert x[|x| - 3] == 'x' && c[|c| - 3] == 'c';
  }

  /** The record lines of a whole table written by to_csv or to_excel. */
  function FrameRecords(f: Frame): seq<Record>
  {
    [Header(f.columns)] + seq(|f.rows|, i requires 0 <= i < |f.rows| => Cells(f.rows[i]))
  }

  /** The path list merge_multiple_file is given: a list, or one path. */
  datatype Paths = PathList(paths: seq<string>) | OnePath(path: string)

  function PathsOf(arg: Paths): seq<string>
  {
    match arg
    case PathList(ps) => ps
    case OnePath(p) => [p]
  }

  /** How many of the paths, from the front, name existing JSON-lines files. */
  function Available(texts: map<string, seq<string>>, paths: seq<string>): (n: nat)
    ensures n <= |paths|
    ensures forall k | 0 <= k < n :: paths[k] in texts
    ensures n < |paths| ==> paths[n] !in texts
  {
    if paths == [] || paths[0] !in texts then 0
    else
      var n := Available(texts, paths[1..]);
      assert forall k | 1 <= k < n + 1 :: paths[k] == paths[1..][k - 1];
      n + 1
  }

  /** The objects of the files, one file after another. */
  function ObjectsOfFiles(texts: map<string, seq<string>>, paths: seq<string>, parse: string -> Option<Value>): seq<Object>
    requires forall k | 0 <= k < |paths| :: paths[k] in texts
  {
    if paths == [] then []
    else ObjectsOfFiles(texts, paths[..|paths| - 1], parse) + ObjectsOf(texts[paths[|paths| - 1]], parse)
  }

  /** The files the scripts read and write: JSON-lines files and written tables. */
  class Workspace {
    var texts: map<string, seq<string>>
    var tables: map<string, seq<Record>>

    constructor (texts: map<string, seq<string>>)
      ensures this.texts == texts && tables == map[]
    {
      this.texts := texts;
      tables := map[];
    }

    /** `os.path.exists(path)`. */
    predicate Exists(path: string)
      reads this
    {
      path in texts || path in tables
    }

    /** `load_data(path)`: the table of the lines that parse to dicts, repeated rows dropped. */
    method LoadData(path: string, parse: string -> Option<Value>) returns (r: Result<Frame>)
      ensures path !in texts ==> r == Err(OSError)
      ensures path in texts ==> r == Ok(LoadedFrame(texts[path], parse))
    {
      if path !in texts {
        return Err(OSError);
      }
      var lines := texts[path];
      var data: seq<Object> := [];
      var i := 0;
      while i < |lines|
        invariant 0 <= i <= |lines|
        invariant data == ObjectsOf(lines[..i], parse)
      {
        assert lines[..i + 1][..i] == lines[..i];
        var v := parse(lines[i]);
        if v.Some? && v.value.Dict? {
          data := data + [v.value.entries];
        }
        i := i + 1;
      }
      assert lines[..i] == lines;
      return Ok(DropDuplicates(FrameOf(data)));
    }

    /** `convert_json_to_excel`: the loaded table written next to the input as .xls;
        `excelWriter` says whether pandas can write that format. */
    method ConvertJsonToExcel(path: string, typ: string, parse: string -> Option<Value>, excelWriter: bool)
      returns (err: Option<Error>)
      modifies this
      ensures texts == old(texts)
      ensures path !in texts ==> err == Some(OSError) && tables == old(tables)
      ensures path in texts && !excelWriter ==> err == Some(ValueError) && tables == old(tables)
      ensures path in texts && excelWriter ==>
        err.None? && tables == old(tables)[SaveName(path, typ, ".xls") := FrameRecords(LoadedFrame(texts[path], parse))]
    {
      var loaded := LoadData(path, parse);
      if loaded.Err? {
        return Some(loaded.error);
      }
      if !excelWriter {
        return Some(ValueError);
      }
      tables := tables[SaveName(path, typ, ".xls") := FrameRecords(loaded.value)];
      return None;
    }

    /** `convert_json_to_csv`: the loaded table written next to the input as .csv. */
    method ConvertJsonToCsv(path: string, typ: string, parse: string -> Option<Value>) returns (err: Option<Error>)
      modifies this
      ensures texts == old(texts)
      ensures path !in texts ==> err == Some(OSError) && tables == old(tables)
      ensures path in texts ==>
        err.None? && tables == old(tables)[SaveName(path, typ, ".csv") := FrameRecords(LoadedFrame(texts[path], parse))]
    {
      var loaded := LoadData(path, parse);
      if loaded.Err? {
        return Some(loaded.error);
      }
      tables := tables[SaveName(path, typ, ".csv") := FrameRecords(loaded.value)];
      return None;
    }

    /** `custom_format`: "txt" does nothing, "csv" converts to CSV with any failure caught,
        anything else tries Excel and falls back to CSV, whose failure escapes. */
    method CustomFormat(path: string, typ: string, saveFileType: string, parse: string -> Option<Value>, excelWriter: bool)
      returns (err: Option<Error>)
      modifies this
      ensures texts == old(texts)
      ensures saveFileType == "txt" ==> err.None? && tables == old(tables)
      ensures saveFileType == "csv" ==>
        (err.None? &&
         tables == if path in texts
                   then old(tables)[SaveName(path, typ, ".csv") := FrameRecords(LoadedFrame(texts[path], parse))]
                   else old(tables))
      ensures saveFileType != "txt" && saveFileType != "csv" && path !in texts ==>
        err == Some(OSError) && tables == old(tables)
      ensures saveFileType != "txt" && saveFileType != "csv" && path in texts ==>
        err.None? && tables == old(tables)[SaveName(path, typ, if excelWriter then ".xls" else ".csv")
                                           := FrameRecords(LoadedFrame(texts[path], parse))]
    {
      if saveFileType == "txt" {
        return None;
      }
      if saveFileType == "csv" {
        var caught := ConvertJsonToCsv(path, typ, parse);
        return None;
      }
      var failed := ConvertJsonToExcel(path, typ, parse, excelWriter);
      if failed.Some? {
        err := ConvertJsonToCsv(path, typ, parse);
      } else {
        err := None;
      }
    }

    /** `save_dict_to_csv`: one record, preceded by the header only when the file is new;
        KeyError, and nothing written, when the dict lacks a column. */
    method SaveDictToCsv(mapping: Object, savePath: string, columns: seq<string>) returns (err: Option<Error>)
      modifies this
      ensures texts == old(texts)
      ensures !HasColumns(mapping, columns) ==> err == Some(KeyError) && tables == old(tables)
      ensures HasColumns(mapping, columns) ==>
        (err.None? && tables == old(tables)[savePath := SaveRow(ExistingIn(old(tables), texts, savePath), mapping, columns)])
    {
      if !HasColumns(mapping, columns) {
        return Some(KeyError);
      }
      var row := Cells(RowOf(mapping, columns));
      if Exists(savePath) {
        var current := if savePath in tables then tables[savePath] else [];
        assert ExistingIn(tables, texts, savePath) == Some(current);
        tables := tables[savePath := current + [row]];
      } else {
        assert ExistingIn(tables, texts, savePath) == None;
        tables := tables[savePath := [Header(columns)] + [row]];
      }
      return None;
    }

    /** `get_column_name(path)`. */
    function GetColumnName(path: string, parse: string -> Option<Value>): Result<Option<seq<string>>>
      reads this
    {
      if path !in texts then Err(OSError) else ColumnName(texts[path], parse)
    }

    /** `merge_multiple_file`: the dicts of every file appended to one CSV under the first
        file's column names; nothing when those are missing or empty; a missing later file
        stops the merge with OSError after the earlier files were appended. */
    method MergeMultipleFile(arg: Paths, savePath: string, parse: string -> Option<Value>) returns (err: Option<Error>)
      modifies this
      ensures texts == old(texts)
      ensures PathsOf(arg) == [] ==> err == Some(IndexError) && tables == old(tables)
      ensures PathsOf(arg) != [] ==>
        var paths := PathsOf(arg);
        var cn := GetColumnName(paths[0], parse);
        && (cn.Err? ==> err == Some(cn.error) && tables == old(tables))
        && (cn.Ok? && (cn.value.None? || cn.value.value == []) ==> err.None? && tables == old(tables))
        && (cn.Ok? && cn.value.Some? && cn.value.value != [] ==>
              var n := Available(texts, paths);
              var existing := ExistingIn(old(tables), texts, savePath);
              && err == (if n < |paths| then Some(OSError) else None)
              && tables == Stored(old(tables), savePath, existing,
                                  AppendAll(existing, ObjectsOfFiles(texts, paths[..n], parse), cn.value.value)))
    {
      var paths := PathsOf(arg);
      if paths == [] {
        return Some(IndexError);
      }
      var cn := GetColumnName(paths[0], parse);
      if cn.Err? {
        return Some(cn.error);
      }
      if cn.value.None? || cn.value.value == [] {
        return None;
      }
      var columns := cn.value.value;
      ghost var t0 := tables;
      ghost var existing := ExistingIn(tables, texts, savePath);
      ghost var n := Available(texts, paths);
      assert paths[..0] == [];
      var i := 0;
      while i < |paths|
        invariant 0 <= i <= n
        invariant texts == old(texts)
        invariant tables == Stored(t0, savePath, existing, AppendAll(existing, ObjectsOfFiles(texts, paths[..i], parse), columns))
      {
        if paths[i] !in texts {
          return Some(OSError);
        }
        assert paths[..i + 1][..i] == paths[..i];
        SaveLinesToCsv(texts[paths[i]], savePath, columns, parse, t0, existing, ObjectsOfFiles(texts, paths[..i], parse));
        i := i + 1;
      }
      assert paths[..i] == paths[..n];
      return None;
    }

    /** The loop of merge_multiple_file over the lines of one file: each dict is saved,
        and a line that does not parse, or a dict that lacks a column, is skipped. */
    method SaveLinesToCsv(lines: seq<string>, savePath: string, columns: seq<string>, parse: string -> Option<Value>,
                          ghost t0: map<string, seq<Record>>, ghost existing: Option<seq<Record>>, ghost before: seq<Object>)
      requires existing == ExistingIn(t0, texts, savePath)
      requires tables == Stored(t0, savePath, existing, AppendAll(existing, before, columns))
      modifies this
      ensures texts == old(texts)
      ensures tables == Stored(t0, savePath, existing, AppendAll(existing, before + ObjectsOf(lines, parse), columns))
    {
      assert lines[..0] == [];
      assert before + ObjectsOf(lines[..0], parse) == before;
      var j := 0;
      while j < |lines|
        invariant 0 <= j <= |lines|
        invariant texts == old(texts)
        invariant tables == Stored(t0, savePath, existing, AppendAll(existing, before + ObjectsOf(lines[..j], parse), columns))
      {
        assert lines[..j + 1][..j] == lines[..j];
        ghost var done := before + ObjectsOf(lines[..j], parse);
        var v := parse(lines[j]);
        if v.Some? && v.value.Dict? {
          var o := v.value.entries;
          assert before + ObjectsOf(lines[..j + 1], parse) == done + [o];
          if HasColumns(o, columns) {
            SaveStep(t0, texts, savePath, done, o, columns);
          } else {
            assert (done + [o])[..|done|] == done;
          }
          var caught := SaveDictToCsv(o, savePath, columns);
        } else {
          assert before + ObjectsOf(lines[..j + 1], parse) == done;
        }
        j := j + 1;
      }
      assert lines[..j] == lines;
    }

    /** `merge_multiple_csv`: every CSV projected onto the first file's columns, concatenated,
        the first row per RoomCode kept, the result written to `savePath`. */
    method MergeMultipleCsv(paths: seq<string>, savePath: string, readCsv: string -> Result<Frame>) returns (err: Option<Error>)
      modifies this
      ensures texts == old(texts)
      ensures Merge(paths, readCsv).Err? ==> err == Some(Merge(paths, readCsv).error) && tables == old(tables)
      ensures Merge(paths, readCsv).Ok? ==>
        err.None? && tables == old(tables)[savePath := FrameRecords(Merge(paths, readCsv).value)]
    {
      var columnName: seq<string> := [];
      var dfList: seq<Frame> := [];
      var i := 0;
      while i < |paths|
        invariant 0 <= i <= |paths|
        invariant Collect(paths[..i], readCsv) == Ok((columnName, dfList))
      {
        assert paths[..i + 1][..i] == paths[..i];
        var df := readCsv(paths[i]);
        if df.Err? {
          MergeStopsAt(paths, readCsv, i + 1);
          return Some(df.error);
        }
        if columnName == [] {
          columnName := df.value.columns;
        }
        var projected := Project(df.value, columnName);
        if projected.Err? {
          MergeStopsAt(paths, readCsv, i + 1);
          return Some(projected.error);
        }
        dfList := dfList + [projected.value];
        i := i + 1;
      }
      assert paths[..i] == paths;
      var total := Concat(dfList);
      if total.Err? {
        return Some(total.error);
      }
      var deduped := DropRoomDuplicates(total.value);
      if deduped.Err? {
        return Some(deduped.error);
      }
      tables := tables[savePath := FrameRecords(deduped.value)];
      return None;
    }
  }

  /** An error while collecting the first k files is the error of the whole merge. */
  lemma {:induction false} MergeStopsAt(paths: seq<string>, readCsv: string -> Result<Frame>, k: nat)
    requires k <= |paths| && Collect(paths[..k], readCsv).Err?
    ensures Merge(paths, readCsv) == Err(Collect(paths[..k], readCsv).error)
    decreases |paths| - k
  {
    if k == |paths| {
      assert paths[..k] == paths;
    } else {
      assert paths[..k + 1][..k] == paths[..k];
      MergeStopsAt(paths, readCsv, k + 1);
    }
  }
}
