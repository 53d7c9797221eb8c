/**
  The Canvas consent-form reader: resolves the two quiz columns whose
  headers are only known by a fragment, then maps every CSV row to a
  `ConsentFormEntry` (infra/csv/canvas_consent_form_reader.py).

  CSV tokenising is outside the model: a file is its header row (absent for
  an empty file) and its rows, each row a map from header to cell text.
*/
module ConsentForms {
  import opened Wrappers
  import opened Text

  /** One consent-form submission attempt (app/dtos/consent_form_entry.py). */
  datatype ConsentFormEntry = ConsentFormEntry(
    sis_id: int,
    lms_name: string,       // display name as Canvas shows it
    attempt: int,
    name_response: string,  // the typed name from the "leave blank if" question
    consented: bool         // the "Do you consent" answer
  )

  type Row = map<string, string>

  /** What `csv.DictReader` yields: `fieldnames` (None for an empty file) and the data rows. */
  datatype CsvTable = CsvTable(fieldnames: Option<seq<string>>, rows: seq<Row>)

  datatype ReadError =
    | NoHeader                                               // iterating `fieldnames` that is None
    | ColumnNotUnique(substring: string, matches: seq<string>) // `_find_column`'s ValueError
    | MissingCell(row: nat, column: string)                  // KeyError from `row[column]`
    | NotAnInteger(row: nat, column: string, cell: string)   // ValueError from `int(cell)`

  const NameSubstring := "leave blank if"
  const ConsentSubstring := "Do you consent"

  /** The headers containing `sub`, in header order (the list comprehension of `_find_column`). */
  function Matches(sub: string, fieldnames: seq<string>): (r: seq<string>)
    ensures |r| <= |fieldnames|
    ensures forall f :: f in r ==> f in fieldnames && Contains(f, sub)
    ensures forall i :: 0 <= i < |fieldnames| && Contains(fieldnames[i], sub) ==> fieldnames[i] in r
  {
    if fieldnames == [] then []
    else if Contains(fieldnames[0], sub) then [fieldnames[0]] + Matches(sub, fieldnames[1..])
    else Matches(sub, fieldnames[1..])
  }

  /**
    `idx` lists, in increasing order, exactly the header positions whose
    header contains `sub`.
  */
  ghost predicate MatchPositions(sub: string, fieldnames: seq<string>, idx: seq<int>) {
    && (forall k :: 0 <= k < |idx| ==> 0 <= idx[k] < |fieldnames|)
    && (forall k, l :: 0 <= k < l < |idx| ==> idx[k] < idx[l])
    && (forall i :: 0 <= i < |fieldnames| ==> (Contains(fieldnames[i], sub) <==> i in idx))
  }

  /** The positions of the headers containing `sub`, in increasing order. */
  function MatchIndices(sub: string, fieldnames: seq<string>): seq<int>
    decreases |fieldnames|
  {
    if fieldnames == [] then []
    else (if Contains(fieldnames[0], sub) then [0] else []) + Shift(MatchIndices(sub, fieldnames[1..]))
  }

  /**
    The matches are the headers at the matching positions, in header order
    and with repeated headers kept: the list comprehension's filter, so its
    length is the number of matching positions.
  */
  lemma {:induction false} MatchesInOrder(sub: string, fieldnames: seq<string>)
    ensures MatchPositions(sub, fieldnames, MatchIndices(sub, fieldnames))
    ensures |MatchIndices(sub, fieldnames)| == |Matches(sub, fieldnames)|
    ensures forall k :: 0 <= k < |MatchIndices(sub, fieldnames)| ==>
              Matches(sub, fieldnames)[k] == fieldnames[MatchIndices(sub, fieldnames)[k]]
  {
    if fieldnames != [] {
      var tail := fieldnames[1..];
      var idx', idx := MatchIndices(sub, tail), MatchIndices(sub, fieldnames);
      var head := Contains(fieldnames[0], sub);
      MatchesInOrder(sub, tail);
      ConsPositions(sub, fieldnames, idx', head);
      assert Matches(sub, fieldnames) == (if head then [fieldnames[0]] else []) + Matches(sub, tail);
      ConsMatches(fieldnames, Matches(sub, tail), idx', head);
    }
  }

  /** Matched headers paired with their positions stay paired when the first header is put in front. */
  lemma ConsMatches(fieldnames: seq<string>, m': seq<string>, idx': seq<int>, head: bool)
    requires fieldnames != [] && |idx'| == |m'|
    requires forall k :: 0 <= k < |idx'| ==> 0 <= idx'[k] < |fieldnames| - 1 && m'[k] == fieldnames[1..][idx'[k]]
    ensures var m, idx := (if head then [fieldnames[0]] else []) + m', (if head then [0] else []) + Shift(idx');
            |idx| == |m| && forall k :: 0 <= k < |idx| ==> m[k] == fieldnames[idx[k]]
  {
    var m, idx := (if head then [fieldnames[0]] else []) + m', (if head then [0] else []) + Shift(idx');
    forall k | 0 <= k < |idx| ensures m[k] == fieldnames[idx[k]] {
      if !(head && k == 0) {
        var k' := if head then k - 1 else k;
        assert m[k] == m'[k'] && idx[k] == idx'[k'] + 1;
      }
    }
  }

  /** Every position moved one place on. */
  function Shift(idx: seq<int>): (r: seq<int>)
    ensures |r| == |idx| && forall k :: 0 <= k < |idx| ==> r[k] == idx[k] + 1
  {
    seq(|idx|, k requires 0 <= k < |idx| => idx[k] + 1)
  }

  /** The match positions of a header row, from those of its tail. */
  lemma ConsPositions(sub: string, fieldnames: seq<string>, idx': seq<int>, head: bool)
    requires fieldnames != [] && MatchPositions(sub, fieldnames[1..], idx')
    requires head == Contains(fieldnames[0], sub)
    ensures MatchPositions(sub, fieldnames, (if head then [0] else []) + Shift(idx'))
  {
    var tail, shifted := fieldnames[1..], Shift(idx');
    var idx := (if head then [0] else []) + shifted;
    forall i | 0 <= i < |fieldnames| ensures Contains(fieldnames[i], sub) <==> i in idx {
      if i > 0 {
        assert fieldnames[i] == tail[i - 1];
        if i - 1 in idx' {
          var k :| 0 <= k < |idx'| && idx'[k] == i - 1;
          assert shifted[k] == i;
        }
        if i in shifted {
          var k :| 0 <= k < |shifted| && shifted[k] == i;
          assert idx'[k] == i - 1;
        }
        assert i in idx <==> i in shifted;
      } else {
        assert 0 !in shifted;
      }
    }
  }

  /** Position `i` is the one and only header containing `sub`. */
  ghost predicate UniqueMatchAt(sub: string, fieldnames: seq<string>, i: int) {
    && 0 <= i < |fieldnames|
    && Contains(fieldnames[i], sub)
    && forall j :: 0 <= j < |fieldnames| && j != i ==> !Contains(fieldnames[j], sub)
  }

  /** There is exactly one match iff exactly one header position contains `sub`. */
  lemma {:induction false} OneMatchIffUnique(sub: string, fieldnames: seq<string>)
    ensures |Matches(sub, fieldnames)| == 1 <==> exists i :: UniqueMatchAt(sub, fieldnames, i)
  {
    if fieldnames != [] {
      var tail := fieldnames[1..];
      OneMatchIffUnique(sub, tail);
      if Contains(fieldnames[0], sub) {
        if |Matches(sub, fieldnames)| == 1 {
          assert Matches(sub, tail) == [];
          forall j | 0 < j < |fieldnames| ensures !Contains(fieldnames[j], sub) {
            assert fieldnames[j] == tail[j - 1];
          }
          assert UniqueMatchAt(sub, fieldnames, 0);
        } else if i :| UniqueMatchAt(sub, fieldnames, i) {
          NoOtherMatches(sub, fieldnames);
        }
      } else {
        if |Matches(sub, tail)| == 1 {
          var i :| UniqueMatchAt(sub, tail, i);
          forall j | 0 <= j < |fieldnames| && j != i + 1 ensures !Contains(fieldnames[j], sub) {
            if j > 0 { assert fieldnames[j] == tail[j - 1]; }
          }
          assert UniqueMatchAt(sub, fieldnames, i + 1);
        } else if i :| UniqueMatchAt(sub, fieldnames, i) {
          assert i > 0;
          forall j | 0 <= j < |tail| && j != i - 1 ensures !Contains(tail[j], sub) {
            assert tail[j] == fieldnames[j + 1];
          }
          assert UniqueMatchAt(sub, tail, i - 1);
        }
      }
    }
  }

  lemma {:induction false} NoOtherMatches(sub: string, fieldnames: seq<string>)
    requires UniqueMatchAt(sub, fieldnames, 0)
    ensures Matches(sub, fieldnames[1..]) == []
  {
    NoMatches(sub, fieldnames[1..]);
  }

  lemma {:induction false} NoMatches(sub: string, fieldnames: seq<string>)
    requires forall j :: 0 <= j < |fieldnames| ==> !Contains(fieldnames[j], sub)
    ensures Matches(sub, fieldnames) == []
  {
    if fieldnames != [] {
      NoMatches(sub, fieldnames[1..]);
    }
  }

  /**
    `_find_column`: the single header containing `sub`; with zero or several,
    an error carrying the substring and the headers that did match.
  */
  function FindColumn(sub: string, fieldnames: seq<string>): (r: Result<string, ReadError>)
    ensures r.Ok? <==> exists i :: UniqueMatchAt(sub, fieldnames, i)
    ensures r.Ok? ==> exists i :: UniqueMatchAt(sub, fieldnames, i) && fieldnames[i] == r.value
    ensures r.Err? ==> r.error.ColumnNotUnique? && r.error.substring == sub
                       && |r.error.matches| != 1 && r.error.matches == Matches(sub, fieldnames)
                       && forall f :: f in r.error.matches <==> f in fieldnames && Contains(f, sub)
  {
    var matches := Matches(sub, fieldnames);
    OneMatchIffUnique(sub, fieldnames);
    if |matches| != 1 then Err(ColumnNotUnique(sub, matches))
    else
      OneMatchIsTheUniqueOne(sub, fieldnames);
      Ok(matches[0])
  }

  lemma OneMatchIsTheUniqueOne(sub: string, fieldnames: seq<string>)
    requires |Matches(sub, fieldnames)| == 1
    ensures exists i :: UniqueMatchAt(sub, fieldnames, i) && fieldnames[i] == Matches(sub, fieldnames)[0]
  {
    OneMatchIffUnique(sub, fieldnames);
    var i :| UniqueMatchAt(sub, fieldnames, i);
    var f := Matches(sub, fieldnames)[0];
    var k :| 0 <= k < |fieldnames| && fieldnames[k] == f;
    assert k == i;
  }

  /** The two quiz columns, both resolved before any row is read (lines 35-36). */
  function ResolveColumns(table: CsvTable): (r: Result<(string, string), ReadError>)
    ensures table.fieldnames.None? ==> r == Err(NoHeader)
    ensures r.Ok? ==> table.fieldnames.Some?
                      && FindColumn(NameSubstring, table.fieldnames.value) == Ok(r.value.0)
                      && FindColumn(ConsentSubstring, table.fieldnames.value) == Ok(r.value.1)
    ensures r.Ok? <==> && table.fieldnames.Some?
                       && FindColumn(NameSubstring, table.fieldnames.value).Ok?
                       && FindColumn(ConsentSubstring, table.fieldnames.value).Ok?
    ensures table.fieldnames.Some? && FindColumn(NameSubstring, table.fieldnames.value).Err? ==>
              r == FindColumn(NameSubstring, table.fieldnames.value).PropagateFailure()
    ensures && table.fieldnames.Some? && FindColumn(NameSubstring, table.fieldnames.value).Ok?
            && FindColumn(ConsentSubstring, table.fieldnames.value).Err? ==>
              r == FindColumn(ConsentSubstring, table.fieldnames.value).PropagateFailure()
  {
    if table.fieldnames.None? then Err(NoHeader)
    else
      var colName :- FindColumn(NameSubstring, table.fieldnames.value);
      var colBool :- FindColumn(ConsentSubstring, table.fieldnames.value);
      Ok((colName, colBool))
  }

  function Cell(row: Row, index: nat, column: string): (r: Result<string, ReadError>)
    ensures r.Ok? <==> column in row
    ensures r.Ok? ==> r.value == row[column]
    ensures r.Err? ==> r.error == MissingCell(index, column)
  {
    if column in row then Ok(row[column]) else Err(MissingCell(index, column))
  }

  function IntCell(row: Row, index: nat, column: string): (r: Result<int, ReadError>)
    ensures r.Ok? <==> column in row && ParseInt(row[column]).Some?
    ensures r.Ok? ==> Some(r.value) == ParseInt(row[column])
  {
    var cell :- Cell(row, index, column);
    match ParseInt(cell)
    case Some(n) => Ok(n)
    case None => Err(NotAnInteger(index, column, cell))
  }

  /**
    One row as `load` maps it, the failures in the order Python evaluates the
    constructor's arguments: sis_id, name, attempt, typed name, consent.
  */
  function EntryOf(row: Row, index: nat, colName: string, colBool: string): Result<ConsentFormEntry, ReadError>
  {
    var sisId :- IntCell(row, index, "sis_id");
    var name :- Cell(row, index, "name");
    var attempt :- IntCell(row, index, "attempt");
    var response :- Cell(row, index, colName);
    var consent :- Cell(row, index, colBool);
    Ok(ConsentFormEntry(
      sis_id := sisId,
      lms_name := Strip(name),
      attempt := attempt,
      name_response := Strip(response),
      consented := consent == "True"))
  }

  /**
    What a mapped row holds: the two integers as parsed, both names with only
    their outer whitespace removed, and consent exactly when the cell is "True".
    A row maps iff its three fixed cells and both resolved cells are present
    and both integer cells parse.
  */
  lemma EntryFields(row: Row, index: nat, colName: string, colBool: string)
    ensures var r := EntryOf(row, index, colName, colBool);
      && (r.Ok? <==> && "sis_id" in row && ParseInt(row["sis_id"]).Some?
                     && "name" in row
                     && "attempt" in row && ParseInt(row["attempt"]).Some?
                     && colName in row && colBool in row)
      && (r.Ok? ==> && Some(r.value.sis_id) == ParseInt(row["sis_id"])
                    && r.value.lms_name == Strip(row["name"])
                    && Some(r.value.attempt) == ParseInt(row["attempt"])
                    && r.value.name_response == Strip(row[colName])
                    && (r.value.consented <==> row[colBool] == "True"))
      && ("sis_id" !in row ==> r == Err(MissingCell(index, "sis_id")))
  {
  }

  /** Row `i` is the first row that cannot be mapped. */
  ghost predicate FirstBadRow(rows: seq<Row>, colName: string, colBool: string, i: int) {
    && 0 <= i < |rows|
    && EntryOf(rows[i], i, colName, colBool).Err?
    && forall k :: 0 <= k < i ==> EntryOf(rows[k], k, colName, colBool).Ok?
  }

  /**
    `r` is what mapping `rows` gives: one entry per row, in file order, or
    the error of the first row that cannot be mapped.
  */
  ghost predicate MapsRows(rows: seq<Row>, colName: string, colBool: string,
                           r: Result<seq<ConsentFormEntry>, ReadError>) {
    && (r.Ok? ==> && |r.value| == |rows|
                  && forall i :: 0 <= i < |rows| ==> EntryOf(rows[i], i, colName, colBool) == Ok(r.value[i]))
    && (r.Err? ==> exists i :: && FirstBadRow(rows, colName, colBool, i)
                               && r == EntryOf(rows[i], i, colName, colBool).PropagateFailure())
  }

  /** The row loop of `load`: append one entry per row; the first bad row aborts. */
  method MapRows(rows: seq<Row>, colName: string, colBool: string)
    returns (r: Result<seq<ConsentFormEntry>, ReadError>)
    ensures r.Ok? ==> |r.value| == |rows|
    ensures r.Ok? ==> forall i :: 0 <= i < |rows| ==> EntryOf(rows[i], i, colName, colBool) == Ok(r.value[i])
    ensures r.Err? ==> exists i :: && FirstBadRow(rows, colName, colBool, i)
                                   && r == EntryOf(rows[i], i, colName, colBool).PropagateFailure()
  {
    var entries: seq<ConsentFormEntry> := [];
    var i := 0;
    while i < |rows|
      invariant 0 <= i <= |rows| && |entries| == i
      invariant forall k :: 0 <= k < i ==> EntryOf(rows[k], k, colName, colBool) == Ok(entries[k])
    {
      var e := EntryOf(rows[i], i, colName, colBool);
      if e.Err? {
        assert FirstBadRow(rows, colName, colBool, i);
        return e.PropagateFailure();
      }
      entries := entries + [e.value];
      i := i + 1;
    }
    return Ok(entries);
  }

  /**
    `CanvasConsentFormReader.load` once the file is open: resolve both
    columns, then map every row. Any failure aborts the load and no entries
    are returned.
  */
  method Load(table: CsvTable) returns (r: Result<seq<ConsentFormEntry>, ReadError>)
    ensures ResolveColumns(table).Err? ==> r == ResolveColumns(table).PropagateFailure()
    ensures ResolveColumns(table).Ok? ==>
              MapsRows(table.rows, ResolveColumns(table).value.0, ResolveColumns(table).value.1, r)
  {
    var cols := ResolveColumns(table);
    if cols.Err? {
      return cols.PropagateFailure();
    }
    r := MapRows(table.rows, cols.value.0, cols.value.1);
  }

  /** Only the exact text "True" counts as consent: not "TRUE", "true", "False" or a blank cell. */
  lemma ConsentIsLiteralTrue(row: Row, index: nat, colName: string, colBool: string)
    requires EntryOf(row, index, colName, colBool).Ok?
    requires row[colBool] in {"", "False", "TRUE", "true", " True"}
    ensures !EntryOf(row, index, colName, colBool).value.consented
  {
  }
}
