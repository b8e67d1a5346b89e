/**
 * The pure helpers of the training-data generator: recognising the INSERT
 * statements of the SemMedDB MySQL dump, cutting out their values, turning
 * the value columns back into rows, filtering OxO mappings, and normalising
 * drug ids before MyChem is asked about them.
 */
module DataGeneration {
  import opened Wrappers
  import opened Text

  const InsertInto := "INSERT INTO"
  const ValuesMarker := "` VALUES "
  const AssertionError := "AssertionError"
  const IndexError := "IndexError: string index out of range"
  const NoRowError := "IndexError: list index out of range"

  // ---------------------------------------------------------------- dump lines

  /** `is_insert`: the line begins an INSERT statement. */
  function IsInsert(line: string): (r: bool)
    ensures r <==> |line| >= |InsertInto| && line[..|InsertInto|] == InsertInto
  {
    StartsWith(line, InsertInto)
  }

  /** `get_values`: what follows the first "` VALUES ", or "" when there is none. */
  function GetValues(line: string): string {
    After(line, ValuesMarker)
  }

  /**
   * The values of `INSERT INTO `<table>` VALUES <values>` are `values`
   * whenever the table name holds no backtick and no space.
   */
  lemma GetValuesOf(table: string, values: string)
    requires forall i | 0 <= i < |table| :: table[i] != '`' && table[i] != ' '
    ensures GetValues(InsertInto + " `" + table + ValuesMarker + values) == values
  {
    var line := InsertInto + " `" + table + ValuesMarker + values;
    var k := |InsertInto| + 2 + |table|;
    assert line[k..k + |ValuesMarker|] == ValuesMarker;
    assert OccursAt(line, ValuesMarker, k);
    forall j: nat | j < k
      ensures !OccursAt(line, ValuesMarker, j)
    {
      if j + |ValuesMarker| <= |line| {
        var w := line[j..j + |ValuesMarker|];
        if j < |InsertInto| + 1 {
          // only the backtick before the table name is a backtick there
          assert w[0] == line[j] != '`';
        } else if j == |InsertInto| + 1 {
          assert w[1] == line[j + 1] != ' ';
        } else {
          assert w[0] == table[j - |InsertInto| - 2] != '`';
        }
      }
    }
    var i := IndexOf(line, ValuesMarker).value;
    assert i == k;
  }

  /** `values_sanity_check`: the values must be non-empty and open with `(`. */
  function ValuesSanityCheck(values: string): (r: Result<bool>)
    ensures r.Ok? <==> |values| > 0 && values[0] == '('
    ensures r.Ok? ==> r.value
  {
    if |values| == 0 then Raise(AssertionError)
    else if values[0] != '(' then Raise(AssertionError)
    else Ok(true)
  }

  // ---------------------------------------------------------------- parse_values

  /** The row being filled and the rows written so far. */
  datatype RowState = RowState(latest: seq<string>, written: seq<seq<string>>)

  const NullCell := [0 as char]

  /** One column of `parse_values`. */
  function ParseColumn(st: RowState, column: string): (r: Result<RowState>)
    ensures (|column| == 0 || column == "NULL") ==> r == Ok(st.(latest := st.latest + [NullCell]))
    ensures |column| > 0 && column != "NULL" && column[0] != '(' ==> r == Ok(st.(latest := st.latest + [column]))
  {
    if |column| == 0 || column == "NULL" then Ok(st.(latest := st.latest + [NullCell]))
    else if column[0] != '(' then Ok(st.(latest := st.latest + [column]))
    else if |st.latest| == 0 then Ok(st.(latest := [column[1..]]))
    else
      var last := st.latest[|st.latest| - 1];
      if |last| == 0 then Raise(IndexError)
      else if last[|last| - 1] != ')' then Ok(st.(latest := st.latest + [column]))
      else
        var closed := st.latest[..|st.latest| - 1] + [last[..|last| - 1]];
        Ok(RowState([column[1..]], st.written + [closed]))
  }

  /** The state after the columns `columns`, from `st`. */
  function ParseColumns(st: RowState, columns: seq<string>): Result<RowState>
    decreases |columns|
  {
    if |columns| == 0 then Ok(st)
    else
      match ParseColumns(st, columns[..|columns| - 1])
      case Raise(e) => Raise(e)
      case Ok(mid) => ParseColumn(mid, columns[|columns| - 1])
  }

  /** The end of the statement: a final `);` is removed and the last row written; otherwise it is not written. */
  function FinishRows(st: RowState): (r: Result<seq<seq<string>>>)
    ensures r.Raise? <==> |st.latest| == 0
    ensures r.Ok? && !EndsWith(st.latest[|st.latest| - 1], ");") ==> r.value == st.written
    ensures r.Ok? && EndsWith(st.latest[|st.latest| - 1], ");") ==>
      && |r.value| == |st.written| + 1 && r.value[..|st.written|] == st.written
      && var row := r.value[|st.written|];
         && |row| == |st.latest| && row[..|row| - 1] == st.latest[..|st.latest| - 1]
         && row[|row| - 1] + ");" == st.latest[|st.latest| - 1]
  {
    if |st.latest| == 0 then Raise(NoRowError)
    else
      var last := st.latest[|st.latest| - 1];
      if EndsWith(last, ");") then Ok(st.written + [st.latest[..|st.latest| - 1] + [last[..|last| - 2]]])
      else Ok(st.written)
  }

  /** `parse_values` on the columns the CSV reader produced: the rows it writes. */
  function ParseValues(columns: seq<string>): Result<seq<seq<string>>> {
    match ParseColumns(RowState([], []), columns)
    case Raise(e) => Raise(e)
    case Ok(st) => FinishRows(st)
  }

  /** The loop of `parse_values`, filling `latest_row` and writing each completed row. */
  method ParseValuesLoop(columns: seq<string>) returns (r: Result<seq<seq<string>>>)
    ensures r == ParseValues(columns)
  {
    var latest: seq<string> := [];
    var written: seq<seq<string>> := [];
    for i := 0 to |columns|
      invariant ParseColumns(RowState([], []), columns[..i]) == Ok(RowState(latest, written))
    {
      assert columns[..i + 1][..i] == columns[..i];
      ghost var next := ParseColumn(RowState(latest, written), columns[i]);
      assert ParseColumns(RowState([], []), columns[..i + 1]) == next;
      var column := columns[i];
      if |column| == 0 || column == "NULL" {
        latest := latest + [NullCell];
        assert next == Ok(RowState(latest, written));
        continue;
      }
      if column[0] == '(' {
        var newRow := false;
        if |latest| > 0 {
          var last := latest[|latest| - 1];
          if |last| == 0 {
            assert next.Raise?;
            ParseColumnsAppend(RowState([], []), columns[..i + 1], columns[i + 1..]);
            assert columns[..i + 1] + columns[i + 1..] == columns;
            return Raise(IndexError);
          }
          if last[|last| - 1] == ')' {
            latest := latest[..|latest| - 1] + [last[..|last| - 1]];
            newRow := true;
          }
        }
        if newRow {
          written := written + [latest];
          latest := [];
        }
        if |latest| == 0 {
          column := column[1..];
          assert latest + [column] == [column];
        }
      }
      latest := latest + [column];
      assert next == Ok(RowState(latest, written));
    }
    assert columns[..|columns|] == columns;
    if |latest| == 0 {
      return Raise(NoRowError);
    }
    var last := latest[|latest| - 1];
    if EndsWith(last, ");") {
      written := written + [latest[..|latest| - 1] + [last[..|last| - 2]]];
    }
    r := Ok(written);
  }

  /** A value the dump writes without surprises: non-empty, not `NULL`, not opening with `(`. */
  predicate Plain(field: string) {
    |field| > 0 && field != "NULL" && field[0] != '('
  }

  /** Rows of at least one plain value each. */
  predicate PlainRows(rows: seq<seq<string>>) {
    forall i | 0 <= i < |rows| :: |rows[i]| > 0 && forall j | 0 <= j < |rows[i]| :: Plain(rows[i][j])
  }

  /** A row with `suffix` after its last value. */
  function Closed(row: seq<string>, suffix: string): seq<string>
    requires |row| > 0
  {
    row[..|row| - 1] + [row[|row| - 1] + suffix]
  }

  /** A row with `(` before its first value. */
  function Opened(row: seq<string>): seq<string>
    requires |row| > 0
  {
    ["(" + row[0]] + row[1..]
  }

  /** The columns of rows written `(a, ..., z)` one after the other. */
  function Body(rows: seq<seq<string>>): seq<string>
    requires forall i | 0 <= i < |rows| :: |rows[i]| > 0
  {
    if |rows| == 0 then [] else Body(rows[..|rows| - 1]) + Opened(Closed(rows[|rows| - 1], ")"))
  }

  /** The columns of a whole statement: the last row ends with `);`. */
  function Dump(rows: seq<seq<string>>): seq<string>
    requires |rows| > 0 && forall i | 0 <= i < |rows| :: |rows[i]| > 0
  {
    Body(rows[..|rows| - 1]) + Opened(Closed(rows[|rows| - 1], ");"))
  }

  /** Running two stretches of columns one after the other. */
  lemma {:induction false} ParseColumnsAppend(st: RowState, a: seq<string>, b: seq<string>)
    ensures ParseColumns(st, a + b) ==
      match ParseColumns(st, a)
      case Raise(e) => Raise(e)
      case Ok(mid) => ParseColumns(mid, b)
    decreases |b|
  {
    if |b| == 0 {
      assert a + b == a;
    } else {
      var init := b[..|b| - 1];
      assert (a + b)[..|a + b| - 1] == a + init;
      assert (a + b)[|a + b| - 1] == b[|b| - 1];
      ParseColumnsAppend(st, a, init);
    }
  }

  /** Plain columns are appended to the row being filled. */
  lemma {:induction false} ParsePlainColumns(st: RowState, columns: seq<string>)
    requires forall i | 0 <= i < |columns| :: Plain(columns[i])
    ensures ParseColumns(st, columns) == Ok(st.(latest := st.latest + columns))
    decreases |columns|
  {
    if |columns| > 0 {
      var init := columns[..|columns| - 1];
      var c := columns[|columns| - 1];
      var mid := RowState(st.latest + init, st.written);
      ParsePlainColumns(st, init);
      assert ParseColumns(st, init) == Ok(mid);
      assert Plain(c);
      assert ParseColumn(mid, c) == Ok(RowState(st.latest + init + [c], st.written));
      assert init + [c] == columns;
      assert st.latest + init + [c] == st.latest + columns;
    } else {
      assert st.latest + columns == st.latest;
    }
  }

  /** The state before a row: the previous row still being filled, with its `)`. */
  function Before(written: seq<seq<string>>, prev: seq<string>): RowState {
    if |prev| == 0 then RowState([], written) else RowState(Closed(prev, ")"), written)
  }

  /** The rows written once the row after `prev` has begun. */
  function WrittenAfter(written: seq<seq<string>>, prev: seq<string>): seq<seq<string>> {
    if |prev| == 0 then written else written + [prev]
  }

  /** The opening column of a row closes the previous one, writes it, and begins the new one. */
  lemma ParseOpening(written: seq<seq<string>>, prev: seq<string>, first: string)
    requires |prev| == 0 || (|prev[|prev| - 1]| > 0)
    requires |first| > 0 && first[0] == '('
    ensures ParseColumns(Before(written, prev), [first]) == Ok(RowState([first[1..]], WrittenAfter(written, prev)))
  {
    assert [first][..0] == [];
    assert first != "NULL" by {
      assert "NULL"[0] == 'N';
    }
    if |prev| > 0 {
      var last := Closed(prev, ")")[|prev| - 1];
      assert last == prev[|prev| - 1] + ")";
      assert last[..|last| - 1] == prev[|prev| - 1];
      assert Closed(prev, ")")[..|prev| - 1] + [last[..|last| - 1]] == prev;
    }
  }

  /** The values after the first in a closed row are plain. */
  lemma ClosedTailPlain(row: seq<string>, suffix: string)
    requires |row| > 0 && forall j | 0 <= j < |row| :: Plain(row[j])
    requires |suffix| > 0 && suffix[0] == ')'
    ensures forall i | 1 <= i < |row| :: Plain(Closed(row, suffix)[i])
  {
    forall i | 1 <= i < |row|
      ensures Plain(Closed(row, suffix)[i])
    {
      var c := Closed(row, suffix)[i];
      if i == |row| - 1 {
        var v := row[|row| - 1];
        assert c == v + suffix;
        assert c[0] == v[0];
        assert c[|v|] == ')';
        assert c != "NULL" by {
          if |c| == 4 {
            assert "NULL"[|v|] != ')' by {
              assert |v| < 4;
            }
          }
        }
      } else {
        assert c == row[i];
      }
    }
  }

  /** The columns of one row, after a row whose last value ends with `)` (or after nothing). */
  lemma ParseRow(written: seq<seq<string>>, prev: seq<string>, row: seq<string>, suffix: string)
    requires |row| > 0 && forall j | 0 <= j < |row| :: Plain(row[j])
    requires |prev| == 0 || (|prev[|prev| - 1]| > 0)
    requires |suffix| > 0 && suffix[0] == ')'
    ensures ParseColumns(Before(written, prev), Opened(Closed(row, suffix)))
         == Ok(RowState(Closed(row, suffix), WrittenAfter(written, prev)))
  {
    var closed := Closed(row, suffix);
    var cols := Opened(closed);
    var first := cols[0];
    var rest := cols[1..];
    assert cols == [first] + rest;
    assert first == "(" + closed[0];
    assert first[1..] == closed[0];
    ParseOpening(written, prev, first);
    var mid := RowState([closed[0]], WrittenAfter(written, prev));
    ClosedTailPlain(row, suffix);
    assert forall i | 0 <= i < |rest| :: rest[i] == closed[i + 1];
    ParseColumnsAppend(Before(written, prev), [first], rest);
    ParsePlainColumns(mid, rest);
    assert [closed[0]] + rest == closed;
  }

  /** After rows written one after the other, the last of them is still being filled, with its `)`. */
  lemma {:induction false} ParseBody(rows: seq<seq<string>>)
    requires |rows| > 0 && PlainRows(rows)
    ensures ParseColumns(RowState([], []), Body(rows)) == Ok(Before(rows[..|rows| - 1], rows[|rows| - 1]))
  {
    var init := rows[..|rows| - 1];
    var last := rows[|rows| - 1];
    assert Body(rows) == Body(init) + Opened(Closed(last, ")"));
    ParseColumnsAppend(RowState([], []), Body(init), Opened(Closed(last, ")")));
    if |init| == 0 {
      ParseRow([], [], last, ")");
    } else {
      ParseBody(init);
      assert init[..|init| - 1] + [init[|init| - 1]] == init;
      ParseRow(init[..|init| - 1], init[|init| - 1], last, ")");
    }
  }

  /** The columns of a statement leave its last row being filled, ending with `);`. */
  lemma ParseDumpColumns(rows: seq<seq<string>>)
    requires |rows| > 0 && PlainRows(rows)
    ensures ParseColumns(RowState([], []), Dump(rows)) == Ok(RowState(Closed(rows[|rows| - 1], ");"), rows[..|rows| - 1]))
  {
    var init := rows[..|rows| - 1];
    var last := rows[|rows| - 1];
    ParseColumnsAppend(RowState([], []), Body(init), Opened(Closed(last, ");")));
    if |init| == 0 {
      ParseRow([], [], last, ");");
    } else {
      assert PlainRows(init);
      ParseBody(init);
      assert init[..|init| - 1] + [init[|init| - 1]] == init;
      ParseRow(init[..|init| - 1], init[|init| - 1], last, ");");
    }
  }

  /** The end of a statement writes its last row without the `);`. */
  lemma FinishDump(written: seq<seq<string>>, last: seq<string>)
    requires |last| > 0
    ensures FinishRows(RowState(Closed(last, ");"), written)) == Ok(written + [last])
  {
    var closed := Closed(last, ");");
    var end := closed[|closed| - 1];
    assert end == last[|last| - 1] + ");";
    assert end[|end| - 2..] == ");";
    assert end[..|end| - 2] == last[|last| - 1];
    assert closed[..|closed| - 1] + [end[..|end| - 2]] == last;
  }

  /** Parsing the columns of a dumped statement gives back its rows. */
  lemma ParseDump(rows: seq<seq<string>>)
    requires |rows| > 0 && PlainRows(rows)
    ensures ParseValues(Dump(rows)) == Ok(rows)
  {
    ParseDumpColumns(rows);
    FinishDump(rows[..|rows| - 1], rows[|rows| - 1]);
    assert rows[..|rows| - 1] + [rows[|rows| - 1]] == rows;
  }

  /** Empty and `NULL` values inside a row are written as the NUL character. */
  lemma ParseNullInside(written: seq<seq<string>>, latest: seq<string>, column: string)
    requires column == "" || column == "NULL"
    ensures ParseColumns(RowState(latest, written), [column]) == Ok(RowState(latest + [NullCell], written))
  {
    assert [column][..0] == [];
  }

  // ---------------------------------------------------------------- OxO

  /** The id OxO is asked about: a `REACT:` id has every `REACT` renamed `Reactome`. */
  function OxoQueryId(curie: string): (r: string)
    ensures !StartsWith(curie, "REACT:") ==> r == curie
    ensures StartsWith(curie, "REACT:") ==> r == "Reactome:" + ReplaceAll(curie[6..], "REACT", "Reactome")
  {
    if StartsWith(curie, "REACT:") then
      var r := ReplaceAll(curie, "REACT", "Reactome");
      assert StartsWith(curie, "REACT");
      assert r == "Reactome" + ReplaceAll(curie[5..], "REACT", "Reactome");
      ReplaceAfterColon(curie[5..]);
      assert curie[5..][1..] == curie[6..];
      r
    else curie
  }

  /** A leading `:` is never the start of `REACT`, so `replace` keeps it. */
  lemma ReplaceAfterColon(s: string)
    requires |s| > 0 && s[0] == ':'
    ensures ReplaceAll(s, "REACT", "Reactome") == ":" + ReplaceAll(s[1..], "REACT", "Reactome")
  {
    assert s[0] != "REACT"[0];
    assert !StartsWith(s, "REACT");
    assert [s[0]] == ":";
  }

  /** A `REACT:` id whose local part holds no further `REACT` keeps that part as it is. */
  lemma OxoQueryIdLocalPart(curie: string)
    requires StartsWith(curie, "REACT:") && !Contains(curie[6..], "REACT")
    ensures OxoQueryId(curie) == "Reactome:" + curie[6..]
  {
    ReplaceAbsent(curie[6..], "REACT", "Reactome");
  }

  /** The prefix of a curie: its text before the first `:`, or all of it. */
  function CuriePrefix(curie: string): string {
    Split(curie, ":")[0]
  }

  /** A curie OxO returned, upper-cased, survives the `map_to` filter. */
  predicate Kept(curie: string, mapTo: Option<seq<string>>) {
    mapTo.None? || CuriePrefix(Upper(curie)) in mapTo.value
  }

  /** The upper-cased curies of every mapping of every search result that the filter keeps. */
  function Mapped(results: seq<seq<string>>, mapTo: Option<seq<string>>): set<string> {
    set i, j | 0 <= i < |results| && 0 <= j < |results[i]| && Kept(results[i][j], mapTo) :: Upper(results[i][j])
  }

  /**
   * The answer of `get_all_from_oxo`, given what the OxO service returned for
   * the query id (`None` when the call failed): the kept curies, or `None`
   * when nothing is kept.
   */
  function OxoSynonyms(response: Option<seq<seq<string>>>, mapTo: Option<seq<string>>): (r: Option<set<string>>)
    ensures r.Some? ==> |r.value| > 0
    ensures r.None? <==> (response.None? ||
      forall i, j | 0 <= i < |response.value| && 0 <= j < |response.value[i]| :: !Kept(response.value[i][j], mapTo))
  {
    match response
    case None => None
    case Some(results) =>
      var found := Mapped(results, mapTo);
      assert forall i, j | 0 <= i < |results| && 0 <= j < |results[i]| && Kept(results[i][j], mapTo) ::
        Upper(results[i][j]) in found;
      if |found| == 0 then None else Some(found)
  }

  /**
   * Every curie OxO yields is upper case, comes from some mapping of the
   * response, and has a prefix listed in `map_to` when one is given.
   */
  lemma OxoSynonymsSound(response: Option<seq<seq<string>>>, mapTo: Option<seq<string>>, c: string)
    requires OxoSynonyms(response, mapTo).Some? && c in OxoSynonyms(response, mapTo).value
    ensures response.Some?
    ensures Upper(c) == c
    ensures exists i, j | 0 <= i < |response.value| && 0 <= j < |response.value[i]| :: Upper(response.value[i][j]) == c
    ensures mapTo.Some? ==> CuriePrefix(c) in mapTo.value
  {
    var results := response.value;
    var i, j :| 0 <= i < |results| && 0 <= j < |results[i]| && Kept(results[i][j], mapTo) && c == Upper(results[i][j]);
    UpperIdempotent(results[i][j]);
  }

  /** A mapping whose prefix is kept reaches the answer, upper-cased. */
  lemma OxoSynonymsComplete(results: seq<seq<string>>, mapTo: Option<seq<string>>, i: nat, j: nat)
    requires i < |results| && j < |results[i]| && Kept(results[i][j], mapTo)
    ensures OxoSynonyms(Some(results), mapTo).Some? && Upper(results[i][j]) in OxoSynonyms(Some(results), mapTo).value
  {
    assert Upper(results[i][j]) in Mapped(results, mapTo);
  }

  // ---------------------------------------------------------------- drug ids

  const SelectTypes := ["CHEBI", "CHEMBL.COMPOUND", "CHEMBL.TARGET", "DRUGBANK"]
  const UnpackError := "ValueError: not enough values to unpack"

  /**
   * The drug id `run_in_parallel` asks MyChem about: the id must have exactly
   * one `:`; the ChEMBL and DrugBank prefixes are dropped, a ChEBI id is kept
   * whole, and any other tag asks nothing (`None`, two empty sets).
   */
  function NormaliseDrugId(drugId: string): (r: Result<Option<string>>)
    ensures r.Raise? <==> |Split(drugId, ":")| != 2
    ensures r.Ok? && r.value.Some? ==> Split(drugId, ":")[0] in SelectTypes
    ensures r.Ok? && r.value.None? ==> Split(drugId, ":")[0] !in SelectTypes
  {
    var parts := Split(drugId, ":");
    if |parts| != 2 then Raise(UnpackError)
    else
      var tag := parts[0];
      if tag !in SelectTypes then Ok(None)
      else if tag == "CHEMBL.COMPOUND" then Ok(Some(ReplaceAll(drugId, "CHEMBL.COMPOUND:", "")))
      else if tag == "CHEMBL.TARGET" then Ok(Some(ReplaceAll(drugId, "CHEMBL.TARGET:", "")))
      else if tag == "DRUGBANK" then Ok(Some(ReplaceAll(drugId, "DRUGBANK:", "")))
      else Ok(Some(drugId))
  }

  /** `<tag>:<local>` with a selected tag gives the local id, or the whole id for ChEBI. */
  lemma NormaliseDrugIdOf(tag: string, local: string)
    requires tag in SelectTypes && !Contains(local, ":")
    ensures NormaliseDrugId(tag + ":" + local) == Ok(Some(if tag == "CHEBI" then tag + ":" + local else local))
  {
    var id := tag + ":" + local;
    TagsWithoutColon(tag);
    SplitOnce(tag, ":", local);
    if tag != "CHEBI" {
      var pat := tag + ":";
      assert id == pat + local;
      NoPatternIn(local, pat);
      DropPrefix(pat, local);
      if tag == "CHEMBL.COMPOUND" {
        assert pat == "CHEMBL.COMPOUND:";
      } else if tag == "CHEMBL.TARGET" {
        assert pat == "CHEMBL.TARGET:";
      } else {
        assert pat == "DRUGBANK:";
      }
    }
  }

  /** Removing `pat` from `pat + rest` leaves `rest` when `rest` holds no further `pat`. */
  lemma DropPrefix(pat: string, rest: string)
    requires |pat| > 0 && !Contains(rest, pat)
    ensures ReplaceAll(pat + rest, pat, "") == rest
  {
    var s := pat + rest;
    assert s[..|pat|] == pat;
    assert s[|pat|..] == rest;
    ReplaceAbsent(rest, pat, "");
    assert "" + rest == rest;
  }

  lemma TagsWithoutColon(tag: string)
    requires tag in SelectTypes
    ensures !Contains(tag, ":")
  {
    forall i: nat | i <= |tag|
      ensures !OccursAt(tag, ":", i)
    {
      if i < |tag| {
        assert tag[i..i + 1][0] == tag[i];
        if tag == "CHEBI" {
          assert tag[i] in {'C', 'H', 'E', 'B', 'I'};
        } else if tag == "DRUGBANK" {
          assert tag[i] in {'D', 'R', 'U', 'G', 'B', 'A', 'N', 'K'};
        } else if tag == "CHEMBL.COMPOUND" {
          assert tag[i] in {'C', 'H', 'E', 'M', 'B', 'L', '.', 'O', 'P', 'U', 'N', 'D'};
        } else {
          assert tag[i] in {'C', 'H', 'E', 'M', 'B', 'L', '.', 'T', 'A', 'R', 'G'};
        }
      }
    }
  }

  /** A string without `c` holds no pattern that ends with `c`. */
  lemma NoPatternIn(s: string, pat: string)
    requires |pat| > 0 && pat[|pat| - 1] == ':' && !Contains(s, ":")
    ensures !Contains(s, pat)
  {
    if Contains(s, pat) {
      var i: nat :| i <= |s| && OccursAt(s, pat, i);
      var k := i + |pat| - 1;
      assert s[k] == ':';
      assert s[k..k + 1] == ":";
      assert OccursAt(s, ":", k);
    }
  }

  /** Splitting `a + sep + b` where neither part holds `sep` gives the two parts. */
  lemma SplitOnce(a: string, sep: string, b: string)
    requires |sep| > 0 && !Contains(a, sep) && !Contains(b, sep)
    requires forall j: nat | j < |a| < j + |sep| :: !OccursAt(a + sep + b, sep, j)
    ensures Split(a + sep + b, sep) == [a, b]
  {
    var s := a + sep + b;
    assert s[|a|..|a| + |sep|] == sep;
    assert OccursAt(s, sep, |a|);
    forall j: nat | j < |a|
      ensures !OccursAt(s, sep, j)
    {
      if j + |sep| <= |a| {
        assert a[j..j + |sep|] == s[j..j + |sep|];
        assert !OccursAt(a, sep, j);
      }
    }
    var i := IndexOf(s, sep).value;
    assert i == |a|;
    assert s[..i] == a;
    assert s[i + |sep|..] == b;
    assert IndexOf(b, sep).None?;
  }
}
