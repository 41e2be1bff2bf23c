/** The CSV reader `import_from_csv` (geokey_dataimports/helpers/model_helpers.py).

    The Python function receives two lists owned by its caller, `fields` and
    `features`, and appends to them: first one candidate field per header
    cell, then one feature per data row. The CSV tokenizer is outside the
    model: its output, a sequence of already split rows, is the input here.
    `strip_tags` (Django) is passed in as an uninterpreted function. */
module ModelHelpers {
  import opened Base

  /** A candidate field: the dictionary with keys 'name', 'good_types' and
      'bad_types' that the reader appends to `fields`. */
  datatype CandidateField = CandidateField(name: string, goodTypes: set<FieldType>, badTypes: set<FieldType>)

  /** A raw feature: the dictionary with keys 'line' and 'properties' that the
      reader appends to `features`. */
  datatype RawFeature = RawFeature(line: nat, properties: map<string, string>)

  /** The two ways the reader fails: `next(reader, None)` yields None on an
      input without any row and iterating over None raises a TypeError; a
      non-blank cell at a position without a field raises an IndexError. */
  datatype CsvError = NoHeaderRow | FieldIndexOutOfRange

  /** A Python list that the caller owns and the reader appends to. */
  class MutableList<T> {
    var items: seq<T>

    constructor (init: seq<T>)
      ensures items == init
    {
      items := init;
    }

    method Append(x: T)
      modifies this
      ensures items == old(items) + [x]
    {
      items := items + [x];
    }
  }

  /** The field created for one header cell. */
  function Seed(name: string): CandidateField
  {
    CandidateField(name, {TextField, LookupField}, {})
  }

  /** The fields appended for a header row, one per cell, in order. */
  function SeededFields(header: seq<string>, stripTags: string -> string): (r: seq<CandidateField>)
  {
    seq(|header|, i requires 0 <= i < |header| => Seed(stripTags(header[i])))
  }

  /** One field per header cell, in order: named after the cell with its
      tags stripped, seeded with the text and lookup types and no bad type,
      so that no type is both good and bad. */
  lemma SeededFieldsSpec(header: seq<string>, stripTags: string -> string)
    ensures |SeededFields(header, stripTags)| == |header|
    ensures forall i :: 0 <= i < |header| ==>
      && SeededFields(header, stripTags)[i].name == stripTags(header[i])
      && SeededFields(header, stripTags)[i].goodTypes == {TextField, LookupField}
      && SeededFields(header, stripTags)[i].badTypes == {}
      && SeededFields(header, stripTags)[i].goodTypes * SeededFields(header, stripTags)[i].badTypes == {}
  {
  }

  /** Every non-blank cell of `row` has a field at its position: the reader
      indexes `fields[i]` only for cells that are not the empty string. */
  predicate FitsFields(fieldCount: nat, row: seq<string>)
  {
    forall i :: 0 <= i < |row| && row[i] != "" ==> i < fieldCount
  }

  /** The properties dictionary built, cell by cell and from left to right,
      for one data row: a blank cell is skipped, any other cell is stored
      under the name of the field at its position. */
  function RowProperties(fields: seq<CandidateField>, row: seq<string>): map<string, string>
    requires FitsFields(|fields|, row)
    decreases |row|
  {
    if row == [] then map[]
    else
      var i := |row| - 1;
      var earlier := RowProperties(fields, row[..i]);
      if row[i] == "" then earlier else earlier[fields[i].name := row[i]]
  }

  /** The outcome of reading the data rows: the features appended, in order,
      and the error that stopped the reading, if any. */
  datatype RowsRead = RowsRead(features: seq<RawFeature>, error: Option<CsvError>)

  /** Reads `rows`, the rows after the header, of which `line` came before:
      each row that fits the fields becomes a feature numbered from 1; the
      first row that does not fit stops the reading with an IndexError. */
  function ReadRows(fields: seq<CandidateField>, rows: seq<seq<string>>, line: nat): RowsRead
    decreases |rows|
  {
    if rows == [] then RowsRead([], None)
    else if !FitsFields(|fields|, rows[0]) then RowsRead([], Some(FieldIndexOutOfRange))
    else
      var rest := ReadRows(fields, rows[1..], line + 1);
      RowsRead([RawFeature(line + 1, RowProperties(fields, rows[0]))] + rest.features, rest.error)
  }

  /** The inner loop of import_from_csv over one row's cells: the properties
      dictionary when every non-blank cell has a field, None where Python
      raises an IndexError. */
  method RowToProperties(fields: seq<CandidateField>, row: seq<string>) returns (properties: Option<map<string, string>>)
    ensures properties.Some? <==> FitsFields(|fields|, row)
    ensures properties.Some? ==> properties.value == RowProperties(fields, row)
  {
    var props := map[];
    var i := 0;
    while i < |row|
      invariant 0 <= i <= |row|
      invariant FitsFields(|fields|, row[..i])
      invariant props == RowProperties(fields, row[..i])
    {
      assert row[..i + 1][..i] == row[..i];
      if row[i] != "" {
        if i >= |fields| {
          return None;
        }
        props := props[fields[i].name := row[i]];
      }
      i := i + 1;
    }
    assert row[..i] == row;
    return Some(props);
  }

  /** The first loop of import_from_csv: one field per header cell. */
  method AppendHeaderFields(fields: MutableList<CandidateField>, header: seq<string>, stripTags: string -> string)
    modifies fields
    ensures fields.items == old(fields.items) + SeededFields(header, stripTags)
  {
    var h := 0;
    while h < |header|
      invariant 0 <= h <= |header|
      invariant fields.items == old(fields.items) + SeededFields(header[..h], stripTags)
    {
      assert SeededFields(header[..h + 1], stripTags) == SeededFields(header[..h], stripTags) + [Seed(stripTags(header[h]))];
      fields.Append(Seed(stripTags(header[h])));
      h := h + 1;
    }
    assert header[..h] == header;
  }

  /** import_from_csv(features, fields, file): appends the header's fields to
      `fields`, then the data rows' features to `features`. On an IndexError
      the entries appended so far stay in both lists, as they do in Python. */
  method ImportFromCsv(features: MutableList<RawFeature>, fields: MutableList<CandidateField>,
                       rows: seq<seq<string>>, stripTags: string -> string)
    returns (err: Option<CsvError>)
    modifies features, fields
    ensures |rows| == 0 ==>
      err == Some(NoHeaderRow) && fields.items == old(fields.items) && features.items == old(features.items)
    ensures |rows| > 0 ==>
      && fields.items == old(fields.items) + SeededFields(rows[0], stripTags)
      && features.items == old(features.items) + ReadRows(fields.items, rows[1..], 0).features
      && err == ReadRows(fields.items, rows[1..], 0).error
  {
    if |rows| == 0 {
      return Some(NoHeaderRow);
    }
    AppendHeaderFields(fields, rows[0], stripTags);

    var data := rows[1..];
    ghost var fs := fields.items;
    ghost var all := ReadRows(fs, data, 0);
    var line := 0;
    while line < |data|
      invariant 0 <= line <= |data|
      invariant fields.items == fs
      invariant old(features.items) + all.features == features.items + ReadRows(fs, data[line..], line).features
      invariant all.error == ReadRows(fs, data[line..], line).error
    {
      var row := data[line];
      assert data[line..][0] == row && data[line..][1..] == data[line + 1..];
      line := line + 1;
      var properties := RowToProperties(fields.items, row);
      if properties.None? {
        return Some(FieldIndexOutOfRange);
      }
      features.Append(RawFeature(line, properties.value));
    }
    return None;
  }

  // ---------------------------------------------------------------------
  // Properties of one row's properties dictionary
  // ---------------------------------------------------------------------

  /** The keys of a row's properties are exactly the names of the fields at
      the row's non-blank positions. */
  lemma {:induction false} RowPropertiesKeys(fields: seq<CandidateField>, row: seq<string>)
    requires FitsFields(|fields|, row)
    ensures RowProperties(fields, row).Keys == set i | 0 <= i < |row| && row[i] != "" :: fields[i].name
    decreases |row|
  {
    if row != [] {
      var n := |row| - 1;
      RowPropertiesKeys(fields, row[..n]);
      var before := set i | 0 <= i < n && row[..n][i] != "" :: fields[i].name;
      var after := set i | 0 <= i < |row| && row[i] != "" :: fields[i].name;
      if row[n] == "" {
        assert before == after;
      } else {
        assert after == before + {fields[n].name};
      }
    }
  }

  /** A blank cell never becomes a property: every stored value is non-empty. */
  lemma {:induction false} RowPropertiesNonBlank(fields: seq<CandidateField>, row: seq<string>)
    requires FitsFields(|fields|, row)
    ensures forall k :: k in RowProperties(fields, row) ==> RowProperties(fields, row)[k] != ""
    decreases |row|
  {
    if row != [] {
      RowPropertiesNonBlank(fields, row[..|row| - 1]);
    }
  }

  /** Round trip: a non-blank cell is found verbatim under its field's name,
      unless a later non-blank cell whose field has the same name overwrote it. */
  lemma {:induction false} RowPropertiesLastWins(fields: seq<CandidateField>, row: seq<string>, i: nat)
    requires FitsFields(|fields|, row)
    requires i < |row| && row[i] != ""
    requires forall j :: i < j < |row| && row[j] != "" ==> fields[j].name != fields[i].name
    ensures fields[i].name in RowProperties(fields, row)
    ensures RowProperties(fields, row)[fields[i].name] == row[i]
    decreases |row|
  {
    var n := |row| - 1;
    if i < n {
      RowPropertiesLastWins(fields, row[..n], i);
    }
  }

  /** With duplicate header names the later column wins: when `j` is the
      last non-blank cell whose field has a given name, the value kept under
      that name is `row[j]`, so an earlier cell `i` with a different value
      under the same name is not what is kept. */
  lemma {:induction false} RowPropertiesLaterOverwrites(fields: seq<CandidateField>, row: seq<string>, i: nat, j: nat)
    requires FitsFields(|fields|, row)
    requires i < j < |row| && row[i] != "" && row[j] != ""
    requires fields[i].name == fields[j].name
    requires forall l :: j < l < |row| && row[l] != "" ==> fields[l].name != fields[j].name
    requires row[i] != row[j]
    ensures fields[i].name in RowProperties(fields, row)
    ensures RowProperties(fields, row)[fields[i].name] == row[j]
    ensures RowProperties(fields, row)[fields[i].name] != row[i]
  {
    RowPropertiesLastWins(fields, row, j);
  }

  // ---------------------------------------------------------------------
  // Properties of the data rows read
  // ---------------------------------------------------------------------

  /** The rows are read in file order: the k-th feature has line number
      `line + k + 1` (so 1, 2, ... when reading starts after the header) and
      holds the k-th row's properties. Reading fails exactly when some row
      does not fit the fields, and then stops at the first such row. */
  lemma {:induction false} ReadRowsSpec(fields: seq<CandidateField>, rows: seq<seq<string>>, line: nat)
    ensures |ReadRows(fields, rows, line).features| <= |rows|
    ensures forall k :: 0 <= k < |ReadRows(fields, rows, line).features| ==>
      && FitsFields(|fields|, rows[k])
      && ReadRows(fields, rows, line).features[k] == RawFeature(line + k + 1, RowProperties(fields, rows[k]))
    ensures ReadRows(fields, rows, line).error.None? <==> forall k :: 0 <= k < |rows| ==> FitsFields(|fields|, rows[k])
    ensures ReadRows(fields, rows, line).error.None? ==> |ReadRows(fields, rows, line).features| == |rows|
    ensures ReadRows(fields, rows, line).error.Some? ==>
      && ReadRows(fields, rows, line).error == Some(FieldIndexOutOfRange)
      && |ReadRows(fields, rows, line).features| < |rows|
      && !FitsFields(|fields|, rows[|ReadRows(fields, rows, line).features|])
    decreases |rows|
  {
    if rows != [] && FitsFields(|fields|, rows[0]) {
      ReadRowsSpec(fields, rows[1..], line + 1);
      var r := ReadRows(fields, rows, line);
      var rest := ReadRows(fields, rows[1..], line + 1);
      assert r.features == [RawFeature(line + 1, RowProperties(fields, rows[0]))] + rest.features;
      forall k | 0 < k < |r.features|
        ensures FitsFields(|fields|, rows[k]) && r.features[k] == RawFeature(line + k + 1, RowProperties(fields, rows[k]))
      {
        assert r.features[k] == rest.features[k - 1] && rows[1..][k - 1] == rows[k];
      }
      if rest.error.None? {
        forall k | 0 <= k < |rows| ensures FitsFields(|fields|, rows[k]) {
          if k > 0 { assert rows[1..][k - 1] == rows[k]; }
        }
      } else {
        assert rows[1..][|rest.features|] == rows[|r.features|];
      }
    }
  }

  /** Every feature a call appends carries only non-blank values, stored
      under names of fields that exist. */
  lemma ReadFeaturesWellFormed(fields: seq<CandidateField>, rows: seq<seq<string>>, k: nat)
    requires k < |rows| && k < |ReadRows(fields, rows, 0).features|
    ensures ReadRows(fields, rows, 0).features[k].line == k + 1
    ensures forall n :: n in ReadRows(fields, rows, 0).features[k].properties ==>
      ReadRows(fields, rows, 0).features[k].properties[n] != ""
      && exists j :: 0 <= j < |rows[k]| && j < |fields| && rows[k][j] != "" && fields[j].name == n
  {
    ReadRowsSpec(fields, rows, 0);
    RowPropertiesNonBlank(fields, rows[k]);
    RowPropertiesKeys(fields, rows[k]);
  }

  // ---------------------------------------------------------------------
  // The whole call, on the examples of the test suite
  // ---------------------------------------------------------------------

  /** The values are taken over verbatim, for ASCII cells ... */
  lemma ImportsBasicChars(stripTags: string -> string)
    requires stripTags("abc") == "abc" && stripTags("cde") == "cde" && stripTags("efg") == "efg"
    ensures
      var rows := [["abc", "cde", "efg"], ["123", "456", "789"]];
      var read := ReadRows(SeededFields(rows[0], stripTags), rows[1..], 0);
      && read.error == None && |read.features| == 1
      && read.features[0].properties == map["abc" := "123", "cde" := "456", "efg" := "789"]
  {
    var rows := [["abc", "cde", "efg"], ["123", "456", "789"]];
    var fields := SeededFields(rows[0], stripTags);
    var row := rows[1];
    assert row[..2][..1] == ["123"] && row[..2] == ["123", "456"] && row[..3] == row;
    assert RowProperties(fields, row[..2][..1]) == map["abc" := "123"];
  }

  /** ... and for non-ASCII ones. */
  lemma ImportsNonAsciiChars(stripTags: string -> string)
    requires stripTags("à") == "à" && stripTags("£") == "£"
    ensures
      var rows := [["à", "£"], ["¡", "Ç"]];
      var read := ReadRows(SeededFields(rows[0], stripTags), rows[1..], 0);
      && read.error == None && |read.features| == 1
      && read.features[0].properties == map["à" := "¡", "£" := "Ç"]
  {
    var rows := [["à", "£"], ["¡", "Ç"]];
    var fields := SeededFields(rows[0], stripTags);
    var row := rows[1];
    assert row[..1][..0] == [] && row[..1] == ["¡"] && row[..2] == row;
    assert RowProperties(fields, row[..1]) == map["à" := "¡"];
  }
}
