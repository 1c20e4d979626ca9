/**
 * `supabase_client.py`: the Supabase helpers of the content hub. Every
 * helper first checks that the client was created at import time and
 * otherwise returns its default (`False`, `None` or `[]`) without a query.
 *
 * The database is not modelled: what a call sends (the rows it inserts or
 * upserts, the filters it applies) is the result, and what the database
 * answers (the rows of `result.data`, the stored versions) is an input.
 * `json.dumps` and `float` are parameters.
 */
module SupabaseClient {
  import opened Wrappers
  import opened StrUtil
  import Json

  /** `json.dumps`. */
  type Encoder = Json.Json -> string

  /** `float(x)`: the text of the float, `None` when the conversion raises. */
  type FloatCast = Json.Json -> Option<string>

  /** `result.data[0]['id'] if result.data else None`; a row without an id makes the helper return `None` as well. */
  function FirstId(data: seq<Json.Json>): (r: Option<Json.Json>)
    ensures data == [] ==> r.None?
    ensures r.Some? ==> data[0].JObj? && Json.Get(data[0].props, "id") == r
  {
    if data == [] || !data[0].JObj? then None else Json.Get(data[0].props, "id")
  }

  /** `is_connected`: a created client whose probe query succeeds. */
  function IsConnected(initialised: bool, probeSucceeds: bool): (r: bool)
    ensures r <==> initialised && probeSucceeds
  {
    if !initialised then false else probeSucceeds
  }

  /* ------------------------------------------------------------- CSV import */

  /** A row of `csv.DictReader`: column header to cell. */
  type CsvRow = map<string, string>

  /** An inventory row to upsert, in the order of the dict literal. */
  type Record = seq<(string, string)>

  const ContentIdColumn := "Content ID"

  /** The columns copied into a record after its content id, as (field, column) pairs. */
  const InventoryColumns: seq<(string, string)> := [
    ("section", "Section"), ("subsection", "Subsection"), ("title", "Content Title"),
    ("content_type", "Content Type"), ("status", "Status"), ("priority", "Priority (H/M/L)"),
    ("audience_technical_level", "Target Audience - Technical Level"),
    ("audience_role", "Target Audience - Role/Context"),
    ("audience_constraints", "Target Audience - Resource Constraints"),
    ("primary_mission_pillar_1", "Primary Mission Pillar 1"), ("primary_mission_pillar_2", "Primary Mission Pillar 2"),
    ("secondary_mission_pillars", "Secondary Mission Pillars"), ("smart_objectives", "SMART Objectives"),
    ("practical_components", "Practical Components"), ("estimated_dev_time", "Estimated Development Time (hours)"),
    ("required_expertise", "Required Expertise"), ("assigned_creator", "Assigned Creator"),
    ("assigned_reviewers", "Assigned Reviewers"), ("review_status", "Review Status"),
    ("platform_requirements", "Platform Requirements"), ("notes", "Notes")]

  /** A row the import keeps: a content id that is neither empty nor a `#` section header. */
  predicate Admits(row: CsvRow)
    requires ContentIdColumn in row
  {
    row[ContentIdColumn] != "" && !StartsWith(row[ContentIdColumn], "#")
  }

  /** The copied cells, `None` when a column is missing and `row[column]` raises. */
  function Cells(row: CsvRow, columns: seq<(string, string)>): (r: Option<Record>)
    ensures r.Some? <==> forall i :: 0 <= i < |columns| ==> columns[i].1 in row
    ensures r.Some? ==> |r.value| == |columns| && forall i :: 0 <= i < |columns| ==> r.value[i] == (columns[i].0, row[columns[i].1])
  {
    if forall i :: 0 <= i < |columns| ==> columns[i].1 in row
    then Some(seq(|columns|, i requires 0 <= i < |columns| && columns[i].1 in row => (columns[i].0, row[columns[i].1])))
    else None
  }

  /**
   * The record of an admitted row: its content id, the copied cells, the
   * optional `Dependencies` cell (empty when the column is absent) and the
   * two timestamps.
   */
  function ProcessRow(row: CsvRow, columns: seq<(string, string)>, now: string): (r: Option<Record>)
    requires ContentIdColumn in row
    ensures r.Some? <==> Cells(row, columns).Some?
    ensures r.Some? ==> |r.value| == |columns| + 4 && r.value[0] == ("content_id", row[ContentIdColumn])
    ensures r.Some? ==> r.value[|columns| + 1] == ("dependencies", if "Dependencies" in row then row["Dependencies"] else "")
  {
    match Cells(row, columns)
    case None => None
    case Some(cells) =>
      Some([("content_id", row[ContentIdColumn])] + cells +
           [("dependencies", if "Dependencies" in row then row["Dependencies"] else ""), ("created_at", now), ("updated_at", now)])
  }

  /** The records the loop builds from a run of rows; `None` when some row raises `KeyError`. */
  function Processed(rows: seq<CsvRow>, columns: seq<(string, string)>, now: string): Option<seq<Record>>
    decreases |rows|
  {
    if rows == [] then Some([])
    else
      var front := Processed(rows[..|rows| - 1], columns, now);
      var row := rows[|rows| - 1];
      if front.None? || ContentIdColumn !in row then None
      else if !Admits(row) then front
      else match ProcessRow(row, columns, now)
           case None => None
           case Some(rec) => Some(front.value + [rec])
  }

  /** The admitted rows, in order. */
  function AdmittedRows(rows: seq<CsvRow>): seq<CsvRow>
    decreases |rows|
  {
    if rows == [] then []
    else
      var front := AdmittedRows(rows[..|rows| - 1]);
      var row := rows[|rows| - 1];
      if ContentIdColumn in row && Admits(row) then front + [row] else front
  }

  /**
   * The loop keeps one record per admitted row, in order, each for its own
   * row; it raises exactly when a row lacks the content id column or an
   * admitted row lacks a copied column.
   */
  lemma {:induction false} ProcessedExactly(rows: seq<CsvRow>, columns: seq<(string, string)>, now: string)
    ensures Processed(rows, columns, now).Some? ==>
              var p := Processed(rows, columns, now).value;
              && (forall row :: row in AdmittedRows(rows) ==> ContentIdColumn in row && Admits(row))
              && |p| == |AdmittedRows(rows)|
              && forall k :: 0 <= k < |p| ==> ProcessRow(AdmittedRows(rows)[k], columns, now) == Some(p[k])
    ensures Processed(rows, columns, now).None? <==>
              exists i :: 0 <= i < |rows| && (ContentIdColumn !in rows[i] || (Admits(rows[i]) && Cells(rows[i], columns).None?))
    decreases |rows|
  {
    if rows != [] {
      var front := rows[..|rows| - 1];
      ProcessedExactly(front, columns, now);
      assert forall i :: 0 <= i < |front| ==> front[i] == rows[i];
      if Processed(rows, columns, now).None? && Processed(front, columns, now).Some? {
        assert ContentIdColumn !in rows[|rows| - 1] || (Admits(rows[|rows| - 1]) && Cells(rows[|rows| - 1], columns).None?);
      }
      if Processed(front, columns, now).None? {
        var i :| 0 <= i < |front| && (ContentIdColumn !in front[i] || (Admits(front[i]) && Cells(front[i], columns).None?));
        assert rows[i] == front[i];
      }
    }
  }

  /** No upserted record carries an empty content id or a section header. */
  lemma UpsertedIdsValid(rows: seq<CsvRow>, columns: seq<(string, string)>, now: string)
    requires Processed(rows, columns, now).Some?
    ensures forall rec: Record :: rec in Processed(rows, columns, now).value ==>
              rec != [] && rec[0].0 == "content_id" && rec[0].1 != "" && !StartsWith(rec[0].1, "#")
  {
    ProcessedExactly(rows, columns, now);
    var p := Processed(rows, columns, now).value;
    forall rec: Record | rec in p
      ensures rec != [] && rec[0].0 == "content_id" && rec[0].1 != "" && !StartsWith(rec[0].1, "#")
    {
      var k :| 0 <= k < |p| && p[k] == rec;
      var row := AdmittedRows(rows)[k];
      assert row in AdmittedRows(rows);
    }
  }

  /**
   * `import_content_inventory_from_csv` over the rows the reader returned:
   * `False` without a client, when a row raises, or when no row is
   * admitted; otherwise the admitted rows' records are upserted and the
   * result is `True`.
   */
  method ImportInventory(initialised: bool, rows: seq<CsvRow>, columns: seq<(string, string)>, now: string)
    returns (ok: bool, upserted: seq<Record>)
    ensures !initialised ==> !ok && upserted == []
    ensures initialised && Processed(rows, columns, now).None? ==> !ok && upserted == []
    ensures initialised && Processed(rows, columns, now).Some? ==>
              upserted == Processed(rows, columns, now).value && (ok <==> upserted != [])
  {
    if !initialised {
      return false, [];
    }
    var processed: seq<Record> := [];
    var i := 0;
    while i < |rows|
      invariant 0 <= i <= |rows|
      invariant Processed(rows[..i], columns, now) == Some(processed)
    {
      var row := rows[i];
      assert rows[..i + 1][..i] == rows[..i];
      if ContentIdColumn !in row {
        NoneStays(rows, columns, now, i + 1);
        return false, [];
      }
      if row[ContentIdColumn] == "" || StartsWith(row[ContentIdColumn], "#") {
        i := i + 1;
        continue;
      }
      var rec := ProcessRow(row, columns, now);
      if rec.None? {
        NoneStays(rows, columns, now, i + 1);
        return false, [];
      }
      processed := processed + [rec.value];
      i := i + 1;
    }
    assert rows[..i] == rows;
    if processed != [] {
      return true, processed;
    }
    return false, [];
  }

  /** The inventory copies 21 columns, so each upserted record has 25 fields. */
  lemma InventoryColumnCount()
    ensures |InventoryColumns| == 21
  {
  }

  /** `import_content_inventory_from_csv` with the inventory's own columns. */
  method ImportContentInventoryFromCsv(initialised: bool, rows: seq<CsvRow>, now: string) returns (ok: bool, upserted: seq<Record>)
    ensures !initialised ==> !ok && upserted == []
    ensures initialised && Processed(rows, InventoryColumns, now).Some? ==>
              upserted == Processed(rows, InventoryColumns, now).value && (ok <==> upserted != [])
    ensures initialised && Processed(rows, InventoryColumns, now).None? ==> !ok && upserted == []
  {
    ok, upserted := ImportInventory(initialised, rows, InventoryColumns, now);
  }

  /** A row that raises ends the import whatever follows it. */
  lemma {:induction false} NoneStays(rows: seq<CsvRow>, columns: seq<(string, string)>, now: string, j: nat)
    requires j <= |rows| && Processed(rows[..j], columns, now).None?
    ensures Processed(rows, columns, now).None?
    decreases |rows| - j
  {
    if j < |rows| {
      assert rows[..j + 1][..j] == rows[..j];
      NoneStays(rows, columns, now, j + 1);
    } else {
      assert rows[..j] == rows;
    }
  }

  /* ------------------------------------------------------------ prompt logs */

  /** The row `log_prompt` inserts into `prompt_logs`. */
  datatype PromptRow = PromptRow(sessionId: Json.Json, promptType: Json.Json, promptText: string, model: Json.Json,
                                 temperature: Json.Json, contentId: Json.Json, userId: Json.Json, createdAt: string)

  /** `log_prompt`: the inserted row and the returned prompt id. */
  function LogPrompt(initialised: bool, row: PromptRow, data: seq<Json.Json>): (r: (Option<PromptRow>, Option<Json.Json>))
    ensures !initialised ==> r == (None, None)
    ensures initialised ==> r.0 == Some(row) && r.1 == FirstId(data)
  {
    if !initialised then (None, None) else (Some(row), FirstId(data))
  }

  /* ------------------------------------------------------ generation outputs */

  const StoredTextLimit := 10000
  const MarkdownType := "text/markdown"

  /** `output_text[:10000] if len(output_text) > 10000 else output_text`. */
  function StoredText(text: string): (r: string)
    ensures |r| <= StoredTextLimit && |r| <= |text| && r == text[..|r|]
    ensures r == text <==> |text| <= StoredTextLimit
    ensures |text| > StoredTextLimit ==> |r| == StoredTextLimit
  {
    if |text| > StoredTextLimit then text[..StoredTextLimit] else text
  }

  datatype OutputRow = OutputRow(promptId: Json.Json, outputText: string, contentId: Json.Json, status: string,
                                 metadata: Option<string>, createdAt: string)

  datatype FileRow = FileRow(outputId: Json.Json, contentType: string, fileContent: string, createdAt: string)

  /** What `log_generation_output` returns (`False` without a client) and inserts. */
  datatype OutputLog = OutputLog(reply: Json.Json, output: Option<OutputRow>, file: Option<FileRow>)

  /**
   * `log_generation_output`: the output row keeps at most the first 10000
   * characters and the dumped metadata only when it is truthy; the full text
   * goes to `content_files` exactly when it is longer than that and the
   * insert returned a truthy output id.
   */
  function LogGenerationOutput(initialised: bool, promptId: Json.Json, outputText: string, contentId: Json.Json,
                               status: string, metadata: Json.Json, dumps: Encoder, now: string,
                               data: seq<Json.Json>): (r: OutputLog)
    ensures !initialised ==> r == OutputLog(Json.JBool(false), None, None)
    ensures initialised ==> r.output.Some? && r.output.value.outputText == StoredText(outputText)
    ensures initialised ==> (r.output.value.metadata.Some? <==> Json.Truthy(metadata))
    ensures initialised && Json.Truthy(metadata) ==> r.output.value.metadata == Some(dumps(metadata))
    ensures initialised ==> r.reply == FirstId(data).GetOr(Json.JNull)
    ensures r.file.Some? <==> initialised && |outputText| > StoredTextLimit && FirstId(data).Some? && Json.Truthy(FirstId(data).value)
    ensures r.file.Some? ==> r.file.value.fileContent == outputText && r.file.value.outputId == r.reply
  {
    if !initialised then OutputLog(Json.JBool(false), None, None)
    else
      var row := OutputRow(promptId, StoredText(outputText), contentId, status,
                           if Json.Truthy(metadata) then Some(dumps(metadata)) else None, now);
      var id := FirstId(data);
      var file := if |outputText| > StoredTextLimit && id.Some? && Json.Truthy(id.value)
                  then Some(FileRow(id.value, MarkdownType, outputText, now)) else None;
      OutputLog(id.GetOr(Json.JNull), Some(row), file)
  }

  /** With a truthy output id, the full text is stored: in the output row, or in `content_files`. */
  lemma FullTextKept(promptId: Json.Json, outputText: string, contentId: Json.Json, status: string,
                     metadata: Json.Json, dumps: Encoder, now: string, data: seq<Json.Json>)
    requires FirstId(data).Some? && Json.Truthy(FirstId(data).value)
    ensures var r := LogGenerationOutput(true, promptId, outputText, contentId, status, metadata, dumps, now, data);
            r.output.value.outputText == outputText || r.file.value.fileContent == outputText
  {
  }

  /* --------------------------------------------------------- inventory reads */

  /** A row of a Supabase table. */
  type Row = seq<(string, Json.Json)>

  /** The `eq` filters `get_content_inventory` applies: one per truthy argument, in argument order. */
  function InventoryFilters(contentId: Json.Json, section: Json.Json, status: Json.Json): (r: seq<(string, Json.Json)>)
    ensures ("content_id", contentId) in r <==> Json.Truthy(contentId)
    ensures ("section", section) in r <==> Json.Truthy(section)
    ensures ("status", status) in r <==> Json.Truthy(status)
    ensures forall f :: f in r ==> Json.Truthy(f.1) && f.0 in {"content_id", "section", "status"}
  {
    (if Json.Truthy(contentId) then [("content_id", contentId)] else []) +
    (if Json.Truthy(section) then [("section", section)] else []) +
    (if Json.Truthy(status) then [("status", status)] else [])
  }

  /** A row passes every `eq` filter. */
  predicate PassesAll(row: Row, filters: seq<(string, Json.Json)>)
  {
    forall i :: 0 <= i < |filters| ==> Json.Get(row, filters[i].0) == Some(filters[i].1)
  }

  /** The rows of a table the filters select, in table order. */
  function Select(table: seq<Row>, filters: seq<(string, Json.Json)>): (r: seq<Row>)
    decreases |table|
  {
    if table == [] then []
    else (if PassesAll(table[0], filters) then [table[0]] else []) + Select(table[1..], filters)
  }

  /** Selecting keeps exactly the table rows passing every filter. */
  lemma {:induction false} SelectExactly(table: seq<Row>, filters: seq<(string, Json.Json)>)
    ensures forall row :: row in Select(table, filters) <==> row in table && PassesAll(row, filters)
    decreases |table|
  {
    if table != [] {
      SelectExactly(table[1..], filters);
      assert table == [table[0]] + table[1..];
    }
  }

  /** `get_content_inventory`: no rows without a client, otherwise the rows of the inventory the truthy arguments select. */
  function GetContentInventory(initialised: bool, table: seq<Row>, contentId: Json.Json, section: Json.Json, status: Json.Json): (r: seq<Row>)
    ensures !initialised ==> r == []
  {
    if !initialised then [] else Select(table, InventoryFilters(contentId, section, status))
  }

  /** Every row returned has the requested content id, section and status, where each is given. */
  lemma InventoryMatches(table: seq<Row>, contentId: Json.Json, section: Json.Json, status: Json.Json)
    ensures forall row :: row in GetContentInventory(true, table, contentId, section, status) <==>
              && row in table
              && (Json.Truthy(contentId) ==> Json.Get(row, "content_id") == Some(contentId))
              && (Json.Truthy(section) ==> Json.Get(row, "section") == Some(section))
              && (Json.Truthy(status) ==> Json.Get(row, "status") == Some(status))
  {
    var filters := InventoryFilters(contentId, section, status);
    SelectExactly(table, filters);
    forall row | row in table
      ensures PassesAll(row, filters) <==>
              && (Json.Truthy(contentId) ==> Json.Get(row, "content_id") == Some(contentId))
              && (Json.Truthy(section) ==> Json.Get(row, "section") == Some(section))
              && (Json.Truthy(status) ==> Json.Get(row, "status") == Some(status))
    {
      PassesInventory(row, contentId, section, status);
    }
  }

  /** A row passes the inventory filters exactly when it has each given value. */
  lemma PassesInventory(row: Row, contentId: Json.Json, section: Json.Json, status: Json.Json)
    ensures PassesAll(row, InventoryFilters(contentId, section, status)) <==>
              && (Json.Truthy(contentId) ==> Json.Get(row, "content_id") == Some(contentId))
              && (Json.Truthy(section) ==> Json.Get(row, "section") == Some(section))
              && (Json.Truthy(status) ==> Json.Get(row, "status") == Some(status))
  {
    var a := if Json.Truthy(contentId) then [("content_id", contentId)] else [];
    var b := if Json.Truthy(section) then [("section", section)] else [];
    var c := if Json.Truthy(status) then [("status", status)] else [];
    var filters := a + b + c;
    assert filters == InventoryFilters(contentId, section, status);
    if Json.Truthy(contentId) {
      assert filters[0] == ("content_id", contentId);
    }
    if Json.Truthy(section) {
      assert filters[|a|] == ("section", section);
    }
    if Json.Truthy(status) {
      assert filters[|a| + |b|] == ("status", status);
    }
    assert forall i :: 0 <= i < |filters| ==> filters[i] in a || filters[i] in b || filters[i] in c;
  }

  /** `update_content_status`: the update sent, with the dumped metadata only when it is truthy; `None` without a client. */
  function StatusUpdate(initialised: bool, status: Json.Json, metadata: Json.Json, dumps: Encoder, now: string): (r: Option<Row>)
    ensures r.Some? <==> initialised
    ensures r.Some? ==> |r.value| >= 2 && r.value[..2] == [("status", status), ("updated_at", Json.JStr(now))]
    ensures r.Some? ==> (|r.value| == 3 <==> Json.Truthy(metadata)) && |r.value| <= 3
    ensures r.Some? && Json.Truthy(metadata) ==> r.value[2] == ("metadata", Json.JStr(dumps(metadata)))
  {
    if !initialised then None
    else
      var update := [("status", status), ("updated_at", Json.JStr(now))];
      Some(if Json.Truthy(metadata) then update + [("metadata", Json.JStr(dumps(metadata)))] else update)
  }

  /* -------------------------------------------------------------- versions */

  /** The row `save_content_version` inserts; absent optional fields are `None`. */
  datatype VersionRow = VersionRow(contentId: string, versionNumber: int, contentText: string,
                                   model: Option<Json.Json>, temperature: Option<string>, metadata: Option<Json.Json>)

  /** How the insert into `content_versions` went. */
  datatype InsertResult = Inserted | NoRows | TableMissing | InsertFailed

  /** `versions[0]['version_number'] + 1`, or 1 when there are no versions yet. */
  function NextVersion(versions: seq<int>): (r: int)
    ensures versions == [] ==> r == 1
    ensures versions != [] ==> r == versions[0] + 1
  {
    if versions == [] then 1 else versions[0] + 1
  }

  /** The versions as the query returns them: newest first. */
  predicate Descending(versions: seq<int>)
  {
    forall i, j :: 0 <= i < j < |versions| ==> versions[i] >= versions[j]
  }

  /** Over versions returned newest first, the new number is above all of them, and at least 1 when they are. */
  lemma NextVersionIsNew(versions: seq<int>)
    requires Descending(versions)
    ensures forall v :: v in versions ==> v < NextVersion(versions)
    ensures (forall v :: v in versions ==> v >= 1) ==> NextVersion(versions) >= 1
  {
    if versions != [] {
      assert versions[0] in versions;
    }
    forall v | v in versions
      ensures v < NextVersion(versions)
    {
      var i :| 0 <= i < |versions| && versions[i] == v;
      assert versions[0] >= versions[i] by {
        if i > 0 {
          assert 0 < i < |versions|;
        }
      }
    }
  }

  /**
   * `save_content_version`: `None` without a client or when `float`
   * raises; otherwise the row with the next version number, the model and
   * the temperature only when truthy and the metadata (dumped when a dict)
   * only when truthy. The number is returned when the insert returns rows or
   * the table is missing (the text then goes to a local file).
   */
  function SaveContentVersion(initialised: bool, contentId: string, contentText: string, model: Json.Json,
                              temperature: Json.Json, metadata: Json.Json, versions: seq<int>,
                              toFloat: FloatCast, dumps: Encoder, insert: InsertResult): (r: (Option<VersionRow>, Option<int>))
    ensures !initialised ==> r == (None, None)
    ensures initialised && Json.Truthy(temperature) && toFloat(temperature).None? ==> r == (None, None)
    ensures r.0.Some? ==> && r.0.value.versionNumber == NextVersion(versions) && r.0.value.contentId == contentId
                          && (r.0.value.model.Some? <==> Json.Truthy(model))
                          && (r.0.value.temperature.Some? <==> Json.Truthy(temperature))
                          && (r.0.value.metadata.Some? <==> Json.Truthy(metadata))
                          && (Json.Truthy(metadata) && metadata.JObj? ==> r.0.value.metadata == Some(Json.JStr(dumps(metadata))))
    ensures r.1.Some? <==> r.0.Some? && insert in {Inserted, TableMissing}
    ensures r.1.Some? ==> r.1.value == NextVersion(versions)
  {
    if !initialised then (None, None)
    else if Json.Truthy(temperature) && toFloat(temperature).None? then (None, None)
    else
      var row := VersionRow(contentId, NextVersion(versions), contentText,
                            if Json.Truthy(model) then Some(model) else None,
                            if Json.Truthy(temperature) then toFloat(temperature) else None,
                            if !Json.Truthy(metadata) then None
                            else if metadata.JObj? then Some(Json.JStr(dumps(metadata))) else Some(metadata));
      (Some(row), if insert in {Inserted, TableMissing} then Some(row.versionNumber) else None)
  }

  /** A temperature of 0.0 is not saved with the version. */
  lemma ZeroTemperatureDropped(initialised: bool, contentId: string, contentText: string, model: Json.Json,
                               metadata: Json.Json, versions: seq<int>, toFloat: FloatCast, dumps: Encoder, insert: InsertResult)
    ensures var r := SaveContentVersion(initialised, contentId, contentText, model, Json.JFloat("0.0"), metadata,
                                        versions, toFloat, dumps, insert);
            r.0.Some? ==> r.0.value.temperature.None?
  {
    Json.ZeroFloatsFalsy();
  }

  /* ---------------------------------------------------------------- models */

  /** `get_available_models`: the four Gemini models offered in the forms. */
  const AvailableModels: seq<string> := ["gemini-1.5-flash", "gemini-1.5-pro", "gemini-2.0-flash", "gemini-2.5-pro-exp-03-25"]

  /** The list offers four distinct models, the first being the forms' default. */
  lemma AvailableModelsDistinct()
    ensures |AvailableModels| == 4
    ensures forall i, j :: 0 <= i < j < |AvailableModels| ==> AvailableModels[i] != AvailableModels[j]
    ensures AvailableModels[0] == "gemini-1.5-flash"
  {
    assert AvailableModels[0][7] == '1' && AvailableModels[1][7] == '1';
    assert AvailableModels[2][7] == '2' && AvailableModels[3][7] == '2';
    assert AvailableModels[0][11] == 'f' && AvailableModels[1][11] == 'p';
    assert AvailableModels[2][9] == '0' && AvailableModels[3][9] == '5';
  }
}
