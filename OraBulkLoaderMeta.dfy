/**
 * The settings of the Oracle bulk loader step (`OraBulkLoaderMeta`): how they
 * are defaulted, decoded from a step's XML node, turned into integers, copied,
 * and checked against the target table and the incoming rows.
 *
 * The XML node is a map from tag name to text (an absent tag is null), with
 * one such map per `mapping` child. A row or table schema is the sequence of
 * its column names. Variable substitution, the connection lookup and the
 * database itself are parameters.
 */
module OraBulkLoader {
  import opened JavaLang

  const DEFAULT_COMMIT_SIZE: int := 100000
  const DEFAULT_BIND_SIZE: int := 0
  const DEFAULT_READ_SIZE: int := 0
  const DEFAULT_MAX_ERRORS: int := 50

  const ACTION_APPEND: string := "APPEND"
  const ACTION_INSERT: string := "INSERT"
  const ACTION_REPLACE: string := "REPLACE"
  const ACTION_TRUNCATE: string := "TRUNCATE"

  const METHOD_AUTO_CONCURRENT: string := "AUTO_CONCURRENT"
  const METHOD_AUTO_END: string := "AUTO_END"
  const METHOD_MANUAL: string := "MANUAL"

  const DATE_MASK_DATE: string := "DATE"
  const DATE_MASK_DATETIME: string := "DATETIME"

  /** `getDelimiter()` and `getEnclosure()`: fixed for this step. */
  const DELIMITER: string := ","
  const ENCLOSURE: string := "\""

  /** A database connection definition; only its identity matters here. */
  type DatabaseMeta

  /** The tags of one XML element: tag name to text; an absent tag reads as null. */
  type Tags = map<string, string>

  /** The step's XML node: its own tags and one tag map per `mapping` child, in order. */
  datatype StepNode = StepNode(tags: Tags, mappings: seq<Tags>)

  /** `XMLHandler.getTagValue(node, name)`. */
  function TagValue(tags: Tags, name: string): Option<string>
  {
    if name in tags then Some(tags[name]) else None
  }

  // ---------------------------------------------------------------------
  // Decoding single settings

  /**
   * A size setting as `readData` stores it: the tag text when it is neither
   * null nor empty, otherwise the default written in decimal.
   */
  function SizeSetting(tag: Option<string>, default: int): (r: string)
    ensures IsEmpty(tag) ==> r == DecimalString(default)
    ensures !IsEmpty(tag) ==> r == tag.value
    ensures r != ""
  {
    if IsEmpty(tag) then DecimalString(default) else tag.value
  }

  /** Storing a decoded size setting and decoding it again changes nothing. */
  lemma SizeSettingStable(tag: Option<string>, default: int)
    ensures SizeSetting(Some(SizeSetting(tag, default)), default) == SizeSetting(tag, default)
  {
  }

  /** A flag as `"Y".equalsIgnoreCase(tag)` reads it: set by "Y" or "y" and by nothing else. */
  function Flag(tag: Option<string>): (b: bool)
    ensures b <==> tag == Some("Y") || tag == Some("y")
  {
    YesIgnoringCase(tag);
    EqualsIgnoreCase("Y", tag)
  }

  /** A date mask as `readData` keeps it: "DATE" or "DATETIME" spelled exactly, otherwise "". */
  function NormalizedDateMask(tag: Option<string>): (m: string)
    ensures m == DATE_MASK_DATE || m == DATE_MASK_DATETIME || m == ""
    ensures m != "" <==> tag == Some(DATE_MASK_DATE) || tag == Some(DATE_MASK_DATETIME)
    ensures m != "" ==> tag == Some(m)
  {
    match tag
    case None => ""
    case Some(t) => if t == DATE_MASK_DATE || t == DATE_MASK_DATETIME then t else ""
  }

  /** Normalising a normalised date mask changes nothing. */
  lemma NormalizedDateMaskStable(tag: Option<string>)
    ensures NormalizedDateMask(Some(NormalizedDateMask(tag))) == NormalizedDateMask(tag)
  {
  }

  /** One `mapping` child: target column, stream field and date mask. */
  datatype Mapping = Mapping(table: Option<string>, stream: Option<string>, dateMask: string)

  /** The mapping `readData` takes from one `mapping` child. */
  function DecodeMapping(tags: Tags): (m: Mapping)
    ensures m.table == TagValue(tags, "stream_name")
    ensures "field_name" in tags ==> m.stream == Some(tags["field_name"])
    ensures "field_name" !in tags ==> m.stream == m.table
    ensures m.dateMask == NormalizedDateMask(TagValue(tags, "date_mask"))
  {
    var table := TagValue(tags, "stream_name");
    var stream := TagValue(tags, "field_name");
    Mapping(table, if stream.None? then table else stream, NormalizedDateMask(TagValue(tags, "date_mask")))
  }

  /** A mapping streams from the field of its own name exactly when `field_name` is absent or repeats `stream_name`. */
  lemma MappingStreamIsTable(tags: Tags)
    ensures DecodeMapping(tags).stream == DecodeMapping(tags).table
        <==> "field_name" !in tags || TagValue(tags, "field_name") == TagValue(tags, "stream_name")
  {
  }

  // ---------------------------------------------------------------------
  // The scalar settings

  /** Every setting of the step except the connection and the field mappings. */
  datatype Settings = Settings(
    schemaName: Option<string>,
    tableName: Option<string>,
    sqlldr: Option<string>,
    controlFile: Option<string>,
    dataFile: Option<string>,
    logFile: Option<string>,
    badFile: Option<string>,
    discardFile: Option<string>,
    commitSize: Option<string>,
    bindSize: Option<string>,
    readSize: Option<string>,
    maxErrors: Option<string>,
    loadMethod: Option<string>,
    loadAction: Option<string>,
    encoding: Option<string>,
    characterSetName: Option<string>,
    dbNameOverride: Option<string>,
    altRecordTerm: Option<string>,
    directPath: bool,
    eraseFiles: bool,
    failOnWarning: bool,
    failOnError: bool,
    parallel: bool)

  /** The settings of a new object: every string null, every flag false. */
  const UnsetSettings := Settings(None, None, None, None, None, None, None, None, None, None, None, None,
                                  None, None, None, None, None, None, false, false, false, false, false)

  /** The settings `setDefault` gives; the default table name is a translated message. */
  function DefaultSettings(defaultTableName: string): Settings
  {
    Settings(
      schemaName := Some(""),
      tableName := Some(defaultTableName),
      sqlldr := Some("sqlldr"),
      controlFile := Some("control${Internal.Step.CopyNr}.cfg"),
      dataFile := Some("load${Internal.Step.CopyNr}.dat"),
      logFile := Some(""),
      badFile := Some(""),
      discardFile := Some(""),
      commitSize := Some(DecimalString(DEFAULT_COMMIT_SIZE)),
      bindSize := Some(DecimalString(DEFAULT_BIND_SIZE)),
      readSize := Some(DecimalString(DEFAULT_READ_SIZE)),
      maxErrors := Some(DecimalString(DEFAULT_MAX_ERRORS)),
      loadMethod := Some(METHOD_AUTO_END),
      loadAction := Some(ACTION_APPEND),
      encoding := Some(""),
      characterSetName := Some(""),
      dbNameOverride := Some(""),
      altRecordTerm := Some(""),
      directPath := false,
      eraseFiles := true,
      failOnWarning := false,
      failOnError := false,
      parallel := false)
  }

  /** The default sizes are the texts "100000", "0", "0" and "50". */
  lemma DefaultSizeTexts(defaultTableName: string)
    ensures DefaultSettings(defaultTableName).commitSize == Some("100000")
    ensures DefaultSettings(defaultTableName).bindSize == Some("0")
    ensures DefaultSettings(defaultTableName).readSize == Some("0")
    ensures DefaultSettings(defaultTableName).maxErrors == Some("50")
  {
    assert NatToDigits(1) == "1";
    assert NatToDigits(10) == "10";
    assert NatToDigits(100) == "100";
    assert NatToDigits(1000) == "1000";
    assert NatToDigits(10000) == "10000";
    assert NatToDigits(100000) == "100000";
    assert NatToDigits(5) == "5";
    assert NatToDigits(50) == "50";
  }

  /** The scalar settings `readData` takes from the step's tags. */
  function DecodeSettings(tags: Tags): Settings
  {
    Settings(
      schemaName := TagValue(tags, "schema"),
      tableName := TagValue(tags, "table"),
      sqlldr := TagValue(tags, "sqlldr"),
      controlFile := TagValue(tags, "control_file"),
      dataFile := TagValue(tags, "data_file"),
      logFile := TagValue(tags, "log_file"),
      badFile := TagValue(tags, "bad_file"),
      discardFile := TagValue(tags, "discard_file"),
      commitSize := Some(SizeSetting(TagValue(tags, "commit"), DEFAULT_COMMIT_SIZE)),
      bindSize := Some(SizeSetting(TagValue(tags, "bind_size"), DEFAULT_BIND_SIZE)),
      readSize := Some(SizeSetting(TagValue(tags, "read_size"), DEFAULT_READ_SIZE)),
      maxErrors := Some(SizeSetting(TagValue(tags, "errors"), DEFAULT_MAX_ERRORS)),
      loadMethod := TagValue(tags, "load_method"),
      loadAction := TagValue(tags, "load_action"),
      encoding := TagValue(tags, "encoding"),
      characterSetName := TagValue(tags, "character_set"),
      dbNameOverride := TagValue(tags, "dbname_override"),
      altRecordTerm := TagValue(tags, "alt_rec_term"),
      directPath := Flag(TagValue(tags, "direct_path")),
      eraseFiles := Flag(TagValue(tags, "erase_files")),
      failOnWarning := Flag(TagValue(tags, "fail_on_warning")),
      failOnError := Flag(TagValue(tags, "fail_on_error")),
      parallel := Flag(TagValue(tags, "parallel")))
  }

  /** A flag read from the XML is set only by a `Y` or `y` tag; an absent tag leaves it false. */
  lemma DecodedFlags(tags: Tags)
    ensures var s := DecodeSettings(tags);
      && (s.directPath <==> "direct_path" in tags && tags["direct_path"] in {"Y", "y"})
      && (s.eraseFiles <==> "erase_files" in tags && tags["erase_files"] in {"Y", "y"})
      && (s.failOnWarning <==> "fail_on_warning" in tags && tags["fail_on_warning"] in {"Y", "y"})
      && (s.failOnError <==> "fail_on_error" in tags && tags["fail_on_error"] in {"Y", "y"})
      && (s.parallel <==> "parallel" in tags && tags["parallel"] in {"Y", "y"})
  {
  }

  /** No size setting read from the XML is null or empty. */
  lemma DecodedSizesPresent(tags: Tags)
    ensures var s := DecodeSettings(tags);
      !IsEmpty(s.commitSize) && !IsEmpty(s.bindSize) && !IsEmpty(s.readSize) && !IsEmpty(s.maxErrors)
  {
  }

  // ---------------------------------------------------------------------
  // get*AsInt

  /** `space.environmentSubstitute(v)`; a null setting stays null. */
  function Substituted(v: Option<string>, space: string -> string): Option<string>
  {
    match v
    case None => None
    case Some(t) => Some(space(t))
  }

  /**
   * `Integer.valueOf(space.environmentSubstitute(setting))`, falling back to
   * `default` on `NumberFormatException` (a null setting included).
   */
  function SettingAsInt(setting: Option<string>, space: string -> string, default: int): (r: int)
    requires IsInt(default)
    ensures IsInt(r)
    ensures ParseInt(Substituted(setting, space)).Some? ==> Some(r) == ParseInt(Substituted(setting, space))
    ensures ParseInt(Substituted(setting, space)).None? ==> r == default
  {
    match ParseInt(Substituted(setting, space))
    case Some(v) => v
    case None => default
  }

  /** A setting holding the decimal text of an `int`, which substitution leaves alone, reads back as that `int`. */
  lemma SettingAsIntDecimal(n: int, space: string -> string, default: int)
    requires IsInt(n) && IsInt(default)
    requires space(DecimalString(n)) == DecimalString(n)
    ensures SettingAsInt(Some(DecimalString(n)), space, default) == n
  {
    ParseDecimalString(n);
  }

  /**
   * A size decoded from a null or empty tag reads as its default; one decoded
   * from any other tag reads as that tag would.
   */
  lemma DecodedSizeAsInt(tag: Option<string>, space: string -> string, default: int)
    requires IsInt(default)
    requires space(DecimalString(default)) == DecimalString(default)
    ensures IsEmpty(tag) ==> SettingAsInt(Some(SizeSetting(tag, default)), space, default) == default
    ensures !IsEmpty(tag) ==> SettingAsInt(Some(SizeSetting(tag, default)), space, default)
                              == SettingAsInt(tag, space, default)
  {
    if IsEmpty(tag) {
      SettingAsIntDecimal(default, space, default);
    }
  }

  // ---------------------------------------------------------------------
  // Missing fields

  /** `searchValueMeta(name) != null` on a schema with these column names. */
  predicate Found(columns: seq<string>, name: Option<string>)
  {
    name.Some? && name.value in columns
  }

  /** The names that `columns` lacks, in their order. */
  function Missing(names: seq<Option<string>>, columns: seq<string>): (r: seq<Option<string>>)
    ensures forall x :: x in r <==> x in names && !Found(columns, x)
    ensures r == [] <==> forall i :: 0 <= i < |names| ==> Found(columns, names[i])
    ensures |r| <= |names|
    decreases |names|
  {
    if names == [] then []
    else
      var init, last := names[..|names| - 1], names[|names| - 1];
      assert names == init + [last];
      Missing(init, columns) + (if Found(columns, last) then [] else [last])
  }

  /** The first missing name is the name at the first index that `columns` lacks. */
  lemma {:induction false} FirstMissing(names: seq<Option<string>>, columns: seq<string>) returns (k: nat)
    requires Missing(names, columns) != []
    ensures k < |names| && !Found(columns, names[k])
    ensures forall j :: 0 <= j < k ==> Found(columns, names[j])
    ensures Missing(names, columns)[0] == names[k]
    decreases |names|
  {
    var init, last := names[..|names| - 1], names[|names| - 1];
    var tail := if Found(columns, last) then [] else [last];
    assert Missing(names, columns) == Missing(init, columns) + tail;
    if Missing(init, columns) != [] {
      k := FirstMissing(init, columns);
      assert Missing(names, columns)[0] == Missing(init, columns)[0];
      assert forall j :: 0 <= j <= k ==> names[j] == init[j];
    } else {
      k := |names| - 1;
      assert tail == [last];
      assert forall j :: 0 <= j < k ==> names[j] == init[j] && Found(columns, init[j]);
    }
  }

  /** The names of `names` that `columns` lacks, scanning the array as `check` does. */
  method MissingFields(names: array<Option<string>>, columns: seq<string>) returns (missing: seq<Option<string>>)
    ensures missing == Missing(names[..], columns)
  {
    missing := [];
    var i := 0;
    while i < names.Length
      invariant 0 <= i <= names.Length
      invariant missing == Missing(names[..i], columns)
    {
      assert names[..i + 1][..i] == names[..i];
      if !Found(columns, names[i]) {
        missing := missing + [names[i]];
      }
      i := i + 1;
    }
    assert names[..names.Length] == names[..];
  }

  // ---------------------------------------------------------------------
  // check

  datatype Severity = Ok | Error

  /** The remarks `check` can make; a message key with the values it is built from. */
  datatype Message =
    | TableNameOK
    | TableExists
    | MissingFieldsToLoadInTargetTable(fields: seq<Option<string>>)
    | AllFieldsFoundInTargetTable
    | CouldNotReadTableInfo
    | StepReceivingDatas(fieldCount: nat)
    | MissingFieldsInInput(fields: seq<Option<string>>)
    | AllFieldsFoundInInput
    | MissingFieldsInInput3
    | DatabaseErrorOccurred(detail: string)
    | InvalidConnection
    | StepReceivingInfoFromOtherSteps
    | NoInputError

  /** A `CheckResult`: its type and message. */
  datatype Remark = Remark(severity: Severity, message: Message)

  /**
   * What the database answers `check`: `connect()` fails, `getTableFields`
   * fails, or it returns the table's column names (null when the table
   * cannot be read).
   */
  datatype TableLookup =
    | ConnectFails(message: string)
    | LookupFails(message: string)
    | Columns(columns: Option<seq<string>>)

  /** The remark on the mapped table columns: an error listing exactly the missing ones, or OK. */
  function TableFieldsRemark(fieldTable: seq<Option<string>>, columns: seq<string>): (r: Remark)
    ensures r.severity == Error <==> exists i :: 0 <= i < |fieldTable| && !Found(columns, fieldTable[i])
    ensures r.severity == Error ==> r.message == MissingFieldsToLoadInTargetTable(Missing(fieldTable, columns))
    ensures r.severity == Ok ==> r.message == AllFieldsFoundInTargetTable
  {
    var missing := Missing(fieldTable, columns);
    if missing == [] then Remark(Ok, AllFieldsFoundInTargetTable)
    else Remark(Error, MissingFieldsToLoadInTargetTable(missing))
  }

  /** The remark on the mapped stream fields: an error listing exactly the missing ones, or OK. */
  function InputFieldsRemark(fieldStream: seq<Option<string>>, prev: seq<string>): (r: Remark)
    ensures r.severity == Error <==> exists i :: 0 <= i < |fieldStream| && !Found(prev, fieldStream[i])
    ensures r.severity == Error ==> r.message == MissingFieldsInInput(Missing(fieldStream, prev))
    ensures r.severity == Ok ==> r.message == AllFieldsFoundInInput
  {
    var missing := Missing(fieldStream, prev);
    if missing == [] then Remark(Ok, AllFieldsFoundInInput)
    else Remark(Error, MissingFieldsInInput(missing))
  }

  /** The remarks on the incoming row `prev` (null or empty when nothing arrives). */
  function InputRemarks(fieldStream: seq<Option<string>>, prev: Option<seq<string>>): seq<Remark>
  {
    if prev.Some? && |prev.value| > 0 then
      [Remark(Ok, StepReceivingDatas(|prev.value|)), InputFieldsRemark(fieldStream, prev.value)]
    else
      [Remark(Error, MissingFieldsInInput3)]
  }

  /**
   * The remarks `check` makes about a non-empty target table, up to the
   * incoming row: the table name is fine, then the database's answer.
   */
  function TableRemarks(fieldTable: seq<Option<string>>, lookup: TableLookup): seq<Remark>
  {
    [Remark(Ok, TableNameOK)]
    + match lookup
      case ConnectFails(_) => []
      case LookupFails(detail) => [Remark(Error, DatabaseErrorOccurred(detail))]
      case Columns(None) => [Remark(Error, CouldNotReadTableInfo)]
      case Columns(Some(columns)) => [Remark(Ok, TableExists), TableFieldsRemark(fieldTable, columns)]
  }

  /**
   * The remarks `check` makes once a connection is defined. An exception
   * from the database ends them: failing to connect skips everything, and
   * failing to read the table skips the incoming row.
   */
  function ConnectedRemarks(tableName: Option<string>, fieldTable: seq<Option<string>>,
                            fieldStream: seq<Option<string>>, lookup: TableLookup,
                            prev: Option<seq<string>>): seq<Remark>
  {
    if lookup.ConnectFails? then [Remark(Error, DatabaseErrorOccurred(lookup.message))]
    else if IsEmpty(tableName) then InputRemarks(fieldStream, prev)
    else if lookup.LookupFails? then TableRemarks(fieldTable, lookup)
    else TableRemarks(fieldTable, lookup) + InputRemarks(fieldStream, prev)
  }

  /** The last remark of `check`: whether any step sends rows to this one. */
  function InputStepsRemark(inputSteps: seq<string>): Remark
  {
    if |inputSteps| > 0 then Remark(Ok, StepReceivingInfoFromOtherSteps) else Remark(Error, NoInputError)
  }

  /** Every remark `check` appends, in order. */
  function CheckRemarks(hasConnection: bool, tableName: Option<string>, fieldTable: seq<Option<string>>,
                        fieldStream: seq<Option<string>>, lookup: TableLookup,
                        prev: Option<seq<string>>, inputSteps: seq<string>): seq<Remark>
  {
    (if hasConnection then ConnectedRemarks(tableName, fieldTable, fieldStream, lookup, prev)
     else [Remark(Error, InvalidConnection)])
    + [InputStepsRemark(inputSteps)]
  }

  /** Without a connection `check` reports the invalid connection and the input steps, nothing else. */
  lemma CheckWithoutConnection(tableName: Option<string>, fieldTable: seq<Option<string>>,
                               fieldStream: seq<Option<string>>, lookup: TableLookup,
                               prev: Option<seq<string>>, inputSteps: seq<string>)
    ensures CheckRemarks(false, tableName, fieldTable, fieldStream, lookup, prev, inputSteps)
         == [Remark(Error, InvalidConnection), InputStepsRemark(inputSteps)]
  {
  }

  /** The last remark of `check` is an error exactly when no step sends rows to this one. */
  lemma CheckEndsWithInputSteps(hasConnection: bool, tableName: Option<string>, fieldTable: seq<Option<string>>,
                                fieldStream: seq<Option<string>>, lookup: TableLookup,
                                prev: Option<seq<string>>, inputSteps: seq<string>)
    ensures var r := CheckRemarks(hasConnection, tableName, fieldTable, fieldStream, lookup, prev, inputSteps);
      |r| >= 2 && (r[|r| - 1] == Remark(Error, NoInputError) <==> |inputSteps| == 0)
  {
  }

  /** Membership in a concatenation, when the second part is known not to hold the element. */
  lemma InFront<T>(x: T, front: seq<T>, back: seq<T>)
    requires x !in back
    ensures x in front + back <==> x in front
  {
  }

  /** With the table's columns at hand, `check` makes three table remarks and then those on the input. */
  lemma CheckRemarksWithColumns(tableName: Option<string>, fieldTable: seq<Option<string>>,
                                fieldStream: seq<Option<string>>, columns: seq<string>,
                                prev: Option<seq<string>>, inputSteps: seq<string>)
    requires !IsEmpty(tableName)
    ensures CheckRemarks(true, tableName, fieldTable, fieldStream, Columns(Some(columns)), prev, inputSteps)
         == [Remark(Ok, TableNameOK), Remark(Ok, TableExists), TableFieldsRemark(fieldTable, columns)]
            + (InputRemarks(fieldStream, prev) + [InputStepsRemark(inputSteps)])
  {
  }

  /** No remark after the table part of `check` is about the table's columns. */
  lemma InputRemarksNotAboutTable(x: Remark, fieldStream: seq<Option<string>>, prev: Option<seq<string>>,
                                  inputSteps: seq<string>)
    requires x.message.MissingFieldsToLoadInTargetTable? || x.message.AllFieldsFoundInTargetTable?
    ensures x !in InputRemarks(fieldStream, prev) + [InputStepsRemark(inputSteps)]
  {
  }

  /**
   * With the table's columns at hand, `check` reports the mapped columns the
   * table lacks, listing exactly those, or that all were found.
   */
  lemma CheckReportsTableFields(tableName: Option<string>, fieldTable: seq<Option<string>>,
                                fieldStream: seq<Option<string>>, columns: seq<string>,
                                prev: Option<seq<string>>, inputSteps: seq<string>)
    requires !IsEmpty(tableName)
    ensures var r := CheckRemarks(true, tableName, fieldTable, fieldStream, Columns(Some(columns)), prev, inputSteps);
      && (Remark(Error, MissingFieldsToLoadInTargetTable(Missing(fieldTable, columns))) in r
          <==> exists i :: 0 <= i < |fieldTable| && !Found(columns, fieldTable[i]))
      && (Remark(Ok, AllFieldsFoundInTargetTable) in r
          <==> forall i :: 0 <= i < |fieldTable| ==> Found(columns, fieldTable[i]))
  {
    var front := [Remark(Ok, TableNameOK), Remark(Ok, TableExists), TableFieldsRemark(fieldTable, columns)];
    var back := InputRemarks(fieldStream, prev) + [InputStepsRemark(inputSteps)];
    CheckRemarksWithColumns(tableName, fieldTable, fieldStream, columns, prev, inputSteps);
    var missingRemark := Remark(Error, MissingFieldsToLoadInTargetTable(Missing(fieldTable, columns)));
    var allFoundRemark := Remark(Ok, AllFieldsFoundInTargetTable);
    InputRemarksNotAboutTable(missingRemark, fieldStream, prev, inputSteps);
    InputRemarksNotAboutTable(allFoundRemark, fieldStream, prev, inputSteps);
    InFront(missingRemark, front, back);
    InFront(allFoundRemark, front, back);
  }

  /**
   * When the database answers, `check` makes its table remarks (none for an
   * empty table name), then those on the input, then the input-steps remark.
   */
  lemma CheckRemarksAnswered(tableName: Option<string>, fieldTable: seq<Option<string>>,
                             fieldStream: seq<Option<string>>, lookup: TableLookup,
                             prev: Option<seq<string>>, inputSteps: seq<string>)
    requires !lookup.ConnectFails? && (lookup.LookupFails? ==> IsEmpty(tableName))
    ensures CheckRemarks(true, tableName, fieldTable, fieldStream, lookup, prev, inputSteps)
         == (if IsEmpty(tableName) then [] else TableRemarks(fieldTable, lookup))
            + InputRemarks(fieldStream, prev) + [InputStepsRemark(inputSteps)]
  {
  }

  /** The table remarks of `check` say nothing about the incoming row. */
  lemma TableRemarksNotAboutInput(x: Remark, fieldTable: seq<Option<string>>, lookup: TableLookup)
    requires x.message.MissingFieldsInInput?
    ensures x !in TableRemarks(fieldTable, lookup)
  {
  }

  /** Membership in a concatenation of three, when the outer two are known not to hold the element. */
  lemma InMiddle<T>(x: T, front: seq<T>, middle: seq<T>, back: seq<T>)
    requires x !in front && x !in back
    ensures x in front + middle + back <==> x in middle
  {
  }

  /**
   * When the database answers and rows arrive, `check` reports the mapped
   * stream fields the row lacks, listing exactly those, whenever there are any.
   */
  lemma CheckReportsInputFields(tableName: Option<string>, fieldTable: seq<Option<string>>,
                                fieldStream: seq<Option<string>>, lookup: TableLookup,
                                prev: seq<string>, inputSteps: seq<string>)
    requires |prev| > 0
    requires !lookup.ConnectFails? && (lookup.LookupFails? ==> IsEmpty(tableName))
    ensures var r := CheckRemarks(true, tableName, fieldTable, fieldStream, lookup, Some(prev), inputSteps);
      Remark(Error, MissingFieldsInInput(Missing(fieldStream, prev))) in r
      <==> exists i :: 0 <= i < |fieldStream| && !Found(prev, fieldStream[i])
  {
    var x := Remark(Error, MissingFieldsInInput(Missing(fieldStream, prev)));
    var front := if IsEmpty(tableName) then [] else TableRemarks(fieldTable, lookup);
    CheckRemarksAnswered(tableName, fieldTable, fieldStream, lookup, Some(prev), inputSteps);
    TableRemarksNotAboutInput(x, fieldTable, lookup);
    InMiddle(x, front, InputRemarks(fieldStream, Some(prev)), [InputStepsRemark(inputSteps)]);
    assert InputRemarks(fieldStream, Some(prev))
        == [Remark(Ok, StepReceivingDatas(|prev|)), InputFieldsRemark(fieldStream, prev)];
  }

  // ---------------------------------------------------------------------
  // getSQLStatements

  /** A column for the DDL: named after the table column, typed like the stream field it comes from. */
  datatype TableField = TableField(name: Option<string>, source: Option<string>)

  /** The columns `getSQLStatements` hands to `getDDL`: each stream field renamed to its table column. */
  function RenamedFields(fieldTable: seq<Option<string>>, fieldStream: seq<Option<string>>): (r: seq<TableField>)
    requires |fieldTable| == |fieldStream|
    ensures |r| == |fieldTable|
    ensures forall i :: 0 <= i < |r| ==> r[i] == TableField(fieldTable[i], fieldStream[i])
  {
    seq(|fieldTable|, i requires 0 <= i < |fieldTable| => TableField(fieldTable[i], fieldStream[i]))
  }

  /** What the database answers `getDDL` (a failure to connect included). */
  datatype DdlResult = DdlFails(message: string) | Ddl(sql: string)

  datatype SqlError =
    | NoConnectionDefined
    | NotReceivingAnyFields
    | NoTableDefinedOnConnection
    | ErrorOccurred(detail: string)

  /**
   * The outcome of `getSQLStatements`: a `KettleStepException` naming the
   * stream field it could not find, or an `SQLStatement` with its SQL (null
   * when there is nothing to do) and its error (null when there is none).
   */
  datatype SqlOutcome =
    | StepException(missingField: Option<string>)
    | Statement(sql: Option<string>, error: Option<SqlError>)

  /** The statement made from the database's DDL answer: empty SQL counts as nothing to do. */
  function DdlStatement(answer: DdlResult): (r: SqlOutcome)
    ensures r.Statement?
    ensures r.sql.Some? ==> r.sql.value != ""
    ensures answer.Ddl? ==> r.error.None? && (r.sql.Some? <==> answer.sql != "")
    ensures answer.Ddl? && answer.sql != "" ==> r.sql == Some(answer.sql)
    ensures answer.DdlFails? ==> r.sql.None? && r.error == Some(ErrorOccurred(answer.message))
  {
    match answer
    case DdlFails(detail) => Statement(None, Some(ErrorOccurred(detail)))
    case Ddl(sql) => Statement(if sql == "" then None else Some(sql), None)
  }

  /** The loop of `readData` over the `mapping` children: entry `i` of each array from child `i`. */
  method FillMappings(mappings: seq<Tags>, fieldTable: array<Option<string>>,
                      fieldStream: array<Option<string>>, dateMask: array<Option<string>>)
    requires fieldTable.Length == fieldStream.Length == dateMask.Length == |mappings|
    requires fieldTable != fieldStream && fieldTable != dateMask && fieldStream != dateMask
    modifies fieldTable, fieldStream, dateMask
    ensures forall i :: 0 <= i < |mappings| ==>
      && fieldTable[i] == DecodeMapping(mappings[i]).table
      && fieldStream[i] == DecodeMapping(mappings[i]).stream
      && dateMask[i] == Some(DecodeMapping(mappings[i]).dateMask)
  {
    var i := 0;
    while i < |mappings|
      invariant 0 <= i <= |mappings|
      invariant forall j :: 0 <= j < i ==>
        && fieldTable[j] == DecodeMapping(mappings[j]).table
        && fieldStream[j] == DecodeMapping(mappings[j]).stream
        && dateMask[j] == Some(DecodeMapping(mappings[j]).dateMask)
    {
      var vnode := mappings[i];
      fieldTable[i] := TagValue(vnode, "stream_name");
      fieldStream[i] := TagValue(vnode, "field_name");
      if fieldStream[i].None? {
        fieldStream[i] := fieldTable[i];
      }
      var locDateMask := TagValue(vnode, "date_mask");
      if locDateMask.None? {
        dateMask[i] := Some("");
      } else if locDateMask.value == DATE_MASK_DATE || locDateMask.value == DATE_MASK_DATETIME {
        dateMask[i] := locDateMask;
      } else {
        dateMask[i] := Some("");
      }
      i := i + 1;
    }
  }

  // ---------------------------------------------------------------------
  // The step settings object

  class OraBulkLoaderMeta {
    var settings: Settings
    var databaseMeta: Option<DatabaseMeta>
    /** Target column of each mapping. */
    var fieldTable: array<Option<string>>
    /** Stream field of each mapping. */
    var fieldStream: array<Option<string>>
    /** Date mask of each mapping. */
    var dateMask: array<Option<string>>

    /** The three mapping arrays are separate and of one length. */
    ghost predicate Valid()
      reads this
    {
      && fieldTable.Length == fieldStream.Length == dateMask.Length
      && fieldTable != fieldStream && fieldTable != dateMask && fieldStream != dateMask
    }

    /** `new OraBulkLoaderMeta()`: nothing set yet. */
    constructor ()
      ensures Valid() && settings == UnsetSettings && databaseMeta.None?
      ensures fieldTable.Length == 0
    {
      settings := UnsetSettings;
      databaseMeta := None;
      fieldTable := new Option<string>[0];
      fieldStream := new Option<string>[0];
      dateMask := new Option<string>[0];
    }

    /** `super.clone()` followed by `allocate(n)`: the same settings with fresh arrays of `n` nulls. */
    constructor Allocated(s: Settings, db: Option<DatabaseMeta>, n: nat)
      ensures Valid() && settings == s && databaseMeta == db
      ensures fieldTable.Length == n
      ensures fresh(fieldTable) && fresh(fieldStream) && fresh(dateMask)
    {
      settings := s;
      databaseMeta := db;
      fieldTable := new Option<string>[n](_ => None);
      fieldStream := new Option<string>[n](_ => None);
      dateMask := new Option<string>[n](_ => None);
    }

    /** `allocate(n)`: three fresh arrays of `n` nulls; nothing else changes. */
    method Allocate(n: nat)
      modifies this
      ensures Valid() && fieldTable.Length == n
      ensures fresh(fieldTable) && fresh(fieldStream) && fresh(dateMask)
      ensures forall i :: 0 <= i < n ==> fieldTable[i].None? && fieldStream[i].None? && dateMask[i].None?
      ensures settings == old(settings) && databaseMeta == old(databaseMeta)
    {
      fieldTable := new Option<string>[n](_ => None);
      fieldStream := new Option<string>[n](_ => None);
      dateMask := new Option<string>[n](_ => None);
    }

    /** `setDefault()`: the default settings, no connection and no mappings. */
    method SetDefault(defaultTableName: string)
      modifies this
      ensures Valid() && fieldTable.Length == 0
      ensures settings == DefaultSettings(defaultTableName) && databaseMeta.None?
      ensures fresh(fieldTable) && fresh(fieldStream) && fresh(dateMask)
    {
      databaseMeta := None;
      settings := DefaultSettings(defaultTableName);
      Allocate(0);
    }

    /**
     * `readData(stepnode, databases)`: the connection named by the
     * `connection` tag, the decoded settings, and one decoded mapping per
     * `mapping` child, in order.
     */
    method ReadData(node: StepNode, findDatabase: Option<string> -> Option<DatabaseMeta>)
      modifies this
      ensures Valid() && fieldTable.Length == |node.mappings|
      ensures fresh(fieldTable) && fresh(fieldStream) && fresh(dateMask)
      ensures databaseMeta == findDatabase(TagValue(node.tags, "connection"))
      ensures settings == DecodeSettings(node.tags)
      ensures forall i :: 0 <= i < |node.mappings| ==>
        && fieldTable[i] == DecodeMapping(node.mappings[i]).table
        && fieldStream[i] == DecodeMapping(node.mappings[i]).stream
        && dateMask[i] == Some(DecodeMapping(node.mappings[i]).dateMask)
    {
      databaseMeta := findDatabase(TagValue(node.tags, "connection"));
      settings := DecodeSettings(node.tags);
      Allocate(|node.mappings|);
      FillMappings(node.mappings, fieldTable, fieldStream, dateMask);
    }

    /** `clone()`: the same settings and mappings in three fresh arrays. */
    method Clone() returns (c: OraBulkLoaderMeta)
      requires Valid()
      ensures fresh(c) && fresh(c.fieldTable) && fresh(c.fieldStream) && fresh(c.dateMask)
      ensures c.Valid() && c.settings == settings && c.databaseMeta == databaseMeta
      ensures c.fieldTable[..] == fieldTable[..]
      ensures c.fieldStream[..] == fieldStream[..]
      ensures c.dateMask[..] == dateMask[..]
    {
      var n := fieldTable.Length;
      c := new OraBulkLoaderMeta.Allocated(settings, databaseMeta, n);
      var i := 0;
      while i < n
        invariant 0 <= i <= n
        invariant c.Valid() && c.fieldTable.Length == n
        invariant c.fieldTable[..i] == fieldTable[..i]
        invariant c.fieldStream[..i] == fieldStream[..i]
        invariant c.dateMask[..i] == dateMask[..i]
        modifies c.fieldTable, c.fieldStream, c.dateMask
      {
        c.fieldTable[i] := fieldTable[i];
        c.fieldStream[i] := fieldStream[i];
        c.dateMask[i] := dateMask[i];
        i := i + 1;
      }
    }

    /** `getCommitSizeAsInt(space)`. */
    function CommitSizeAsInt(space: string -> string): (r: int)
      reads this
      ensures IsInt(r)
      ensures ParseInt(Substituted(settings.commitSize, space)).Some?
              ==> Some(r) == ParseInt(Substituted(settings.commitSize, space))
      ensures ParseInt(Substituted(settings.commitSize, space)).None? ==> r == DEFAULT_COMMIT_SIZE
    {
      SettingAsInt(settings.commitSize, space, DEFAULT_COMMIT_SIZE)
    }

    /** `getBindSizeAsInt(space)`. */
    function BindSizeAsInt(space: string -> string): (r: int)
      reads this
      ensures IsInt(r)
      ensures ParseInt(Substituted(settings.bindSize, space)).Some?
              ==> Some(r) == ParseInt(Substituted(settings.bindSize, space))
      ensures ParseInt(Substituted(settings.bindSize, space)).None? ==> r == DEFAULT_BIND_SIZE
    {
      SettingAsInt(settings.bindSize, space, DEFAULT_BIND_SIZE)
    }

    /** `getReadSizeAsInt(space)`. */
    function ReadSizeAsInt(space: string -> string): (r: int)
      reads this
      ensures IsInt(r)
      ensures ParseInt(Substituted(settings.readSize, space)).Some?
              ==> Some(r) == ParseInt(Substituted(settings.readSize, space))
      ensures ParseInt(Substituted(settings.readSize, space)).None? ==> r == DEFAULT_READ_SIZE
    {
      SettingAsInt(settings.readSize, space, DEFAULT_READ_SIZE)
    }

    /** `getMaxErrorsAsInt(space)`. */
    function MaxErrorsAsInt(space: string -> string): (r: int)
      reads this
      ensures IsInt(r)
      ensures ParseInt(Substituted(settings.maxErrors, space)).Some?
              ==> Some(r) == ParseInt(Substituted(settings.maxErrors, space))
      ensures ParseInt(Substituted(settings.maxErrors, space)).None? ==> r == DEFAULT_MAX_ERRORS
    {
      SettingAsInt(settings.maxErrors, space, DEFAULT_MAX_ERRORS)
    }

    /**
     * The remarks of `check(remarks, …, prev, input, …)` appended to
     * `remarks`; `lookup` is what the database answers. It builds the list
     * step by step as the source does; `CheckRemarks` is its specification,
     * and the `Check*` lemmas state what that list promises.
     */
    method Check(remarks: seq<Remark>, lookup: TableLookup, prev: Option<seq<string>>, inputSteps: seq<string>)
      returns (out: seq<Remark>)
      ensures out == remarks + CheckRemarks(databaseMeta.Some?, settings.tableName, fieldTable[..],
                                            fieldStream[..], lookup, prev, inputSteps)
    {
      out := remarks;
      if databaseMeta.Some? {
        var connected := ConnectedCheck(lookup, prev);
        out := out + connected;
      } else {
        out := out + [Remark(Error, InvalidConnection)];
      }
      if |inputSteps| > 0 {
        out := out + [Remark(Ok, StepReceivingInfoFromOtherSteps)];
      } else {
        out := out + [Remark(Error, NoInputError)];
      }
    }

    /** The part of `check` inside its `try`, once a connection is defined; specified by `ConnectedRemarks`. */
    method ConnectedCheck(lookup: TableLookup, prev: Option<seq<string>>) returns (out: seq<Remark>)
      ensures out == ConnectedRemarks(settings.tableName, fieldTable[..], fieldStream[..], lookup, prev)
    {
      if lookup.ConnectFails? {
        return [Remark(Error, DatabaseErrorOccurred(lookup.message))];
      }
      out := [];
      if !IsEmpty(settings.tableName) {
        out := TableCheck(lookup);
        if lookup.LookupFails? {
          return;
        }
      }
      var input := InputCheck(prev);
      out := out + input;
    }

    /** The part of `check` that reads the target table's columns and looks up the mapped ones; specified by `TableRemarks`. */
    method TableCheck(lookup: TableLookup) returns (out: seq<Remark>)
      requires !lookup.ConnectFails?
      ensures out == TableRemarks(fieldTable[..], lookup)
    {
      out := [Remark(Ok, TableNameOK)];
      if lookup.LookupFails? {
        out := out + [Remark(Error, DatabaseErrorOccurred(lookup.message))];
      } else if lookup.columns.None? {
        out := out + [Remark(Error, CouldNotReadTableInfo)];
      } else {
        out := out + [Remark(Ok, TableExists)];
        var missing := MissingFields(fieldTable, lookup.columns.value);
        if missing != [] {
          out := out + [Remark(Error, MissingFieldsToLoadInTargetTable(missing))];
        } else {
          out := out + [Remark(Ok, AllFieldsFoundInTargetTable)];
        }
      }
    }

    /** The part of `check` that looks up the mapped stream fields in the incoming row `prev`; specified by `InputRemarks`. */
    method InputCheck(prev: Option<seq<string>>) returns (out: seq<Remark>)
      ensures out == InputRemarks(fieldStream[..], prev)
    {
      if prev.Some? && |prev.value| > 0 {
        out := [Remark(Ok, StepReceivingDatas(|prev.value|))];
        var missing := MissingFields(fieldStream, prev.value);
        if missing != [] {
          out := out + [Remark(Error, MissingFieldsInInput(missing))];
        } else {
          out := out + [Remark(Ok, AllFieldsFoundInInput)];
        }
      } else {
        out := [Remark(Error, MissingFieldsInInput3)];
      }
    }

    /**
     * `getSQLStatements(…, prev)`: the DDL for the mapped columns, or the
     * reason there is none; `ddl` is what the database answers `getDDL`.
     * The first stream field the row lacks ends it with an exception, even
     * when no table is set.
     */
    method GetSqlStatements(prev: Option<seq<string>>, ddl: seq<TableField> -> DdlResult) returns (r: SqlOutcome)
      requires Valid()
      ensures databaseMeta.None? ==> r == Statement(None, Some(NoConnectionDefined))
      ensures databaseMeta.Some? && (prev.None? || |prev.value| == 0)
              ==> r == Statement(None, Some(NotReceivingAnyFields))
      ensures databaseMeta.Some? && prev.Some? && |prev.value| > 0 ==>
        var missing := Missing(fieldStream[..], prev.value);
        && (missing != [] ==> r == StepException(missing[0]))
        && (missing == [] && IsEmpty(settings.tableName) ==> r == Statement(None, Some(NoTableDefinedOnConnection)))
        && (missing == [] && !IsEmpty(settings.tableName)
            ==> r == DdlStatement(ddl(RenamedFields(fieldTable[..], fieldStream[..]))))
    {
      if databaseMeta.None? {
        return Statement(None, Some(NoConnectionDefined));
      }
      if prev.None? || |prev.value| == 0 {
        return Statement(None, Some(NotReceivingAnyFields));
      }
      var columns := prev.value;
      var tableFields: seq<TableField> := [];
      var i := 0;
      while i < fieldTable.Length
        invariant 0 <= i <= fieldTable.Length
        invariant forall j :: 0 <= j < i ==> Found(columns, fieldStream[j])
        invariant tableFields == RenamedFields(fieldTable[..i], fieldStream[..i])
      {
        if !Found(columns, fieldStream[i]) {
          var k := FirstMissing(fieldStream[..], columns);
          assert k == i;
          return StepException(fieldStream[i]);
        }
        tableFields := tableFields + [TableField(fieldTable[i], fieldStream[i])];
        i := i + 1;
      }
      assert fieldTable[..i] == fieldTable[..] && fieldStream[..i] == fieldStream[..];
      if IsEmpty(settings.tableName) {
        return Statement(None, Some(NoTableDefinedOnConnection));
      }
      r := DdlStatement(ddl(tableFields));
    }
  }

  /**
   * The field that makes `getSQLStatements` throw is the first one `check`
   * lists as missing from the input, when the database answers `check`.
   */
  lemma SqlExceptionMatchesCheck(tableName: Option<string>, fieldTable: seq<Option<string>>,
                                 fieldStream: seq<Option<string>>, lookup: TableLookup,
                                 prev: seq<string>, inputSteps: seq<string>)
    requires |prev| > 0 && Missing(fieldStream, prev) != []
    requires !lookup.ConnectFails? && (lookup.LookupFails? ==> IsEmpty(tableName))
    ensures exists fields :: && Remark(Error, MissingFieldsInInput(fields))
                                 in CheckRemarks(true, tableName, fieldTable, fieldStream, lookup, Some(prev), inputSteps)
                             && fields[0] == Missing(fieldStream, prev)[0]
  {
    var k := FirstMissing(fieldStream, prev);
    CheckReportsInputFields(tableName, fieldTable, fieldStream, lookup, prev, inputSteps);
  }

  /** A clone is separate: reading new settings into it leaves the original as it was. */
  method CloneIsIndependent(original: OraBulkLoaderMeta, node: StepNode,
                            findDatabase: Option<string> -> Option<DatabaseMeta>)
    requires original.Valid()
    ensures original.settings == old(original.settings)
    ensures original.fieldTable == old(original.fieldTable)
    ensures original.fieldTable[..] == old(original.fieldTable[..])
    ensures original.fieldStream[..] == old(original.fieldStream[..])
    ensures original.dateMask[..] == old(original.dateMask[..])
  {
    var copy := original.Clone();
    copy.ReadData(node, findDatabase);
    copy.Allocate(3);
  }
}
