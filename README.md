# Kettle Result and Oracle bulk loader settings in Dafny

This project models two classes of Pentaho Kettle (PDI) and proves properties about them.

**`Result`** (module `KettleResult`, file `Result.dfy`) is the outcome of one execution unit: a transformation, a job or a job entry. It holds:

- nine `long` counters (lines input, output, read, written, updated, rejected and deleted, errors, and files retrieved);
- the success flag, the exit status, the stopped flag and the entry number;
- the result rows;
- the result files, keyed by path;
- a log channel id and a log text.

The class changes these fields in place, the way the Java object does. Each method states its new `State()` as a function of the old state:

- `add` folds another result in;
- `clear` zeroes the counters;
- each `increase*` raises one counter;
- `clone` copies the rows and re-keys the files by their paths.

Counters wrap around on overflow like Java `long`s. Module `ResultFold` (file `ResultFold.dfy`) proves what folding many results with `add` gives:

- the counters are the wrapped sums, in any order;
- the rows are concatenated in order;
- the files are the union, with the later entry winning;
- the log fields come from the last result folded in.

**`OraBulkLoaderMeta`** (module `OraBulkLoader`, file `OraBulkLoaderMeta.dfy`) is the configuration of the Oracle bulk loader step. The model covers:

- the defaults set by `setDefault`;
- decoding the step's XML node in `readData`;
- the three parallel mapping arrays, allocated by `allocate` and copied by `clone`;
- the `get*AsInt` accessors, which parse a setting or fall back to its default;
- the missing-field checks in `check` and `getSQLStatements`.

The model represents the outside world this way:

- The XML node is a map from tag name to text, and an absent tag is null.
- Row and table schemas are sequences of column names.
- Variable substitution, connection lookup and the database's answers are parameters.

Module `JavaLang` (file `JavaLang.dfy`) states the Java semantics the two classes rely on:

- `long` wrap-around;
- `Integer.toString` and `Integer.valueOf`;
- `"Y".equalsIgnoreCase`;
- `Const.isEmpty`;
- truncating integer division.

## Model

| member | source | states |
|---|---|---|
| JavaLang.WrapLong | src-core/org/pentaho/di/core/Result.java:393-401 | `long` addition in `add` yields a value in the `long` range, and any sum that already fits is left as it is |
| JavaLang.WrapLongAbsorbs | src-core/org/pentaho/di/core/Result.java:579-602 | Wrapping an intermediate `long` sum and then adding more gives the same `long` as wrapping once at the end, so repeated `+=` equals one wrapped addition |
| JavaLang.NatToDigits | src/org/pentaho/di/trans/steps/orabulkloader/OraBulkLoaderMeta.java:435-438 | The decimal text `Integer.toString` writes for a non-negative default is a non-empty run of digits with no leading zero whose value is that number |
| JavaLang.ParseInt | src/org/pentaho/di/trans/steps/orabulkloader/OraBulkLoaderMeta.java:180-186 | `Integer.valueOf` fails on null and on the empty string. It succeeds only on an optional `-` or `+` followed by at least one digit, and then yields the signed value of those digits, which fits an `int` |
| JavaLang.ParseIntAccepts | src/org/pentaho/di/trans/steps/orabulkloader/OraBulkLoaderMeta.java:180-186 | Conversely, an optional sign followed by at least one digit whose value fits an `int` parses to that signed value |
| JavaLang.ParseDecimalString | src/org/pentaho/di/trans/steps/orabulkloader/OraBulkLoaderMeta.java:356-373 | Every `int` written by `Integer.toString` is parsed back to itself by `Integer.valueOf` |
| JavaLang.YesIgnoringCase | src/org/pentaho/di/trans/steps/orabulkloader/OraBulkLoaderMeta.java:387-395 | `"Y".equalsIgnoreCase(t)` holds exactly when `t` is "Y" or "y", and never for null |
| KettleResult.AddCountersValid | src-core/org/pentaho/di/core/Result.java:393-401 | Adding the counters of two results keeps every one of the nine counters within a `long` |
| KettleResult.CopyRows | src-core/org/pentaho/di/core/Result.java:107-115 | The rows `clone` builds are the original rows, each once, in the original order |
| KettleResult.ReKeyFiles | src-core/org/pentaho/di/core/Result.java:117-126 | The file map `clone` builds has each original file under its own path and nothing else, and equals the original when every file already sat under its path |
| KettleResult.ReKeyingWellKeyed | src-core/org/pentaho/di/core/Result.java:119-125 | Re-keying a map whose files are already stored under their paths gives the same map |
| KettleResult.Throughput | src-core/org/pentaho/di/core/Result.java:136-153 | The throughput text is null exactly when no time passed or neither lines read nor lines written is positive; otherwise it starts with "Transformation " |
| KettleResult.Result.constructor | src-core/org/pentaho/di/core/Result.java:76-92 | A new result has zero counters, no rows or files, is not successful or stopped, and has exit status 0, entry number 0 and null log fields |
| KettleResult.Result.WithEntryNr | src-core/org/pentaho/di/core/Result.java:94-98 | `new Result(nr)` is the fresh result except that the entry number is `nr` |
| KettleResult.Result.FieldCopy | src-core/org/pentaho/di/core/Result.java:104 | `super.clone()` yields a new object whose every field equals the given state |
| KettleResult.Result.Clone | src-core/org/pentaho/di/core/Result.java:100-134 | The clone is a new object that agrees with the original on every field except the file map; that map holds the original files re-keyed by their paths |
| KettleResult.CloneIsIndependent | src-core/org/pentaho/di/core/Result.java:100-134 | Raising a counter, replacing the rows or clearing the clone leaves the original's state unchanged |
| KettleResult.Result.ReadWriteThroughput | src-core/org/pentaho/di/core/Result.java:136-153 | `getReadWriteThroughput(seconds)` is null exactly when `seconds` is 0 or neither the read nor the written count is positive |
| KettleResult.Result.Clear | src-core/org/pentaho/di/core/Result.java:373-385 | The nine counters become 0 and the log text becomes null; every other field is unchanged |
| KettleResult.Result.Add | src-core/org/pentaho/di/core/Result.java:391-406 | Each counter becomes the `long` sum of both. Files become the union with the argument winning, and rows become this result's rows then the argument's. The log fields are taken from the argument, and nothing else changes, even when the argument is this object |
| KettleResult.Result.ResultFilesList | src-core/org/pentaho/di/core/Result.java:537-540 | The list holds, for some order of the stored paths that names each path exactly once, the file stored under each path in that order; a file stored under two paths appears twice |
| KettleResult.Result.IncreaseLinesRead | src-core/org/pentaho/di/core/Result.java:579-581 | Only the lines-read counter changes, by `incr` with `long` wrap-around |
| KettleResult.Result.IncreaseLinesWritten | src-core/org/pentaho/di/core/Result.java:582-584 | Only the lines-written counter changes, by `incr` with `long` wrap-around |
| KettleResult.Result.IncreaseLinesInput | src-core/org/pentaho/di/core/Result.java:585-587 | Only the lines-input counter changes, by `incr` with `long` wrap-around |
| KettleResult.Result.IncreaseLinesOutput | src-core/org/pentaho/di/core/Result.java:588-590 | Only the lines-output counter changes, by `incr` with `long` wrap-around |
| KettleResult.Result.IncreaseLinesUpdated | src-core/org/pentaho/di/core/Result.java:591-593 | Only the lines-updated counter changes, by `incr` with `long` wrap-around |
| KettleResult.Result.IncreaseLinesDeleted | src-core/org/pentaho/di/core/Result.java:594-596 | Only the lines-deleted counter changes, by `incr` with `long` wrap-around |
| KettleResult.Result.IncreaseLinesRejected | src-core/org/pentaho/di/core/Result.java:597-599 | Only the lines-rejected counter changes, by `incr` with `long` wrap-around |
| KettleResult.Result.IncreaseErrors | src-core/org/pentaho/di/core/Result.java:600-602 | Only the error counter changes, by `incr` with `long` wrap-around |
| KettleResult.Result.SetNrFilesRetrieved | src-core/org/pentaho/di/core/Result.java:170-173 | Only the files-retrieved counter changes, to the given value |
| KettleResult.Result.SetEntryNr | src-core/org/pentaho/di/core/Result.java:188-191 | Only the entry number changes |
| KettleResult.Result.SetExitStatus | src-core/org/pentaho/di/core/Result.java:204-207 | Only the exit status changes |
| KettleResult.Result.SetNrErrors | src-core/org/pentaho/di/core/Result.java:220-223 | Only the error counter changes |
| KettleResult.Result.SetNrLinesInput | src-core/org/pentaho/di/core/Result.java:236-239 | Only the lines-input counter changes |
| KettleResult.Result.SetNrLinesOutput | src-core/org/pentaho/di/core/Result.java:252-255 | Only the lines-output counter changes |
| KettleResult.Result.SetNrLinesRead | src-core/org/pentaho/di/core/Result.java:268-271 | Only the lines-read counter changes |
| KettleResult.Result.SetNrLinesUpdated | src-core/org/pentaho/di/core/Result.java:284-287 | Only the lines-updated counter changes |
| KettleResult.Result.SetNrLinesWritten | src-core/org/pentaho/di/core/Result.java:300-303 | Only the lines-written counter changes |
| KettleResult.Result.SetNrLinesDeleted | src-core/org/pentaho/di/core/Result.java:316-319 | Only the lines-deleted counter changes |
| KettleResult.Result.SetResult | src-core/org/pentaho/di/core/Result.java:332-335 | Only the success flag changes |
| KettleResult.Result.SetRows | src-core/org/pentaho/di/core/Result.java:348-351 | Only the rows change |
| KettleResult.Result.SetStopped | src-core/org/pentaho/di/core/Result.java:364-367 | Only the stopped flag changes |
| KettleResult.Result.SetResultFiles | src-core/org/pentaho/di/core/Result.java:544-547 | Only the file map changes |
| KettleResult.Result.SetNrLinesRejected | src-core/org/pentaho/di/core/Result.java:560-563 | Only the lines-rejected counter changes |
| KettleResult.Result.SetLogChannelId | src-core/org/pentaho/di/core/Result.java:575-577 | Only the log channel id changes |
| KettleResult.Result.SetLogText | src-core/org/pentaho/di/core/Result.java:614-616 | Only the log text changes |
| ResultFold.WrapCounters | src-core/org/pentaho/di/core/Result.java:393-401 | Wrapping nine exact sums gives counters that all fit a `long`, and leaves counters that already fit unchanged |
| ResultFold.LongAddAssociative | src-core/org/pentaho/di/core/Result.java:579-602 | `long` addition with wrap-around is associative |
| ResultFold.WrapCountersAbsorbs | src-core/org/pentaho/di/core/Result.java:393-401 | Wrapping after every `add` gives the same counters as wrapping the exact total once |
| ResultFold.AddCountersAssociative | src-core/org/pentaho/di/core/Result.java:393-401 | Summing counters in `add` is associative |
| ResultFold.AddCountersCommutative | src-core/org/pentaho/di/core/Result.java:393-401 | Summing counters in `add` is commutative |
| ResultFold.IncreaseTwice | src-core/org/pentaho/di/core/Result.java:579-602 | `LongAddAssociative` applied to `increase*`: two calls on one counter equal one call with the wrapped sum of both increments |
| ResultFold.MergeAssociative | src-core/org/pentaho/di/core/Result.java:391-406 | `a.add(b)` then `.add(c)` leaves `a` as it would be after adding the combination of `b` and `c` |
| ResultFold.MergeFilesCommutative | src-core/org/pentaho/di/core/Result.java:402 | `putAll` gives the same file map in either direction exactly when the two maps agree on every shared path |
| ResultFold.MergeKeepsFiles | src-core/org/pentaho/di/core/Result.java:402 | After `add` the paths are those of both results; a shared path keeps the argument's file, and any other path keeps its own |
| ResultFold.MergeValid | src-core/org/pentaho/di/core/Result.java:391-406 | After `add`, every field still holds a value its Java type can hold |
| ResultFold.MergeWellKeyed | src-core/org/pentaho/di/core/Result.java:402 | If both results store every file under its own path, so does their merge |
| ResultFold.MergeFresh | src-core/org/pentaho/di/core/Result.java:391-406 | Adding a fresh result changes nothing but the log fields, which become null |
| ResultFold.FreshMerge | src-core/org/pentaho/di/core/Result.java:391-406 | Adding a result into a fresh one copies its counters, rows, files and log fields, and keeps the fresh scalar fields |
| ResultFold.ClearedIdempotent | src-core/org/pentaho/di/core/Result.java:373-385 | Clearing twice is the same as clearing once |
| ResultFold.ClearedFresh | src-core/org/pentaho/di/core/Result.java:373-385 | Clearing a fresh result leaves it as it was |
| ResultFold.FoldCounters | src-core/org/pentaho/di/core/Result.java:393-401 | After folding a sequence of results with `add`, each counter is the wrapped exact sum of the starting value and every part's value |
| ResultFold.FoldRows | src-core/org/pentaho/di/core/Result.java:405 | After a fold, the rows are the starting rows followed by each part's rows, in order |
| ResultFold.FoldFiles | src-core/org/pentaho/di/core/Result.java:402 | After a fold, the file map is the starting map overridden by each part's map in turn |
| ResultFold.FoldScalars | src-core/org/pentaho/di/core/Result.java:403-404 | A fold keeps the success flag, exit status, stopped flag and entry number, and takes both log fields from the last part |
| ResultFold.FoldClosedForm | src-core/org/pentaho/di/core/Result.java:391-406 | The state after any fold equals the closed form: wrapped sums, concatenated rows, unioned files, the last log fields and the starting scalars |
| ResultFold.TotalOrderIndependent | src-core/org/pentaho/di/core/Result.java:393-401 | The exact counter totals of any reordering of the same results are equal |
| ResultFold.FoldCountersOrderIndependent | src-core/org/pentaho/di/core/Result.java:393-401 | Folding the same results in any order gives the same counters |
| ResultFold.AllFilesKeys | src-core/org/pentaho/di/core/Result.java:402 | The merged file map of several results holds exactly the paths found in any of them |
| ResultFold.FoldFileKeys | src-core/org/pentaho/di/core/Result.java:402 | After a fold, the paths are the starting paths together with the paths of every part |
| OraBulkLoader.SizeSetting | src/org/pentaho/di/trans/steps/orabulkloader/OraBulkLoaderMeta.java:356-373 | A null or empty size tag gives the default in decimal; any other text is kept verbatim, and the setting is never empty |
| OraBulkLoader.SizeSettingStable | src/org/pentaho/di/trans/steps/orabulkloader/OraBulkLoaderMeta.java:356-373 | Decoding a decoded size setting again gives the same text |
| OraBulkLoader.Flag | src/org/pentaho/di/trans/steps/orabulkloader/OraBulkLoaderMeta.java:387-395 | A flag is set exactly when its tag is "Y" or "y" |
| OraBulkLoader.NormalizedDateMask | src/org/pentaho/di/trans/steps/orabulkloader/OraBulkLoaderMeta.java:407-420 | A date mask is "DATE", "DATETIME" or empty. It is non-empty exactly when the tag is one of those two strings, and then it equals the tag |
| OraBulkLoader.NormalizedDateMaskStable | src/org/pentaho/di/trans/steps/orabulkloader/OraBulkLoaderMeta.java:407-420 | Normalising a normalised date mask changes nothing |
| OraBulkLoader.DecodeMapping | src/org/pentaho/di/trans/steps/orabulkloader/OraBulkLoaderMeta.java:404-420 | The table field is the `stream_name` tag, the stream field is `field_name` or else the table field, and the date mask is normalised |
| OraBulkLoader.MappingStreamIsTable | src/org/pentaho/di/trans/steps/orabulkloader/OraBulkLoaderMeta.java:406 | Without a `field_name` tag, the stream field equals the table field |
| OraBulkLoader.DefaultSizeTexts | src/org/pentaho/di/trans/steps/orabulkloader/OraBulkLoaderMeta.java:435-438 | The default commit, bind, read and error settings are "100000", "0", "0" and "50" |
| OraBulkLoader.DecodedFlags | src/org/pentaho/di/trans/steps/orabulkloader/OraBulkLoaderMeta.java:387-395 | Each of the five flags read from the XML is true exactly when its tag is present and reads "Y" or "y" |
| OraBulkLoader.DecodedSizesPresent | src/org/pentaho/di/trans/steps/orabulkloader/OraBulkLoaderMeta.java:355-373 | No size setting read from the XML is null or empty |
| OraBulkLoader.SettingAsInt | src/org/pentaho/di/trans/steps/orabulkloader/OraBulkLoaderMeta.java:180-186 | The result is an `int`: the parsed value of the substituted setting, or the default when that does not parse |
| OraBulkLoader.SettingAsIntDecimal | src/org/pentaho/di/trans/steps/orabulkloader/OraBulkLoaderMeta.java:180-186 | A setting holding the decimal text of an `int` (unchanged by substitution) reads back as that `int` |
| OraBulkLoader.DecodedSizeAsInt | src/org/pentaho/di/trans/steps/orabulkloader/OraBulkLoaderMeta.java:355-373 | A size whose tag was missing reads back as its default, and one whose tag was given reads back as that tag's parsed value or the default |
| OraBulkLoader.Missing | src/org/pentaho/di/trans/steps/orabulkloader/OraBulkLoaderMeta.java:649-664 | The missing names are exactly the listed names absent from the columns. The list is empty exactly when every name is found, and it is no longer than the input |
| OraBulkLoader.FirstMissing | src/org/pentaho/di/trans/steps/orabulkloader/OraBulkLoaderMeta.java:767-780 | The first missing name is at the first index whose name is not found; every earlier name is found |
| OraBulkLoader.MissingFields | src/org/pentaho/di/trans/steps/orabulkloader/OraBulkLoaderMeta.java:693-706 | Scanning a mapping array yields exactly the missing names in array order |
| OraBulkLoader.TableFieldsRemark | src/org/pentaho/di/trans/steps/orabulkloader/OraBulkLoaderMeta.java:649-673 | The table remark is an error exactly when some table field is not a column, and then it lists those fields; otherwise it says all were found |
| OraBulkLoader.InputFieldsRemark | src/org/pentaho/di/trans/steps/orabulkloader/OraBulkLoaderMeta.java:693-715 | The input remark is an error exactly when some stream field is not in the row, and then it lists those fields; otherwise it says all were found |
| OraBulkLoader.CheckWithoutConnection | src/org/pentaho/di/trans/steps/orabulkloader/OraBulkLoaderMeta.java:735-752 | Without a connection, `check` reports the invalid connection and then the input-step remark, nothing else |
| OraBulkLoader.CheckEndsWithInputSteps | src/org/pentaho/di/trans/steps/orabulkloader/OraBulkLoaderMeta.java:743-752 | `check` always ends with the input-step remark, which is an error exactly when no step sends rows to this one |
| OraBulkLoader.CheckRemarksWithColumns | src/org/pentaho/di/trans/steps/orabulkloader/OraBulkLoaderMeta.java:625-673 | With a table name and a readable table, `check` reports the table name, the table's existence and the field remark first |
| OraBulkLoader.CheckReportsTableFields | src/org/pentaho/di/trans/steps/orabulkloader/OraBulkLoaderMeta.java:649-673 | `check` lists exactly the table fields missing from the target table whenever there are any, and says all were found exactly when there are none |
| OraBulkLoader.CheckRemarksAnswered | src/org/pentaho/di/trans/steps/orabulkloader/OraBulkLoaderMeta.java:617-722 | When the database answers, `check` reports the table remarks (when a table is named), then the input remarks, then the input-step remark |
| OraBulkLoader.CheckReportsInputFields | src/org/pentaho/di/trans/steps/orabulkloader/OraBulkLoaderMeta.java:683-715 | When the database answers and a row arrives, `check` lists exactly the stream fields missing from that row whenever there are any |
| OraBulkLoader.RenamedFields | src/org/pentaho/di/trans/steps/orabulkloader/OraBulkLoaderMeta.java:766-775 | The DDL fields pair each table field with its stream field, one per mapping, in order |
| OraBulkLoader.DdlStatement | src/org/pentaho/di/trans/steps/orabulkloader/OraBulkLoaderMeta.java:783-806 | Non-empty DDL text becomes the statement's SQL with no error, and empty text becomes no SQL. A database failure gives no SQL and an error carrying the database's message |
| OraBulkLoader.FillMappings | src/org/pentaho/di/trans/steps/orabulkloader/OraBulkLoaderMeta.java:400-422 | Element `i` of the three arrays holds the decoded table field, stream field and date mask of the `i`-th mapping node |
| OraBulkLoader.OraBulkLoaderMeta.constructor | src/org/pentaho/di/trans/steps/orabulkloader/OraBulkLoaderMeta.java:175-178 | A new step configuration has every setting null or false, no connection and no mappings |
| OraBulkLoader.OraBulkLoaderMeta.Allocated | src/org/pentaho/di/trans/steps/orabulkloader/OraBulkLoaderMeta.java:329-334 | The shallow copy followed by `allocate(n)` keeps the settings and connection and has three fresh arrays of length `n` |
| OraBulkLoader.OraBulkLoaderMeta.Allocate | src/org/pentaho/di/trans/steps/orabulkloader/OraBulkLoaderMeta.java:322-327 | The three mapping arrays are fresh, separate, of length exactly `n` and all null; nothing else changes |
| OraBulkLoader.OraBulkLoaderMeta.SetDefault | src/org/pentaho/di/trans/steps/orabulkloader/OraBulkLoaderMeta.java:431-463 | The settings become the defaults (sizes "100000", "0", "0", "50", method AUTO_END, action APPEND, only erase-files set), with no connection and no mappings |
| OraBulkLoader.OraBulkLoaderMeta.ReadData | src/org/pentaho/di/trans/steps/orabulkloader/OraBulkLoaderMeta.java:345-429 | The connection is looked up by its tag, the settings are decoded from the tags, and there is one decoded mapping per `mapping` node, in order |
| OraBulkLoader.OraBulkLoaderMeta.Clone | src/org/pentaho/di/trans/steps/orabulkloader/OraBulkLoaderMeta.java:329-343 | The clone is a new object with fresh arrays whose contents equal the original's, and the same settings and connection |
| OraBulkLoader.CloneIsIndependent | src/org/pentaho/di/trans/steps/orabulkloader/OraBulkLoaderMeta.java:329-343 | Reading new data into a clone and reallocating it leaves the original's settings and mapping arrays unchanged |
| OraBulkLoader.OraBulkLoaderMeta.CommitSizeAsInt | src/org/pentaho/di/trans/steps/orabulkloader/OraBulkLoaderMeta.java:180-186 | The commit size is the parsed substituted setting whenever that parses, and 100000 otherwise |
| OraBulkLoader.OraBulkLoaderMeta.BindSizeAsInt | src/org/pentaho/di/trans/steps/orabulkloader/OraBulkLoaderMeta.java:1025-1031 | The bind size is the parsed substituted setting whenever that parses, and 0 otherwise |
| OraBulkLoader.OraBulkLoaderMeta.MaxErrorsAsInt | src/org/pentaho/di/trans/steps/orabulkloader/OraBulkLoaderMeta.java:1041-1047 | The error limit is the parsed substituted setting whenever that parses, and 50 otherwise |
| OraBulkLoader.OraBulkLoaderMeta.ReadSizeAsInt | src/org/pentaho/di/trans/steps/orabulkloader/OraBulkLoaderMeta.java:1057-1063 | The read size is the parsed substituted setting whenever that parses, and 0 otherwise |
| OraBulkLoader.OraBulkLoaderMeta.Check | src/org/pentaho/di/trans/steps/orabulkloader/OraBulkLoaderMeta.java:612-753 | `check` appends to the given remarks, in order, either the invalid-connection error or the remarks made over the connection, and then the input-step remark |
| OraBulkLoader.OraBulkLoaderMeta.ConnectedCheck | src/org/pentaho/di/trans/steps/orabulkloader/OraBulkLoaderMeta.java:621-729 | With a connection, the remarks depend on whether the connection fails, a table is named, and the table can be read |
| OraBulkLoader.OraBulkLoaderMeta.TableCheck | src/org/pentaho/di/trans/steps/orabulkloader/OraBulkLoaderMeta.java:627-680 | The table part of `check`: the table name is fine, then either the table exists with the field remark, or the table could not be read, or the database error |
| OraBulkLoader.OraBulkLoaderMeta.InputCheck | src/org/pentaho/di/trans/steps/orabulkloader/OraBulkLoaderMeta.java:683-722 | The input part of `check`: rows received with the field remark, or an error when no row arrives |
| OraBulkLoader.OraBulkLoaderMeta.GetSqlStatements | src/org/pentaho/di/trans/steps/orabulkloader/OraBulkLoaderMeta.java:755-823 | No connection or no incoming row gives an error statement. A missing stream field throws, naming the first one missing. Otherwise a missing table name gives an error, and a named table gives the DDL for the renamed fields |
| OraBulkLoader.SqlExceptionMatchesCheck | src/org/pentaho/di/trans/steps/orabulkloader/OraBulkLoaderMeta.java:693-780 | The field that makes `getSQLStatements` throw is the first field that `check` lists as missing from the input |

## Left out

- `Result.getXML` and the constructor `Result(Node)` are not modelled. They depend on `XMLHandler`, `RowMeta` and `ResultFile` encodings, which are not part of this model. The reader also does not mirror the writer: it counts rows under the files node and reads each row from the meta tag. So no round trip holds.
- `Result.toString` is not modelled. Because of Java operator precedence, a stopped result prints " (Stopped)" and omits ", result=…" altogether.
- The exact text and locale of `String.format("%d")` in the throughput string are not modelled. The model writes ASCII decimal digits and states only that the text starts with "Transformation ".
- The result getters are the class's fields read directly.
- Aliasing of rows and files is not modelled. In Java, `getRows`, `setRows` and `getResultFiles` hand out the very list or map the object holds. Here rows and files are values, so a caller that mutates a returned list is not modelled.
- Null rows or a null file map, which make `add` throw `NullPointerException`, are not modelled.
- The thread safety of the `ConcurrentHashMap` holding the result files is not modelled. It is a plain map with one owner.
- `RowMetaAndData.clone` and `ResultFile.clone` are modelled as the identity, because both types are opaque here.
- The `CloneNotSupportedException` branch of `clone`, which returns null, is not modelled.
- KettleResult.Result.Add: requires both results to be valid (every `long` counter within range), because a Java `long` cannot hold anything else.
- KettleResult.Result.IncreaseLinesRead and the other `increase*` and `setNr*` methods require the argument to fit a `long`, which Java guarantees by the parameter type.
- OraBulkLoader.OraBulkLoaderMeta.Allocate: takes a `nat`, so the `NegativeArraySizeException` that `allocate` throws on a negative size is not modelled.
- The `OraBulkLoaderMeta` constructor leaves the mapping arrays null. The model gives it empty arrays instead. In Java, a step configuration that was only constructed makes `clone`, `check`, `getSQLStatements`, `getXML`, `saveRep` and `analyseImpact` throw `NullPointerException` on `fieldTable.length`. On such a configuration the model's `Clone`, `Check` and `GetSqlStatements` go on with zero mappings, so that exception is not modelled.
- The plain getters and setters of `OraBulkLoaderMeta` are not modelled. The settings are fields of the class. `setFieldTable`, `setFieldStream` and `setDateMask` could give the three arrays different lengths, which the invariant excludes.
- `getDelimiter` and `getEnclosure` are the constants `DELIMITER` and `ENCLOSURE`.
- `loadXML` only calls `readData`. The catch-all exception in `readData` is not modelled: in the model, reading tags cannot fail.
- `XMLHandler.getTagValue` is a map lookup. Its treatment of an empty element is not modelled.
- Variable substitution (`environmentSubstitute`) is a parameter applied to non-null text. A null setting stays null, as in Java.
- `Integer.valueOf` accepts only the ASCII digits 0-9 and a leading `-` or `+`. The non-ASCII decimal digits that `Character.digit` also accepts are not modelled.
- Accepting a leading `+` assumes a Java 7 or later runtime. Java 6 rejects it, so `get*AsInt` would fall back to the default there.
- `StringUtils.isEmpty` (from the drools library) and `Const.isEmpty` are assumed to mean null or of length zero. Their code is not part of this model.
- `equalsIgnoreCase` folds case for ASCII letters only, which is enough for comparing with "Y".
- `searchValueMeta` is an exact match of the name against the schema's column names. Kettle's case-insensitive lookup is not modelled.
- The database work in `check` and `getSQLStatements` is a parameter: connecting, reading the table fields, and `getDDL`. So is quoting the schema-qualified table name. The failure of `connect` or `getTableFields` and the DDL answer are given as inputs.
- The database lookup by connection name (`DatabaseMeta.findDatabase`) is a parameter of `ReadData`.
- Message texts from `BaseMessages` are not modelled as localized strings. Each message is a distinct constructor carrying the values it is built from.
- `readRep`, `saveRep`, the step's `getXML`, `getFields`, `analyseImpact`, `getRequiredFields`, `getStep`, `getStepData` and `getUsedDatabaseConnections` are not modelled. They are repository, XML text or database calls that are not part of this model.
- The nine counters of `Result` are held in one record field, `counters`, and the string and flag settings of `OraBulkLoaderMeta` in one record field, `settings`. Each Java field is still a separate component.
- Merging result files is not commutative: the argument's entry wins on a shared path. `ResultFold.MergeFilesCommutative` states exactly when the two orders agree.
