/**
 * The outcome accumulator of one execution unit (a transformation, a job or
 * a job entry): nine `long` line and error counters, the success flag, the
 * exit status, the stopped flag, the entry number, the result rows, the
 * result files keyed by their path, and two log strings.
 *
 * `ResultState` is the value of every field at one moment; the class
 * `Result` is the object the source mutates in place, and each of its
 * methods states its new `State()` as a function of the old one.
 */
module KettleResult {
  import opened JavaLang

  /** One result row (a row's schema with its values); its contents are not modelled. */
  type RowMetaAndData

  /** What a result file records besides its path (type, origin, timestamp, comment). */
  type FileDetails

  /** One file produced or consumed by a step; `path` is `getFile().toString()`. */
  datatype ResultFile = ResultFile(path: string, details: FileDetails)

  /** The nine counters of a result, as exact integers. */
  datatype Counters = Counters(
    linesInput: int,
    linesOutput: int,
    linesRead: int,
    linesWritten: int,
    linesUpdated: int,
    linesRejected: int,
    linesDeleted: int,
    errors: int,
    filesRetrieved: int)

  const ZeroCounters := Counters(0, 0, 0, 0, 0, 0, 0, 0, 0)

  /** Every counter fits a Java `long`. */
  predicate CountersValid(c: Counters)
  {
    && IsLong(c.linesInput) && IsLong(c.linesOutput) && IsLong(c.linesRead)
    && IsLong(c.linesWritten) && IsLong(c.linesUpdated) && IsLong(c.linesRejected)
    && IsLong(c.linesDeleted) && IsLong(c.errors) && IsLong(c.filesRetrieved)
  }

  /** Counter-by-counter `long` addition, as `add` performs it. */
  function AddCounters(a: Counters, b: Counters): Counters
  {
    Counters(
      LongAdd(a.linesInput, b.linesInput),
      LongAdd(a.linesOutput, b.linesOutput),
      LongAdd(a.linesRead, b.linesRead),
      LongAdd(a.linesWritten, b.linesWritten),
      LongAdd(a.linesUpdated, b.linesUpdated),
      LongAdd(a.linesRejected, b.linesRejected),
      LongAdd(a.linesDeleted, b.linesDeleted),
      LongAdd(a.errors, b.errors),
      LongAdd(a.filesRetrieved, b.filesRetrieved))
  }

  /** `long` addition keeps every counter within a `long`. */
  lemma AddCountersValid(a: Counters, b: Counters)
    ensures CountersValid(AddCounters(a, b))
  {
  }

  /** Every field of a `Result` at one moment. */
  datatype ResultState = ResultState(
    counters: Counters,
    result: bool,
    exitStatus: int,
    stopped: bool,
    entryNr: int,
    rows: seq<RowMetaAndData>,
    files: map<string, ResultFile>,
    logChannelId: Option<string>,
    logText: Option<string>)

  /** The fields hold values their Java types can hold. */
  predicate StateValid(s: ResultState)
  {
    CountersValid(s.counters) && IsInt(s.exitStatus) && IsLong(s.entryNr)
  }

  /** The state of `new Result(nr)`; `new Result()` is `Fresh(0)`. */
  function Fresh(nr: int): ResultState
  {
    ResultState(ZeroCounters, false, 0, false, nr, [], map[], None, None)
  }

  /** The state `a.add(b)` leaves in `a`. */
  function Merge(a: ResultState, b: ResultState): ResultState
  {
    a.(counters := AddCounters(a.counters, b.counters),
       files := a.files + b.files,
       logChannelId := b.logChannelId,
       logText := b.logText,
       rows := a.rows + b.rows)
  }

  /** The state `clear()` leaves. */
  function Cleared(a: ResultState): ResultState
  {
    a.(counters := ZeroCounters, logText := None)
  }

  /** Every file is stored under its own path, as `clone()` re-keys them. */
  ghost predicate WellKeyed(files: map<string, ResultFile>)
  {
    forall p :: p in files ==> files[p].path == p
  }

  /**
   * `copy` holds the files of `original` re-keyed by their paths: every
   * original file's path is a key, and every entry is an original file
   * stored under its own path.
   */
  ghost predicate IsReKeying(original: map<string, ResultFile>, copy: map<string, ResultFile>)
  {
    && (forall p :: p in original ==> original[p].path in copy)
    && (forall k :: k in copy ==> copy[k].path == k && copy[k] in original.Values)
  }

  /** Re-keying a map whose files already sit under their paths gives the same map. */
  lemma ReKeyingWellKeyed(original: map<string, ResultFile>, copy: map<string, ResultFile>)
    requires WellKeyed(original) && IsReKeying(original, copy)
    ensures copy == original
  {
    forall k | k in copy ensures k in original && original[k] == copy[k] {
      var p :| p in original && original[p] == copy[k];
    }
    forall p | p in original ensures p in copy {
      assert original[p].path == p;
    }
  }

  /** The row copy `clone()` makes: each row cloned, in order. */
  method CopyRows(rows: seq<RowMetaAndData>) returns (copy: seq<RowMetaAndData>)
    ensures copy == rows
  {
    copy := [];
    var i := 0;
    while i < |rows|
      invariant 0 <= i <= |rows|
      invariant copy == rows[..i]
    {
      copy := copy + [rows[i]];
      i := i + 1;
    }
  }

  /** The file map `clone()` makes: every file put under its own path. */
  method ReKeyFiles(files: map<string, ResultFile>) returns (copy: map<string, ResultFile>)
    ensures IsReKeying(files, copy)
    ensures WellKeyed(copy)
    ensures WellKeyed(files) ==> copy == files
  {
    copy := map[];
    var remaining := files.Keys;
    while remaining != {}
      invariant remaining <= files.Keys
      invariant forall p :: p in files && p !in remaining ==> files[p].path in copy
      invariant forall k :: k in copy ==> copy[k].path == k && copy[k] in files.Values
      decreases remaining
    {
      var p :| p in remaining;
      var file := files[p];
      copy := copy[file.path := file];
      remaining := remaining - {p};
    }
    if WellKeyed(files) {
      ReKeyingWellKeyed(files, copy);
    }
  }

  /** `getReadWriteThroughput(seconds)` for the given line counts. */
  function Throughput(read: int, written: int, seconds: int): (r: Option<string>)
    ensures r.None? <==> seconds == 0 || (read <= 0 && written <= 0)
    ensures r.Some? ==> "Transformation " <= r.value
  {
    if seconds == 0 || (read <= 0 && written <= 0) then None
    else
      var readClause :=
        if read > 0 then "lines read: " + DecimalString(read) + " ( " + DecimalString(JavaDiv(read, seconds)) + " lines/s)"
        else "";
      var writtenClause :=
        if written > 0 then
          (if read > 0 then "; " else "") + "lines written: " + DecimalString(written)
          + " ( " + DecimalString(JavaDiv(written, seconds)) + " lines/s)"
        else "";
      Some("Transformation " + readClause + writtenClause)
  }

  /**
   * `Result`. The nine `long` counters (`nrLinesInput` … `nrFilesRetrieved`)
   * are held together in the record `counters`; every other field is its own.
   */
  class Result {
    var counters: Counters
    var result: bool
    var entryNr: int
    var exitStatus: int
    var rows: seq<RowMetaAndData>
    var resultFiles: map<string, ResultFile>
    var stopped: bool
    var logChannelId: Option<string>
    var logText: Option<string>

    function State(): ResultState
      reads this
    {
      ResultState(counters, result, exitStatus, stopped, entryNr, rows, resultFiles,
                  logChannelId, logText)
    }

    ghost predicate Valid()
      reads this
    {
      StateValid(State())
    }

    /** `new Result()`. */
    constructor ()
      ensures Valid() && State() == Fresh(0)
    {
      counters := ZeroCounters;
      result := false;
      exitStatus := 0;
      rows := [];
      resultFiles := map[];
      stopped := false;
      entryNr := 0;
      logChannelId, logText := None, None;
    }

    /** `new Result(nr)`. */
    constructor WithEntryNr(nr: int)
      requires IsInt(nr)
      ensures Valid() && State() == Fresh(nr)
    {
      counters := ZeroCounters;
      result := false;
      exitStatus := 0;
      rows := [];
      resultFiles := map[];
      stopped := false;
      entryNr := nr;
      logChannelId, logText := None, None;
    }

    /** The field-by-field copy that `Object.clone()` makes. */
    constructor FieldCopy(s: ResultState)
      ensures State() == s
    {
      counters := s.counters;
      result := s.result;
      exitStatus := s.exitStatus;
      rows := s.rows;
      resultFiles := s.files;
      stopped := s.stopped;
      entryNr := s.entryNr;
      logChannelId, logText := s.logChannelId, s.logText;
    }

    /** `clone()`: a fresh object with the same fields, its files re-keyed by their paths. */
    method Clone() returns (c: Result)
      requires Valid()
      ensures fresh(c) && c.Valid()
      ensures c.State().(files := resultFiles) == State()
      ensures IsReKeying(resultFiles, c.resultFiles)
      ensures WellKeyed(resultFiles) ==> c.resultFiles == resultFiles
    {
      var clonedRows := CopyRows(rows);
      var clonedFiles := ReKeyFiles(resultFiles);
      c := new Result.FieldCopy(State().(rows := clonedRows, files := clonedFiles));
    }

    /** `getReadWriteThroughput(seconds)`: null when nothing was read or written, or no time passed. */
    function ReadWriteThroughput(seconds: int): (r: Option<string>)
      reads this
      ensures r.None? <==> seconds == 0 || (counters.linesRead <= 0 && counters.linesWritten <= 0)
      ensures r.Some? ==> "Transformation " <= r.value
    {
      Throughput(counters.linesRead, counters.linesWritten, seconds)
    }

    /** `clear()`: zero the nine counters and drop the log text. */
    method Clear()
      modifies this
      ensures State() == Cleared(old(State()))
    {
      counters := ZeroCounters;
      logText := None;
    }

    /** `add(res)`: fold `res` into this result. `res` may be this very object. */
    method Add(res: Result)
      requires Valid() && res.Valid()
      modifies this
      ensures State() == Merge(old(State()), old(res.State()))
      ensures Valid()
    {
      counters := AddCounters(counters, res.counters);
      resultFiles := resultFiles + res.resultFiles;
      logChannelId := res.logChannelId;
      logText := res.logText;
      rows := rows + res.rows;
      AddCountersValid(old(counters), old(res.counters));
    }

    /**
     * `getResultFilesList()`: the stored files, one entry per key, in no
     * particular order; `keys` is the order the map hands its values out in.
     */
    method ResultFilesList() returns (files: seq<ResultFile>, ghost keys: seq<string>)
      ensures |keys| == |files| == |resultFiles|
      ensures forall i, j :: 0 <= i < j < |keys| ==> keys[i] != keys[j]
      ensures forall k :: k in keys <==> k in resultFiles
      ensures forall i :: 0 <= i < |files| ==> keys[i] in resultFiles && files[i] == resultFiles[keys[i]]
    {
      files, keys := [], [];
      var remaining := resultFiles.Keys;
      while remaining != {}
        invariant remaining <= resultFiles.Keys
        invariant |keys| == |files| && |files| + |remaining| == |resultFiles.Keys|
        invariant forall i, j :: 0 <= i < j < |keys| ==> keys[i] != keys[j]
        invariant forall k :: k in keys <==> k in resultFiles && k !in remaining
        invariant forall i :: 0 <= i < |files| ==> keys[i] in resultFiles && files[i] == resultFiles[keys[i]]
        decreases remaining
      {
        var p :| p in remaining;
        files, keys := files + [resultFiles[p]], keys + [p];
        remaining := remaining - {p};
      }
    }

    // The increase* methods: each adds to exactly one counter.

    method IncreaseLinesRead(incr: int)
      requires Valid() && IsLong(incr)
      modifies this
      ensures State() == old(State()).(counters := old(counters).(linesRead := LongAdd(old(counters.linesRead), incr)))
      ensures Valid()
    {
      counters := counters.(linesRead := LongAdd(counters.linesRead, incr));
    }

    method IncreaseLinesWritten(incr: int)
      requires Valid() && IsLong(incr)
      modifies this
      ensures State() == old(State()).(counters := old(counters).(linesWritten := LongAdd(old(counters.linesWritten), incr)))
      ensures Valid()
    {
      counters := counters.(linesWritten := LongAdd(counters.linesWritten, incr));
    }

    method IncreaseLinesInput(incr: int)
      requires Valid() && IsLong(incr)
      modifies this
      ensures State() == old(State()).(counters := old(counters).(linesInput := LongAdd(old(counters.linesInput), incr)))
      ensures Valid()
    {
      counters := counters.(linesInput := LongAdd(counters.linesInput, incr));
    }

    method IncreaseLinesOutput(incr: int)
      requires Valid() && IsLong(incr)
      modifies this
      ensures State() == old(State()).(counters := old(counters).(linesOutput := LongAdd(old(counters.linesOutput), incr)))
      ensures Valid()
    {
      counters := counters.(linesOutput := LongAdd(counters.linesOutput, incr));
    }

    method IncreaseLinesUpdated(incr: int)
      requires Valid() && IsLong(incr)
      modifies this
      ensures State() == old(State()).(counters := old(counters).(linesUpdated := LongAdd(old(counters.linesUpdated), incr)))
      ensures Valid()
    {
      counters := counters.(linesUpdated := LongAdd(counters.linesUpdated, incr));
    }

    method IncreaseLinesDeleted(incr: int)
      requires Valid() && IsLong(incr)
      modifies this
      ensures State() == old(State()).(counters := old(counters).(linesDeleted := LongAdd(old(counters.linesDeleted), incr)))
      ensures Valid()
    {
      counters := counters.(linesDeleted := LongAdd(counters.linesDeleted, incr));
    }

    method IncreaseLinesRejected(incr: int)
      requires Valid() && IsLong(incr)
      modifies this
      ensures State() == old(State()).(counters := old(counters).(linesRejected := LongAdd(old(counters.linesRejected), incr)))
      ensures Valid()
    {
      counters := counters.(linesRejected := LongAdd(counters.linesRejected, incr));
    }

    method IncreaseErrors(incr: int)
      requires Valid() && IsLong(incr)
      modifies this
      ensures State() == old(State()).(counters := old(counters).(errors := LongAdd(old(counters.errors), incr)))
      ensures Valid()
    {
      counters := counters.(errors := LongAdd(counters.errors, incr));
    }

    // The setters: each replaces exactly one field.

    method SetNrFilesRetrieved(value: int)
      requires IsLong(value)
      modifies this
      ensures State() == old(State()).(counters := old(counters).(filesRetrieved := value))
    {
      counters := counters.(filesRetrieved := value);
    }

    method SetNrErrors(value: int)
      requires IsLong(value)
      modifies this
      ensures State() == old(State()).(counters := old(counters).(errors := value))
    {
      counters := counters.(errors := value);
    }

    method SetNrLinesInput(value: int)
      requires IsLong(value)
      modifies this
      ensures State() == old(State()).(counters := old(counters).(linesInput := value))
    {
      counters := counters.(linesInput := value);
    }

    method SetNrLinesOutput(value: int)
      requires IsLong(value)
      modifies this
      ensures State() == old(State()).(counters := old(counters).(linesOutput := value))
    {
      counters := counters.(linesOutput := value);
    }

    method SetNrLinesRead(value: int)
      requires IsLong(value)
      modifies this
      ensures State() == old(State()).(counters := old(counters).(linesRead := value))
    {
      counters := counters.(linesRead := value);
    }

    method SetNrLinesUpdated(value: int)
      requires IsLong(value)
      modifies this
      ensures State() == old(State()).(counters := old(counters).(linesUpdated := value))
    {
      counters := counters.(linesUpdated := value);
    }

    method SetNrLinesWritten(value: int)
      requires IsLong(value)
      modifies this
      ensures State() == old(State()).(counters := old(counters).(linesWritten := value))
    {
      counters := counters.(linesWritten := value);
    }

    method SetNrLinesDeleted(value: int)
      requires IsLong(value)
      modifies this
      ensures State() == old(State()).(counters := old(counters).(linesDeleted := value))
    {
      counters := counters.(linesDeleted := value);
    }

    method SetNrLinesRejected(value: int)
      requires IsLong(value)
      modifies this
      ensures State() == old(State()).(counters := old(counters).(linesRejected := value))
    {
      counters := counters.(linesRejected := value);
    }

    method SetEntryNr(nr: int)
      requires IsLong(nr)
      modifies this
      ensures State() == old(State()).(entryNr := nr)
    {
      entryNr := nr;
    }

    method SetExitStatus(status: int)
      requires IsInt(status)
      modifies this
      ensures State() == old(State()).(exitStatus := status)
    {
      exitStatus := status;
    }

    method SetResult(success: bool)
      modifies this
      ensures State() == old(State()).(result := success)
    {
      result := success;
    }

    method SetStopped(isStopped: bool)
      modifies this
      ensures State() == old(State()).(stopped := isStopped)
    {
      stopped := isStopped;
    }

    method SetRows(newRows: seq<RowMetaAndData>)
      modifies this
      ensures State() == old(State()).(rows := newRows)
    {
      rows := newRows;
    }

    method SetResultFiles(usedFiles: map<string, ResultFile>)
      modifies this
      ensures State() == old(State()).(files := usedFiles)
    {
      resultFiles := usedFiles;
    }

    method SetLogChannelId(id: Option<string>)
      modifies this
      ensures State() == old(State()).(logChannelId := id)
    {
      logChannelId := id;
    }

    method SetLogText(text: Option<string>)
      modifies this
      ensures State() == old(State()).(logText := text)
    {
      logText := text;
    }
  }

  /** A clone is a separate object: changing it leaves the original as it was. */
  method CloneIsIndependent(original: Result, rows: seq<RowMetaAndData>)
    requires original.Valid()
    ensures original.State() == old(original.State())
  {
    var copy := original.Clone();
    copy.IncreaseErrors(1);
    copy.SetRows(rows);
    copy.Clear();
  }
}
