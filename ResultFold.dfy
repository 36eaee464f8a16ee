/**
 * What repeated `Result.add` calls compute. A job or transformation folds
 * the results of its parts into one accumulator, one `add` at a time; the
 * lemmas here give that fold a closed form (wrapped exact sums of the
 * counters, concatenated rows, the union of the file maps with later parts
 * winning, the log fields of the last part) and say which of its parts'
 * orderings matter.
 */
module ResultFold {
  import opened JavaLang
  import opened KettleResult

  // ---------------------------------------------------------------------
  // Counters as exact sums

  /** Counter-by-counter sum without any wrap-around. */
  function ExactSum(a: Counters, b: Counters): Counters
  {
    Counters(
      a.linesInput + b.linesInput,
      a.linesOutput + b.linesOutput,
      a.linesRead + b.linesRead,
      a.linesWritten + b.linesWritten,
      a.linesUpdated + b.linesUpdated,
      a.linesRejected + b.linesRejected,
      a.linesDeleted + b.linesDeleted,
      a.errors + b.errors,
      a.filesRetrieved + b.filesRetrieved)
  }

  /** Every counter brought into the `long` range by two's-complement wrap-around. */
  function WrapCounters(c: Counters): (r: Counters)
    ensures CountersValid(r)
    ensures CountersValid(c) ==> r == c
  {
    Counters(
      WrapLong(c.linesInput),
      WrapLong(c.linesOutput),
      WrapLong(c.linesRead),
      WrapLong(c.linesWritten),
      WrapLong(c.linesUpdated),
      WrapLong(c.linesRejected),
      WrapLong(c.linesDeleted),
      WrapLong(c.errors),
      WrapLong(c.filesRetrieved))
  }

  /** `long` addition of two values equals the exact sum of their values, wrapped once. */
  lemma {:induction false} LongAddAssociative(x: int, y: int, z: int)
    ensures LongAdd(LongAdd(x, y), z) == LongAdd(x, LongAdd(y, z))
  {
    WrapLongAbsorbs(x + y, z);
    WrapLongAbsorbs(y + z, x);
    assert y + z + x == x + (y + z);
  }

  /** Wrapping a partial sum before adding more does not change the wrapped total. */
  lemma WrapCountersAbsorbs(c: Counters, d: Counters)
    ensures WrapCounters(ExactSum(WrapCounters(c), d)) == WrapCounters(ExactSum(c, d))
  {
    var wrappedFirst, wrappedOnce := WrapCounters(ExactSum(WrapCounters(c), d)), WrapCounters(ExactSum(c, d));
    assert wrappedFirst.linesInput == wrappedOnce.linesInput by { WrapLongAbsorbs(c.linesInput, d.linesInput); }
    assert wrappedFirst.linesOutput == wrappedOnce.linesOutput by { WrapLongAbsorbs(c.linesOutput, d.linesOutput); }
    assert wrappedFirst.linesRead == wrappedOnce.linesRead by { WrapLongAbsorbs(c.linesRead, d.linesRead); }
    assert wrappedFirst.linesWritten == wrappedOnce.linesWritten by { WrapLongAbsorbs(c.linesWritten, d.linesWritten); }
    assert wrappedFirst.linesUpdated == wrappedOnce.linesUpdated by { WrapLongAbsorbs(c.linesUpdated, d.linesUpdated); }
    assert wrappedFirst.linesRejected == wrappedOnce.linesRejected by { WrapLongAbsorbs(c.linesRejected, d.linesRejected); }
    assert wrappedFirst.linesDeleted == wrappedOnce.linesDeleted by { WrapLongAbsorbs(c.linesDeleted, d.linesDeleted); }
    assert wrappedFirst.errors == wrappedOnce.errors by { WrapLongAbsorbs(c.errors, d.errors); }
    assert wrappedFirst.filesRetrieved == wrappedOnce.filesRetrieved by { WrapLongAbsorbs(c.filesRetrieved, d.filesRetrieved); }
  }

  /** `add` on the counters is associative, overflow included. */
  lemma AddCountersAssociative(a: Counters, b: Counters, c: Counters)
    ensures AddCounters(AddCounters(a, b), c) == AddCounters(a, AddCounters(b, c))
  {
    LongAddAssociative(a.linesInput, b.linesInput, c.linesInput);
    LongAddAssociative(a.linesOutput, b.linesOutput, c.linesOutput);
    LongAddAssociative(a.linesRead, b.linesRead, c.linesRead);
    LongAddAssociative(a.linesWritten, b.linesWritten, c.linesWritten);
    LongAddAssociative(a.linesUpdated, b.linesUpdated, c.linesUpdated);
    LongAddAssociative(a.linesRejected, b.linesRejected, c.linesRejected);
    LongAddAssociative(a.linesDeleted, b.linesDeleted, c.linesDeleted);
    LongAddAssociative(a.errors, b.errors, c.errors);
    LongAddAssociative(a.filesRetrieved, b.filesRetrieved, c.filesRetrieved);
  }

  /** `add` on the counters does not depend on which result is the receiver. */
  lemma AddCountersCommutative(a: Counters, b: Counters)
    ensures AddCounters(a, b) == AddCounters(b, a)
  {
    assert a.linesInput + b.linesInput == b.linesInput + a.linesInput;
  }

  /**
   * `LongAddAssociative` read for the `increase*` methods: two calls on one
   * counter are one call with the wrapped sum of the increments.
   */
  lemma IncreaseTwice(value: int, first: int, second: int)
    ensures LongAdd(LongAdd(value, first), second) == LongAdd(value, LongAdd(first, second))
  {
    LongAddAssociative(value, first, second);
  }

  // ---------------------------------------------------------------------
  // One add

  /** Map union (the right operand winning) is associative. */
  lemma UnionAssociative<K, V>(a: map<K, V>, b: map<K, V>, c: map<K, V>)
    ensures (a + b) + c == a + (b + c)
  {
  }

  /** `a.add(b)` followed by `.add(c)` is `a.add(b')` where `b'` is `b` after `b.add(c)`. */
  lemma MergeAssociative(a: ResultState, b: ResultState, c: ResultState)
    ensures Merge(Merge(a, b), c) == Merge(a, Merge(b, c))
  {
    AddCountersAssociative(a.counters, b.counters, c.counters);
    assert (a.rows + b.rows) + c.rows == a.rows + (b.rows + c.rows);
    UnionAssociative(a.files, b.files, c.files);
  }

  /**
   * `putAll` gives the same file map whichever result receives the other
   * exactly when the two maps agree on every path they share.
   */
  lemma MergeFilesCommutative(a: ResultState, b: ResultState)
    ensures Merge(a, b).files == Merge(b, a).files
        <==> forall p :: p in a.files && p in b.files ==> a.files[p] == b.files[p]
  {
    if Merge(a, b).files == Merge(b, a).files {
      forall p | p in a.files && p in b.files ensures a.files[p] == b.files[p] {
        assert Merge(a, b).files[p] == b.files[p];
        assert Merge(b, a).files[p] == a.files[p];
      }
    } else {
      var p :| p in a.files && p in b.files && a.files[p] != b.files[p] by {
        var m1, m2 := Merge(a, b).files, Merge(b, a).files;
        assert m1.Keys == m2.Keys;
        var q :| q in m1 && m1[q] != m2[q];
      }
    }
  }

  /** Adding a result never loses a file: both key sets survive. */
  lemma MergeKeepsFiles(a: ResultState, b: ResultState)
    ensures Merge(a, b).files.Keys == a.files.Keys + b.files.Keys
    ensures forall p :: p in b.files ==> Merge(a, b).files[p] == b.files[p]
    ensures forall p :: p in a.files && p !in b.files ==> Merge(a, b).files[p] == a.files[p]
  {
  }

  /** Adding keeps every field within its Java type. */
  lemma MergeValid(a: ResultState, b: ResultState)
    requires StateValid(a)
    ensures StateValid(Merge(a, b))
  {
    AddCountersValid(a.counters, b.counters);
  }

  /** Adding two maps whose files sit under their own paths gives such a map. */
  lemma MergeWellKeyed(a: ResultState, b: ResultState)
    requires WellKeyed(a.files) && WellKeyed(b.files)
    ensures WellKeyed(Merge(a, b).files)
  {
  }

  /**
   * Adding a fresh result changes nothing except the two log fields, which
   * `add` overwrites with the fresh result's nulls.
   */
  lemma MergeFresh(a: ResultState, nr: int)
    requires StateValid(a)
    ensures Merge(a, Fresh(nr)) == a.(logChannelId := None, logText := None)
  {
    assert a.rows + [] == a.rows;
    assert a.files + map[] == a.files;
  }

  /**
   * Adding into a fresh result copies the counters, rows, files and logs of
   * the added result; the flags, exit status and entry number stay fresh.
   */
  lemma FreshMerge(b: ResultState, nr: int)
    requires StateValid(b)
    ensures Merge(Fresh(nr), b)
         == b.(result := false, exitStatus := 0, stopped := false, entryNr := nr)
  {
    assert [] + b.rows == b.rows;
    assert map[] + b.files == b.files;
    AddCountersCommutative(ZeroCounters, b.counters);
  }

  /** `clear()` twice is `clear()` once. */
  lemma ClearedIdempotent(a: ResultState)
    ensures Cleared(Cleared(a)) == Cleared(a)
  {
  }

  /** `clear()` on a fresh result changes nothing. */
  lemma ClearedFresh(nr: int)
    ensures Cleared(Fresh(nr)) == Fresh(nr)
  {
  }

  // ---------------------------------------------------------------------
  // Many adds

  /** The accumulator after `acc.add(parts[0]); acc.add(parts[1]); …` in order. */
  function Fold(acc: ResultState, parts: seq<ResultState>): ResultState
    decreases |parts|
  {
    if parts == [] then acc else Fold(Merge(acc, parts[0]), parts[1..])
  }

  /** The exact sum of the parts' counters. */
  function Total(parts: seq<ResultState>): Counters
    decreases |parts|
  {
    if parts == [] then ZeroCounters else ExactSum(parts[0].counters, Total(parts[1..]))
  }

  /** All rows of the parts, in order. */
  function AllRows(parts: seq<ResultState>): seq<RowMetaAndData>
    decreases |parts|
  {
    if parts == [] then [] else parts[0].rows + AllRows(parts[1..])
  }

  /** All file maps of the parts, a later part's file replacing an earlier one under the same path. */
  function AllFiles(parts: seq<ResultState>): map<string, ResultFile>
    decreases |parts|
  {
    if parts == [] then map[] else parts[0].files + AllFiles(parts[1..])
  }

  /** The state repeated adds leave, stated without repeating them. */
  function FoldOutcome(acc: ResultState, parts: seq<ResultState>): ResultState
  {
    acc.(counters := WrapCounters(ExactSum(acc.counters, Total(parts))),
         rows := acc.rows + AllRows(parts),
         files := acc.files + AllFiles(parts),
         logChannelId := if parts == [] then acc.logChannelId else parts[|parts| - 1].logChannelId,
         logText := if parts == [] then acc.logText else parts[|parts| - 1].logText)
  }

  /** `add` on the counters is the exact sum, wrapped. */
  lemma AddCountersIsWrappedSum(a: Counters, b: Counters)
    ensures AddCounters(a, b) == WrapCounters(ExactSum(a, b))
  {
  }

  /** Exact sums of counters are associative. */
  lemma ExactSumAssociative(a: Counters, b: Counters, c: Counters)
    ensures ExactSum(ExactSum(a, b), c) == ExactSum(a, ExactSum(b, c))
  {
  }

  /** The counters after repeated adds are the exact totals, wrapped once into a `long`. */
  lemma {:induction false} FoldCounters(acc: ResultState, parts: seq<ResultState>)
    requires CountersValid(acc.counters)
    ensures Fold(acc, parts).counters == WrapCounters(ExactSum(acc.counters, Total(parts)))
    decreases |parts|
  {
    if parts == [] {
      assert ExactSum(acc.counters, ZeroCounters) == acc.counters;
    } else {
      var a, h, t := acc.counters, parts[0].counters, Total(parts[1..]);
      AddCountersValid(a, h);
      FoldCounters(Merge(acc, parts[0]), parts[1..]);
      calc {
        Fold(acc, parts).counters;
        Fold(Merge(acc, parts[0]), parts[1..]).counters;
        WrapCounters(ExactSum(AddCounters(a, h), t));
        { AddCountersIsWrappedSum(a, h); }
        WrapCounters(ExactSum(WrapCounters(ExactSum(a, h)), t));
        { WrapCountersAbsorbs(ExactSum(a, h), t); }
        WrapCounters(ExactSum(ExactSum(a, h), t));
        { ExactSumAssociative(a, h, t); }
        WrapCounters(ExactSum(a, Total(parts)));
      }
    }
  }

  /** Repeated adds append the parts' rows in order. */
  lemma {:induction false} FoldRows(acc: ResultState, parts: seq<ResultState>)
    ensures Fold(acc, parts).rows == acc.rows + AllRows(parts)
    decreases |parts|
  {
    if parts == [] {
      assert acc.rows + [] == acc.rows;
    } else {
      FoldRows(Merge(acc, parts[0]), parts[1..]);
      assert (acc.rows + parts[0].rows) + AllRows(parts[1..]) == acc.rows + AllRows(parts);
    }
  }

  /** Repeated adds unite the file maps, a later part's file winning under a shared path. */
  lemma {:induction false} FoldFiles(acc: ResultState, parts: seq<ResultState>)
    ensures Fold(acc, parts).files == acc.files + AllFiles(parts)
    decreases |parts|
  {
    if parts == [] {
      assert acc.files + map[] == acc.files;
    } else {
      FoldFiles(Merge(acc, parts[0]), parts[1..]);
      UnionAssociative(acc.files, parts[0].files, AllFiles(parts[1..]));
    }
  }

  /**
   * After repeated adds the log fields are the last part's and the flags,
   * exit status and entry number are still the accumulator's.
   */
  lemma {:induction false} FoldScalars(acc: ResultState, parts: seq<ResultState>)
    ensures var r := Fold(acc, parts);
      && r.result == acc.result && r.exitStatus == acc.exitStatus
      && r.stopped == acc.stopped && r.entryNr == acc.entryNr
      && r.logChannelId == (if parts == [] then acc.logChannelId else parts[|parts| - 1].logChannelId)
      && r.logText == (if parts == [] then acc.logText else parts[|parts| - 1].logText)
    decreases |parts|
  {
    if parts != [] {
      var rest := parts[1..];
      FoldScalars(Merge(acc, parts[0]), rest);
      if rest != [] {
        assert rest[|rest| - 1] == parts[|parts| - 1];
      }
    }
  }

  /**
   * Adding the parts one by one gives the closed form: every counter is the
   * exact total wrapped once into a `long`, the rows are concatenated in
   * order, the file maps are united with later parts winning, the log fields
   * come from the last part, and the other fields are the accumulator's.
   */
  lemma FoldClosedForm(acc: ResultState, parts: seq<ResultState>)
    requires StateValid(acc)
    ensures Fold(acc, parts) == FoldOutcome(acc, parts)
  {
    FoldCounters(acc, parts);
    FoldRows(acc, parts);
    FoldFiles(acc, parts);
    FoldScalars(acc, parts);
  }

  /** Exact sums may take their two addends in either order. */
  lemma ExactSumSwap(a: Counters, b: Counters, c: Counters)
    ensures ExactSum(a, ExactSum(b, c)) == ExactSum(b, ExactSum(a, c))
  {
  }

  /** The total of two runs of parts is the sum of their totals. */
  lemma {:induction false} TotalAppend(first: seq<ResultState>, second: seq<ResultState>)
    ensures Total(first + second) == ExactSum(Total(first), Total(second))
    decreases |first|
  {
    if first == [] {
      assert first + second == second;
      assert ExactSum(ZeroCounters, Total(second)) == Total(second);
    } else {
      var joined := first + second;
      assert joined[0] == first[0] && joined[1..] == first[1..] + second;
      TotalAppend(first[1..], second);
      ExactSumAssociative(first[0].counters, Total(first[1..]), Total(second));
    }
  }

  /** Taking out the part at index `i` leaves the total short by exactly that part's counters. */
  lemma TotalRemove(parts: seq<ResultState>, i: nat)
    requires i < |parts|
    ensures Total(parts) == ExactSum(parts[i].counters, Total(parts[..i] + parts[i + 1..]))
  {
    var before, after := parts[..i], parts[i + 1..];
    assert parts == before + ([parts[i]] + after);
    TotalAppend(before, [parts[i]] + after);
    assert ([parts[i]] + after)[1..] == after;
    TotalAppend(before, after);
    ExactSumSwap(Total(before), parts[i].counters, Total(after));
  }

  /** The exact total of the counters depends only on which parts there are, not on their order. */
  lemma {:induction false} TotalOrderIndependent(parts: seq<ResultState>, reordered: seq<ResultState>)
    requires multiset(parts) == multiset(reordered)
    ensures Total(parts) == Total(reordered)
    decreases |parts|
  {
    if parts != [] {
      var head := parts[0];
      assert head in multiset(reordered);
      var i :| 0 <= i < |reordered| && reordered[i] == head;
      var others := reordered[..i] + reordered[i + 1..];
      assert reordered == reordered[..i] + [head] + reordered[i + 1..];
      assert parts == [head] + parts[1..];
      assert multiset(reordered)
          == multiset(reordered[..i]) + multiset([head]) + multiset(reordered[i + 1..]);
      assert multiset(others) == multiset(reordered[..i]) + multiset(reordered[i + 1..]);
      assert multiset(parts) == multiset([head]) + multiset(parts[1..]);
      assert multiset(parts[1..]) == multiset(parts) - multiset([head]);
      assert multiset(others) == multiset(reordered) - multiset([head]);
      TotalOrderIndependent(parts[1..], others);
      TotalRemove(reordered, i);
    } else {
      assert |reordered| == |multiset(reordered)|;
    }
  }

  /**
   * Adding the same results in any order leaves the same counters; only the
   * rows, the files under shared paths and the log fields can differ.
   */
  lemma FoldCountersOrderIndependent(acc: ResultState, parts: seq<ResultState>, reordered: seq<ResultState>)
    requires CountersValid(acc.counters)
    requires multiset(parts) == multiset(reordered)
    ensures Fold(acc, parts).counters == Fold(acc, reordered).counters
  {
    FoldCounters(acc, parts);
    FoldCounters(acc, reordered);
    TotalOrderIndependent(parts, reordered);
  }

  /** The paths of the parts' files united are the paths of every part. */
  lemma {:induction false} AllFilesKeys(parts: seq<ResultState>)
    ensures AllFiles(parts).Keys == set i, p | 0 <= i < |parts| && p in parts[i].files :: p
    decreases |parts|
  {
    var union := set i, p | 0 <= i < |parts| && p in parts[i].files :: p;
    if parts == [] {
      assert union == {};
    } else {
      var rest := parts[1..];
      AllFilesKeys(rest);
      var restUnion := set i, p | 0 <= i < |rest| && p in rest[i].files :: p;
      forall p | p in union ensures p in parts[0].files.Keys + restUnion {
        var i :| 0 <= i < |parts| && p in parts[i].files;
        if i > 0 { assert p in rest[i - 1].files; }
      }
      forall p | p in restUnion ensures p in union {
        var i :| 0 <= i < |rest| && p in rest[i].files;
        assert p in parts[i + 1].files;
      }
      assert union == parts[0].files.Keys + restUnion;
    }
  }

  /** Adding results never forgets a file path: the keys are those of the accumulator and of every part. */
  lemma FoldFileKeys(acc: ResultState, parts: seq<ResultState>)
    ensures Fold(acc, parts).files.Keys
         == acc.files.Keys + set i, p | 0 <= i < |parts| && p in parts[i].files :: p
  {
    FoldFiles(acc, parts);
    AllFilesKeys(parts);
  }
}
