/** The byte-range check and the uploads of _validate_and_upload_operations in
    scripts/app_store_connect_release.py. */
module UploadRanges {
  import opened Wrappers
  import opened Sums
  import opened Sequences

  /** An upload operation's range as the server names it. */
  datatype Operation = Operation(offset: int, length: int)

  datatype Range = Range(start: int, end: int)

  type Byte = x: int | 0 <= x < 256

  predicate ValidOperation(operation: Operation) {
    operation.offset >= 0 && operation.length > 0
  }

  function RangeOf(operation: Operation): Range {
    Range(operation.offset, operation.offset + operation.length)
  }

  function Ranges(operations: seq<Operation>): seq<Range> {
    if operations == [] then [] else [RangeOf(operations[0])] + Ranges(operations[1..])
  }

  // ---- Sorting ----

  /** The order of pairs: by start, then by end. */
  predicate AtMost(a: Range, b: Range) {
    a.start < b.start || (a.start == b.start && a.end <= b.end)
  }

  function Insert(x: Range, sorted: seq<Range>): seq<Range> {
    if sorted == [] || AtMost(x, sorted[0]) then [x] + sorted else [sorted[0]] + Insert(x, sorted[1..])
  }

  function Sorted(ranges: seq<Range>): seq<Range> {
    if ranges == [] then [] else Insert(ranges[0], Sorted(ranges[1..]))
  }

  /** Starts never go down, none lies below `low`, and no range is empty. */
  predicate Rising(ranges: seq<Range>, low: int) {
    ranges != [] ==> low <= ranges[0].start < ranges[0].end && Rising(ranges[1..], ranges[0].start)
  }

  // ---- Coverage ----

  /** 1 for the ranges that contain byte i. */
  function Contains(i: int): Range -> nat {
    (range: Range) => if range.start <= i < range.end then 1 else 0
  }

  /** How many ranges contain byte i. */
  function Coverage(ranges: seq<Range>, i: int): nat {
    Sum(ranges, Contains(i))
  }

  /** Every byte of the file is in exactly one range, and no range leaves the file. */
  ghost predicate Partition(ranges: seq<Range>, size: nat) {
    forall i: int :: Coverage(ranges, i) == if 0 <= i < size then 1 else 0
  }

  lemma {:induction false} InsertSum(x: Range, sorted: seq<Range>, weight: Range -> nat)
    ensures Sum(Insert(x, sorted), weight) == weight(x) + Sum(sorted, weight)
    decreases |sorted|
  {
    if sorted == [] || AtMost(x, sorted[0]) {
      TailOfCons(x, sorted);
    } else {
      InsertSum(x, sorted[1..], weight);
      TailOfCons(sorted[0], Insert(x, sorted[1..]));
    }
  }

  /** Sorting keeps every sum, so it keeps the coverage of every byte. */
  lemma {:induction false} SortedSum(ranges: seq<Range>, weight: Range -> nat)
    ensures Sum(Sorted(ranges), weight) == Sum(ranges, weight)
    decreases |ranges|
  {
    if ranges != [] {
      SortedSum(ranges[1..], weight);
      InsertSum(ranges[0], Sorted(ranges[1..]), weight);
    }
  }

  lemma {:induction false} InsertRises(x: Range, sorted: seq<Range>, low: int)
    requires Rising(sorted, low) && low <= x.start < x.end
    ensures Rising(Insert(x, sorted), low)
    decreases |sorted|
  {
    if sorted == [] || AtMost(x, sorted[0]) {
      TailOfCons(x, sorted);
    } else {
      InsertRises(x, sorted[1..], sorted[0].start);
      TailOfCons(sorted[0], Insert(x, sorted[1..]));
    }
  }

  lemma {:induction false} SortedRises(operations: seq<Operation>)
    requires forall operation <- operations :: ValidOperation(operation)
    ensures Rising(Sorted(Ranges(operations)), 0)
    decreases |operations|
  {
    if operations != [] {
      assert operations[0] in operations;
      TailOfCons(RangeOf(operations[0]), Ranges(operations[1..]));
      SortedRises(operations[1..]);
      InsertRises(RangeOf(operations[0]), Sorted(Ranges(operations[1..])), 0);
    }
  }

  // ---- The cursor ----

  /** The loop over the sorted ranges: each starts where the one before ended. */
  predicate Chained(ranges: seq<Range>, cursor: int, size: int) {
    if ranges == [] then cursor == size
    else ranges[0].start == cursor && ranges[0].end <= size && Chained(ranges[1..], ranges[0].end, size)
  }

  lemma {:induction false} ChainCovers(ranges: seq<Range>, cursor: int, size: int, i: int)
    requires Chained(ranges, cursor, size) && Rising(ranges, cursor)
    ensures cursor <= size && Coverage(ranges, i) == if cursor <= i < size then 1 else 0
    decreases |ranges|
  {
    if ranges != [] {
      RisingAgain(ranges[1..], ranges[0].start, ranges[0].end, size);
      ChainCovers(ranges[1..], ranges[0].end, size, i);
    }
  }

  lemma RisingAgain(ranges: seq<Range>, low: int, cursor: int, size: int)
    requires Rising(ranges, low) && Chained(ranges, cursor, size)
    ensures Rising(ranges, cursor)
  {
  }

  lemma {:induction false} NothingBelow(ranges: seq<Range>, low: int, i: int)
    requires Rising(ranges, low) && i < low
    ensures Coverage(ranges, i) == 0
    decreases |ranges|
  {
    if ranges != [] {
      NothingBelow(ranges[1..], ranges[0].start, i);
    }
  }

  lemma {:induction false} RisingFrom(ranges: seq<Range>, low: int, cursor: int)
    requires Rising(ranges, low) && low < cursor
    requires forall i :: low <= i < cursor ==> Coverage(ranges, i) == 0
    ensures Rising(ranges, cursor)
    decreases |ranges|
  {
    if ranges != [] {
      assert Coverage(ranges, ranges[0].start) > 0;
    }
  }

  lemma {:induction false} CoverChains(ranges: seq<Range>, cursor: int, size: int)
    requires Rising(ranges, cursor) && cursor <= size
    requires forall i :: Coverage(ranges, i) == if cursor <= i < size then 1 else 0
    ensures Chained(ranges, cursor, size)
    decreases |ranges|
  {
    if ranges == [] {
      assert Coverage(ranges, cursor) == 0;
    } else {
      var Range(start, end) := ranges[0];
      var rest := ranges[1..];
      assert Coverage(ranges, start) > 0 && Coverage(ranges, end - 1) > 0;
      assert Coverage(ranges, cursor) == if cursor < size then 1 else 0;
      if cursor < start {
        NothingBelow(rest, start, cursor);
      }
      assert cursor == start;
      forall i ensures Coverage(rest, i) == if end <= i < size then 1 else 0 {
        assert Coverage(ranges, i) == Contains(i)(ranges[0]) + Coverage(rest, i);
      }
      RisingFrom(rest, start, end);
      CoverChains(rest, end, size);
    }
  }

  // ---- The check ----

  /** The whole check accepts exactly the partitions of the file. */
  lemma ChainedIsPartition(operations: seq<Operation>, size: nat)
    requires forall operation <- operations :: ValidOperation(operation)
    ensures Chained(Sorted(Ranges(operations)), 0, size) <==> Partition(Ranges(operations), size)
  {
    var sorted := Sorted(Ranges(operations));
    SortedRises(operations);
    if Chained(sorted, 0, size) {
      forall i: int ensures Coverage(Ranges(operations), i) == if 0 <= i < size then 1 else 0 {
        SortedSum(Ranges(operations), Contains(i));
        ChainCovers(sorted, 0, size, i);
      }
    }
    if Partition(Ranges(operations), size) {
      forall i: int ensures Coverage(sorted, i) == if 0 <= i < size then 1 else 0 {
        SortedSum(Ranges(operations), Contains(i));
        assert Coverage(Ranges(operations), i) == if 0 <= i < size then 1 else 0;
      }
      CoverChains(sorted, 0, size);
    }
  }

  method CheckRanges(operations: seq<Operation>, size: nat) returns (accepted: bool)
    ensures accepted <==>
      operations != [] && (forall operation <- operations :: ValidOperation(operation)) && Partition(Ranges(operations), size)
  {
    if operations == [] {
      return false;
    }
    for i := 0 to |operations|
      invariant forall operation <- operations[..i] :: ValidOperation(operation)
    {
      if !ValidOperation(operations[i]) {
        return false;
      }
      SplitAt(operations, i);
      assert operations[..i + 1] == operations[..i] + [operations[i]];
    }
    assert operations[..|operations|] == operations;
    ChainedIsPartition(operations, size);
    var ranges := Sorted(Ranges(operations));
    var cursor := 0;
    for i := 0 to |ranges|
      invariant Chained(ranges[i..], cursor, size) == Chained(ranges, 0, size)
    {
      assert ranges[i..][0] == ranges[i] && ranges[i..][1..] == ranges[i + 1..];
      if ranges[i].start != cursor || ranges[i].end > size {
        return false;
      }
      cursor := ranges[i].end;
    }
    assert ranges[|ranges|..] == [];
    accepted := cursor == size;
  }

  // ---- The uploads ----

  datatype Upload = Upload(offset: nat, data: seq<Byte>)

  ghost predicate Inside(operations: seq<Operation>, size: nat) {
    forall operation <- operations :: ValidOperation(operation) && operation.offset + operation.length <= size
  }

  function Slice(operation: Operation, file: seq<Byte>): Upload
    requires ValidOperation(operation) && operation.offset + operation.length <= |file|
  {
    Upload(operation.offset, file[operation.offset..operation.offset + operation.length])
  }

  function Uploads(operations: seq<Operation>, file: seq<Byte>): seq<Upload>
    requires Inside(operations, |file|)
  {
    if operations == [] then []
    else
      var operation := operations[0];
      assert operation in operations;
      [Slice(operation, file)] + Uploads(operations[1..], file)
  }

  /** A server that writes each upload at its offset. */
  function Received(buffer: seq<Byte>, uploads: seq<Upload>): seq<Byte>
    decreases |uploads|
  {
    if uploads == [] then buffer else Received(Written(buffer, uploads[0]), uploads[1..])
  }

  function Written(buffer: seq<Byte>, upload: Upload): seq<Byte> {
    seq(|buffer|, i requires 0 <= i < |buffer| =>
      if upload.offset <= i < upload.offset + |upload.data| then upload.data[i - upload.offset] else buffer[i])
  }

  lemma CoverageOfFirst(operations: seq<Operation>, i: int)
    requires operations != []
    ensures Coverage(Ranges(operations), i) == Contains(i)(RangeOf(operations[0])) + Coverage(Ranges(operations[1..]), i)
  {
    TailOfCons(RangeOf(operations[0]), Ranges(operations[1..]));
  }

  /** One slice puts the file's own bytes into its range. */
  lemma WrittenAt(operation: Operation, file: seq<Byte>, buffer: seq<Byte>, i: nat)
    requires ValidOperation(operation) && operation.offset + operation.length <= |file|
    requires |buffer| == |file| && i < |file|
    ensures var result := Written(buffer, Slice(operation, file));
            |result| == |file| && result[i] == if Contains(i)(RangeOf(operation)) > 0 then file[i] else buffer[i]
  {
  }

  lemma FirstReceived(operations: seq<Operation>, file: seq<Byte>, buffer: seq<Byte>)
    requires Inside(operations, |file|) && operations != []
    ensures ValidOperation(operations[0]) && operations[0].offset + operations[0].length <= |file|
    ensures Inside(operations[1..], |file|)
    ensures Received(buffer, Uploads(operations, file))
         == Received(Written(buffer, Slice(operations[0], file)), Uploads(operations[1..], file))
  {
    assert operations[0] in operations;
    TailOfCons(Slice(operations[0], file), Uploads(operations[1..], file));
  }

  lemma {:induction false} ReceivedAt(operations: seq<Operation>, file: seq<Byte>, buffer: seq<Byte>, i: nat)
    requires Inside(operations, |file|) && |buffer| == |file| && i < |file|
    ensures var result := Received(buffer, Uploads(operations, file));
            |result| == |file| && result[i] == if Coverage(Ranges(operations), i) > 0 || buffer[i] == file[i] then file[i] else buffer[i]
    decreases |operations|
  {
    if operations != [] {
      FirstReceived(operations, file, buffer);
      CoverageOfFirst(operations, i);
      WrittenAt(operations[0], file, buffer, i);
      ReceivedAt(operations[1..], file, Written(buffer, Slice(operations[0], file)), i);
    }
  }

  /** Accepted ranges lie inside the file. */
  lemma {:induction false} PartitionInside(operations: seq<Operation>, size: nat)
    requires forall operation <- operations :: ValidOperation(operation)
    requires forall i: int :: i >= size ==> Coverage(Ranges(operations), i) == 0
    ensures Inside(operations, size)
    decreases |operations|
  {
    if operations != [] {
      var operation, rest := operations[0], operations[1..];
      assert operation in operations;
      assert operations == [operation] + rest;
      forall i: int | i >= size ensures Coverage(Ranges(rest), i) == 0 {
        CoverageOfFirst(operations, i);
      }
      var last := operation.offset + operation.length - 1;
      CoverageOfFirst(operations, last);
      assert Coverage(Ranges(operations), last) > 0;
      PartitionInside(rest, size);
    }
  }

  lemma {:induction false} ReceivedLength(buffer: seq<Byte>, uploads: seq<Upload>)
    ensures |Received(buffer, uploads)| == |buffer|
    decreases |uploads|
  {
    if uploads != [] {
      ReceivedLength(Written(buffer, uploads[0]), uploads[1..]);
    }
  }

  function DataLength(): Upload -> nat {
    (upload: Upload) => |upload.data|
  }

  /** Bytes sent in all. */
  function Sent(uploads: seq<Upload>): nat {
    Sum(uploads, DataLength())
  }

  function Length(): Range -> nat {
    (range: Range) => if range.start < range.end then range.end - range.start else 0
  }

  lemma {:induction false} SentIsLength(operations: seq<Operation>, file: seq<Byte>)
    requires Inside(operations, |file|)
    ensures Sent(Uploads(operations, file)) == Sum(Ranges(operations), Length())
    decreases |operations|
  {
    if operations != [] {
      var uploads := Uploads(operations, file);
      assert operations[0] in operations;
      SentIsLength(operations[1..], file);
      TailOfCons(uploads[0], Uploads(operations[1..], file));
      TailOfCons(RangeOf(operations[0]), Ranges(operations[1..]));
    }
  }

  lemma {:induction false} ChainLength(ranges: seq<Range>, cursor: int, size: int)
    requires Chained(ranges, cursor, size) && Rising(ranges, cursor)
    ensures Sum(ranges, Length()) == size - cursor
    decreases |ranges|
  {
    if ranges != [] {
      RisingAgain(ranges[1..], ranges[0].start, ranges[0].end, size);
      ChainLength(ranges[1..], ranges[0].end, size);
    }
  }

  /** When the check accepts, the uploads rebuild the file whatever the buffer held
      before, in whatever order the operations came, and each byte is sent once. */
  lemma AcceptedUploadsRebuild(operations: seq<Operation>, file: seq<Byte>, buffer: seq<Byte>)
    requires forall operation <- operations :: ValidOperation(operation)
    requires Partition(Ranges(operations), |file|) && |buffer| == |file|
    ensures Inside(operations, |file|)
    ensures Received(buffer, Uploads(operations, file)) == file
    ensures Sent(Uploads(operations, file)) == |file|
  {
    PartitionInside(operations, |file|);
    var result, ranges := Received(buffer, Uploads(operations, file)), Ranges(operations);
    ReceivedLength(buffer, Uploads(operations, file));
    forall i: nat | i < |file| ensures result[i] == file[i] {
      ReceivedAt(operations, file, buffer, i);
    }
    SentIsLength(operations, file);
    SortedSum(ranges, Length());
    SortedRises(operations);
    ChainedIsPartition(operations, |file|);
    ChainLength(Sorted(ranges), 0, |file|);
  }

  lemma {:induction false} UploadsAppend(operations: seq<Operation>, last: Operation, file: seq<Byte>)
    requires Inside(operations + [last], |file|)
    ensures Inside(operations, |file|) && Inside([last], |file|)
    ensures Uploads(operations + [last], file) == Uploads(operations, file) + Uploads([last], file)
    decreases |operations|
  {
    assert forall operation <- operations + [last] :: operation in operations || operation == last;
    assert forall operation <- operations :: operation in operations + [last];
    assert last in operations + [last];
    if operations == [] {
      EmptyEnds([last]);
    } else {
      assert (operations + [last])[1..] == operations[1..] + [last];
      UploadsAppend(operations[1..], last, file);
    }
  }

  /** Check the ranges, then send every slice in the order of the operations: all of
      it happens exactly for a partition of the file, and then rebuilds it. */
  method ValidateAndUpload(operations: seq<Operation>, file: seq<Byte>) returns (sent: Option<seq<Upload>>)
    ensures sent.Some? <==>
      operations != [] && (forall operation <- operations :: ValidOperation(operation))
      && Partition(Ranges(operations), |file|)
    ensures sent.Some? ==>
      Sent(sent.value) == |file| && forall buffer :: |buffer| == |file| ==> Received(buffer, sent.value) == file
  {
    var accepted := CheckRanges(operations, |file|);
    if !accepted {
      return None;
    }
    AcceptedUploadsRebuild(operations, file, file);
    var uploads: seq<Upload> := [];
    for i := 0 to |operations|
      invariant Inside(operations[..i], |file|) && uploads == Uploads(operations[..i], file)
    {
      assert operations[..i + 1] == operations[..i] + [operations[i]];
      UploadsAppend(operations[..i], operations[i], file);
      assert Uploads([operations[i]], file) == [Slice(operations[i], file)];
      uploads := uploads + [Slice(operations[i], file)];
    }
    assert operations[..|operations|] == operations;
    sent := Some(uploads);
    forall buffer: seq<Byte> | |buffer| == |file| ensures Received(buffer, uploads) == file {
      AcceptedUploadsRebuild(operations, file, buffer);
    }
  }
}
