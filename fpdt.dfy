/** The Firmware Performance Data Table walker `parse_fpdt`.

    After the 36-byte header the table holds performance records, each
    starting with a 16-bit type, an 8-bit length and an 8-bit revision
    (ACPI 6.6, section 5.2.24, "Performance Record Format"). The walker
    reads only the type and steps over the record by a length of its own
    choosing: 16 bytes for the pointer records (types 0, 1, 2), 32 for the
    timestamp record (type 3), and for any other type the length of the
    previous record, because that branch leaves the `length` variable as
    it was. The printed lines become a sequence of `Record`s. */
module Fpdt {
  import opened AcpiTable
  import opened TableExamples

  /** "FPDT" */
  const Signature: Bytes := [0x46, 0x50, 0x44, 0x54]

  /** Size of the type/length/revision prefix every record starts with. */
  const RecordHeaderSize: nat := 4

  /** Bytes stepped over for a pointer record (4 + 12) and a timestamp
      record (4 + 28). */
  const PointerRecordLength: nat := 16
  const TimestampRecordLength: nat := 32

  /** The three record types that hold a 64-bit pointer: the firmware basic
      boot performance table (0), the S3 performance table (1) and type 2,
      printed as "MBPT". */
  datatype PointerKind = FBPT | S3PT | MBPT

  /** What one iteration reports: a pointer record and its pointer, a
      timestamp record, or the numeric type of a record it does not know. */
  datatype Record =
    | PointerRecord(kind: PointerKind, pointer: nat)
    | TimestampRecord
    | UnknownRecord(recordType: nat)

  /** How the loop ends. `Finished` when the offset reaches or passes the end
      of the buffer. `Spins` when an iteration leaves the offset and the
      carried length unchanged: from then on the source loop reports the
      same unknown record forever and never returns. `records` holds what
      was reported before that point. */
  datatype Outcome =
    | Finished(records: seq<Record>, endOffset: nat)
    | Spins(records: seq<Record>, offset: nat)

  /** One iteration: raise, or report a record and the new value of the
      carried `length` (the offset then moves on by it). */
  datatype Step = Raise(error: Error) | Next(record: Record, length: nat)

  function PointerKindOf(recordType: nat): PointerKind
    requires recordType <= 2
  {
    if recordType == 0 then FBPT else if recordType == 1 then S3PT else MBPT
  }

  /** The loop body at `offset` with `length` carried from the previous
      iteration. Reading the record type needs 4 bytes; reading a pointer
      (the `<IQ` after the prefix) needs 16 bytes from the record start. */
  function RecordStep(data: Bytes, offset: nat, length: nat): Step {
    if offset + RecordHeaderSize > |data| then Raise(OutOfBounds)
    else
      var recordType := LE16(data, offset);
      if recordType <= 2 then
        if offset + PointerRecordLength > |data| then Raise(OutOfBounds)
        else Next(PointerRecord(PointerKindOf(recordType), LE64(data, offset + 8)), PointerRecordLength)
      else if recordType == 3 then Next(TimestampRecord, TimestampRecordLength)
      else Next(UnknownRecord(recordType), length)
  }

  /** The loop from `offset` on, with `length` carried and `records`
      reported so far. An iteration that would leave the state as it is
      ends the walk as `Spins`. */
  function Walk(data: Bytes, offset: nat, length: nat, records: seq<Record>): Result<Outcome>
    decreases |data| - offset
  {
    if offset >= |data| then Ok(Finished(records, offset))
    else
      match RecordStep(data, offset, length)
      case Raise(e) => Err(e)
      case Next(record, n) =>
        if n == 0 then Ok(Spins(records, offset))
        else Walk(data, offset + n, n, records + [record])
  }

  /** The result of `parse_fpdt` on `data`: the header check, then the walk
      from the end of the header with `length` 0 and nothing reported. */
  function PerformanceRecords(data: Bytes): Result<Outcome> {
    match CheckHeader(data, Signature)
    case Some(e) => Err(e)
    case None => Walk(data, HeaderSize, 0, [])
  }

  // ---------------------------------------------------------------------
  // One iteration

  /** What one iteration does, by record type. It raises only when the
      buffer ends inside the 4-byte prefix, or inside the first 16 bytes of
      a pointer record; the timestamp record is stepped over without any
      check; an unknown type keeps the carried length. */
  lemma StepCases(data: Bytes, offset: nat, length: nat)
    ensures var s := RecordStep(data, offset, length);
      s.Raise? <==>
        offset + RecordHeaderSize > |data|
        || (LE16(data, offset) <= 2 && offset + PointerRecordLength > |data|)
    ensures var s := RecordStep(data, offset, length);
      s.Raise? ==> s.error == OutOfBounds
    ensures var s := RecordStep(data, offset, length);
      s.Next? && LE16(data, offset) <= 2 ==>
        s == Next(PointerRecord(PointerKindOf(LE16(data, offset)), LE64(data, offset + 8)), 16)
    ensures var s := RecordStep(data, offset, length);
      s.Next? && LE16(data, offset) == 3 ==> s == Next(TimestampRecord, 32)
    ensures var s := RecordStep(data, offset, length);
      s.Next? && LE16(data, offset) > 3 ==> s == Next(UnknownRecord(LE16(data, offset)), length)
  {
  }

  /** The state (offset, length) is a fixpoint of an iteration exactly when
      the carried length is 0 and the record type is unknown. */
  lemma StepFixpoint(data: Bytes, offset: nat, length: nat)
    ensures var s := RecordStep(data, offset, length);
      (s.Next? && s.length == 0) <==>
        length == 0 && offset + RecordHeaderSize <= |data| && LE16(data, offset) > 3
  {
  }

  /** Once the carried length is 16 or 32 (any known record has been seen),
      every iteration that does not raise moves on by 16 or 32. */
  lemma StepProgress(data: Bytes, offset: nat, length: nat)
    requires length == 16 || length == 32
    ensures var s := RecordStep(data, offset, length);
      s.Next? ==> s.length == 16 || s.length == 32
  {
  }

  /** The loop from `offset` on, unfolded once. */
  lemma WalkStep(data: Bytes, offset: nat, length: nat, records: seq<Record>)
    requires offset < |data|
    ensures RecordStep(data, offset, length).Raise? ==>
      Walk(data, offset, length, records) == Err(RecordStep(data, offset, length).error)
    ensures var s := RecordStep(data, offset, length);
      s.Next? && s.length == 0 ==> Walk(data, offset, length, records) == Ok(Spins(records, offset))
    ensures var s := RecordStep(data, offset, length);
      s.Next? && s.length != 0 ==>
        Walk(data, offset, length, records) == Walk(data, offset + s.length, s.length, records + [s.record])
  {
  }

  // ---------------------------------------------------------------------
  // The loop

  /** `parse_fpdt`, with the records it prints returned in order. Where the
      source would loop forever the method stops at the first repeated
      state and returns `Spins`. */
  method ParseFpdt(data: Bytes) returns (r: Result<Outcome>)
    ensures r == PerformanceRecords(data)
  {
    if |data| < HeaderSize {
      return Err(TooShort);
    }
    if data[..4] != Signature {
      return Err(BadSignature);
    }
    var offset := HeaderSize;
    var length := 0;
    var records: seq<Record> := [];
    while offset < |data|
      invariant Walk(data, offset, length, records) == PerformanceRecords(data)
      decreases |data| - offset
    {
      WalkStep(data, offset, length, records);
      if offset + RecordHeaderSize > |data| {
        return Err(OutOfBounds);
      }
      var recordType := LE16(data, offset);
      var record: Record;
      if recordType <= 2 {
        if offset + PointerRecordLength > |data| {
          return Err(OutOfBounds);
        }
        var pointer := LE64(data, offset + 8);
        record := PointerRecord(PointerKindOf(recordType), pointer);
        length := PointerRecordLength;
      } else if recordType == 3 {
        record := TimestampRecord;
        length := TimestampRecordLength;
      } else {
        record := UnknownRecord(recordType);
        if length == 0 {
          return Ok(Spins(records, offset));
        }
      }
      records := records + [record];
      offset := offset + length;
    }
    return Ok(Finished(records, offset));
  }

  // ---------------------------------------------------------------------
  // Properties of the walk

  /** A buffer shorter than the header raises "too short"; one whose first
      four bytes are not "FPDT" raises "invalid"; nothing else is checked
      before the walk. */
  lemma HeaderOutcomes(data: Bytes)
    ensures PerformanceRecords(data) == Err(TooShort) <==> |data| < HeaderSize
    ensures PerformanceRecords(data) == Err(BadSignature) <==>
      |data| >= HeaderSize && data[..4] != Signature
    ensures |data| == HeaderSize && data[..4] == Signature ==>
      PerformanceRecords(data) == Ok(Finished([], HeaderSize))
  {
    if |data| >= HeaderSize && data[..4] == Signature {
      WalkRaisesOnlyOutOfBounds(data, HeaderSize, 0, []);
    }
  }

  /** The walk raises nothing but the out-of-bounds read. */
  lemma {:induction false} WalkRaisesOnlyOutOfBounds(data: Bytes, offset: nat, length: nat, records: seq<Record>)
    ensures Walk(data, offset, length, records).Err? ==> Walk(data, offset, length, records).error == OutOfBounds
    decreases |data| - offset
  {
    if offset < |data| {
      WalkStep(data, offset, length, records);
      var s := RecordStep(data, offset, length);
      if s.Next? && s.length != 0 {
        WalkRaisesOnlyOutOfBounds(data, offset + s.length, s.length, records + [s.record]);
      }
    }
  }

  /** Once a known record has been seen the walk never stalls: it ends by
      raising or by leaving the buffer. */
  lemma {:induction false} NoSpinAfterKnownRecord(data: Bytes, offset: nat, length: nat, records: seq<Record>)
    requires length == 16 || length == 32
    ensures !(Walk(data, offset, length, records).Ok? && Walk(data, offset, length, records).value.Spins?)
    decreases |data| - offset
  {
    if offset < |data| {
      WalkStep(data, offset, length, records);
      StepProgress(data, offset, length);
      var s := RecordStep(data, offset, length);
      if s.Next? {
        NoSpinAfterKnownRecord(data, offset + s.length, s.length, records + [s.record]);
      }
    }
  }

  /** The source loop runs forever exactly when the header is accepted, a
      whole record prefix follows it, and the first record's type is not
      one of the four known ones; it then reports nothing before stalling
      at the first record. */
  lemma SpinsIffFirstRecordUnknown(data: Bytes)
    ensures (PerformanceRecords(data).Ok? && PerformanceRecords(data).value.Spins?) <==>
      && |data| >= HeaderSize + RecordHeaderSize
      && data[..4] == Signature
      && LE16(data, HeaderSize) > 3
    ensures PerformanceRecords(data).Ok? && PerformanceRecords(data).value.Spins? ==>
      PerformanceRecords(data).value == Spins([], HeaderSize)
  {
    if |data| > HeaderSize && data[..4] == Signature {
      WalkStep(data, HeaderSize, 0, []);
      StepCases(data, HeaderSize, 0);
      StepFixpoint(data, HeaderSize, 0);
      var s := RecordStep(data, HeaderSize, 0);
      if s.Next? && s.length != 0 {
        NoSpinAfterKnownRecord(data, HeaderSize + s.length, s.length, [] + [s.record]);
      }
    }
  }

  /** A walk that finishes stops at or past the end of the buffer, but by
      less than one timestamp record: only a record that is stepped over
      without a bounds check can carry the offset past the end. */
  lemma {:induction false} FinishedNearEnd(data: Bytes, offset: nat, length: nat, records: seq<Record>)
    requires offset < |data| + TimestampRecordLength
    requires length <= TimestampRecordLength
    ensures var w := Walk(data, offset, length, records);
      w.Ok? && w.value.Finished? ==>
        |data| <= w.value.endOffset < |data| + TimestampRecordLength
    decreases |data| - offset
  {
    if offset < |data| {
      WalkStep(data, offset, length, records);
      var s := RecordStep(data, offset, length);
      if s.Next? && s.length != 0 {
        FinishedNearEnd(data, offset + s.length, s.length, records + [s.record]);
      }
    }
  }

  /** A timestamp record whose 32 bytes run past the end of the buffer is
      still reported, and the walk then ends past the end. */
  lemma TimestampPastEnd(data: Bytes, offset: nat, length: nat, records: seq<Record>)
    requires offset + RecordHeaderSize <= |data| < offset + TimestampRecordLength
    requires LE16(data, offset) == 3
    ensures Walk(data, offset, length, records)
      == Ok(Finished(records + [TimestampRecord], offset + TimestampRecordLength))
  {
    WalkStep(data, offset, length, records);
  }

  /** Records are only ever appended: the result starts with what was
      reported before. */
  lemma {:induction false} WalkExtends(data: Bytes, offset: nat, length: nat, records: seq<Record>)
    ensures var w := Walk(data, offset, length, records);
      w.Ok? ==> |records| <= |w.value.records| && w.value.records[..|records|] == records
    decreases |data| - offset
  {
    if offset < |data| {
      WalkStep(data, offset, length, records);
      var s := RecordStep(data, offset, length);
      if s.Next? && s.length != 0 {
        var more := records + [s.record];
        WalkExtends(data, offset + s.length, s.length, more);
        var w := Walk(data, offset, length, records);
        if w.Ok? {
          assert w.value.records[..|records|] == w.value.records[..|more|][..|records|];
        }
      }
    }
  }

  /** The finishing outcomes of the whole parse. */
  lemma FinishedOutcome(data: Bytes)
    ensures var r := PerformanceRecords(data);
      r.Ok? && r.value.Finished? ==> |data| <= r.value.endOffset < |data| + TimestampRecordLength
  {
    if |data| >= HeaderSize && data[..4] == Signature {
      FinishedNearEnd(data, HeaderSize, 0, []);
    }
  }

  // ---------------------------------------------------------------------
  // Examples

  /** An example table passes the header check. */
  lemma ExampleTableLayout(rest: Bytes, body: Bytes)
    requires |rest| == 32
    ensures var t := ExampleTable(Signature, rest, body);
      |t| == HeaderSize + |body| && t[..4] == Signature
  {
  }

  function DeadBeefRecord(): Bytes {
    [0x01, 0x00, 0x10, 0x01, 0x00, 0x00, 0x00, 0x00,
     0xEF, 0xBE, 0xAD, 0xDE, 0x00, 0x00, 0x00, 0x00]
  }

  lemma DeadBeefRecordFields()
    ensures LE16(DeadBeefRecord(), 0) == 1 && LE64(DeadBeefRecord(), 8) == 0xDEADBEEF
  {
    var rec := DeadBeefRecord();
    assert LE(rec, 1, 1) == 0;
    LEZero(rec, 12, 4);
    assert LE(rec, 11, 5) == 0xDE;
    assert LE(rec, 10, 6) == 0xDEAD && LE(rec, 9, 7) == 0xDEADBE;
  }

  /** The first iteration on a table holding, at offset 36, a record of
      type 1 whose pointer is 0xDEADBEEF. */
  lemma DeadBeefStep(data: Bytes)
    requires |data| == 52
    requires LE16(data, 36) == 1 && LE64(data, 44) == 0xDEADBEEF
    ensures RecordStep(data, 36, 0) == Next(PointerRecord(S3PT, 0xDEADBEEF), 16)
  {
    StepCases(data, 36, 0);
  }

  /** Any 52-byte table with an accepted header holding, at offset 36, a
      record of type 1 whose pointer is 0xDEADBEEF reports that one S3
      performance table pointer and ends exactly at the end of the buffer. */
  lemma DeadBeefWalk(data: Bytes)
    requires |data| == 52 && data[..4] == Signature
    requires RecordStep(data, 36, 0) == Next(PointerRecord(S3PT, 0xDEADBEEF), 16)
    ensures PerformanceRecords(data) == Ok(Finished([PointerRecord(S3PT, 0xDEADBEEF)], 52))
  {
    WalkStep(data, 36, 0, []);
    var records := [PointerRecord(S3PT, 0xDEADBEEF)];
    assert [] + records == records;
    assert Walk(data, 52, 16, records) == Ok(Finished(records, 52));
  }

  /** The header, whatever its other fields hold, and one S3 performance
      table pointer record holding 0xDEADBEEF. */
  lemma DeadBeefExample(rest: Bytes)
    requires |rest| == 32
    ensures PerformanceRecords(ExampleTable(Signature, rest, DeadBeefRecord()))
      == Ok(Finished([PointerRecord(S3PT, 0xDEADBEEF)], 52))
  {
    var data := ExampleTable(Signature, rest, DeadBeefRecord());
    ExampleTableLayout(rest, DeadBeefRecord());
    DeadBeefRecordFields();
    ExampleTableRead(Signature, rest, DeadBeefRecord(), 0, 36, 2);
    ExampleTableRead(Signature, rest, DeadBeefRecord(), 8, 44, 8);
    DeadBeefStep(data);
    DeadBeefWalk(data);
  }

  /** A basic boot performance pointer record holding pointer 42. */
  function BootRecord(): Bytes {
    [0x00, 0x00, 0x10, 0x01, 0x00, 0x00, 0x00, 0x00,
     0x2A, 0x00, 0x00, 0x00, 0x00, 0x00, 0x00, 0x00]
  }

  /** The two iterations on a table holding a basic boot performance pointer
      record (type 0, pointer 42) at offset 36 and a record of unknown type 7
      at offset 52. */
  lemma CarryOverSteps(data: Bytes)
    requires |data| == 68
    requires LE16(data, 36) == 0 && LE64(data, 44) == 42 && LE16(data, 52) == 7
    ensures RecordStep(data, 36, 0) == Next(PointerRecord(FBPT, 42), 16)
    ensures RecordStep(data, 52, 16) == Next(UnknownRecord(7), 16)
  {
    StepCases(data, 36, 0);
    StepCases(data, 52, 16);
  }

  /** The unknown record is stepped over by the 16 bytes carried from the
      record before it, so the walk reports both records and ends at the end
      of the buffer. */
  lemma CarryOverWalk(data: Bytes)
    requires |data| == 68 && data[..4] == Signature
    requires RecordStep(data, 36, 0) == Next(PointerRecord(FBPT, 42), 16)
    requires RecordStep(data, 52, 16) == Next(UnknownRecord(7), 16)
    ensures PerformanceRecords(data) == Ok(Finished([PointerRecord(FBPT, 42), UnknownRecord(7)], 68))
  {
    WalkStep(data, 36, 0, []);
    var first := [PointerRecord(FBPT, 42)];
    assert [] + first == first;
    WalkStep(data, 52, 16, first);
    var both := [PointerRecord(FBPT, 42), UnknownRecord(7)];
    assert first + [UnknownRecord(7)] == both;
    assert Walk(data, 68, 16, both) == Ok(Finished(both, 68));
  }

  lemma BootRecordFields()
    ensures |BootRecord()| == 16
    ensures LE16(BootRecord(), 0) == 0 && LE64(BootRecord(), 8) == 42
  {
    var rec := BootRecord();
    LEZero(rec, 0, 2);
    LEZero(rec, 9, 7);
  }

  /** The fields of a record are read alike when another record follows. */
  lemma BootRecordFollowed(boot: Bytes, next: Bytes)
    requires |boot| == 16 && LE16(boot, 0) == 0 && LE64(boot, 8) == 42
    ensures LE16(boot + next, 0) == 0 && LE64(boot + next, 8) == 42
  {
    LEExtend(boot, next, 0, 2);
    LEExtend(boot, next, 8, 8);
  }

  /** A record of unknown type 7 placed after a 16-byte record. */
  lemma UnknownRecordPreceded(boot: Bytes, tail: Bytes)
    requires |boot| == 16
    ensures LE16(boot + ([0x07, 0x00] + tail), 16) == 7
  {
    var unknown: Bytes := [0x07, 0x00] + tail;
    LEShift(boot, unknown, 0, 2);
    LEWindow(unknown, 0, 2);
    assert unknown[0..2] == [0x07, 0x00];
  }

  /** Any table whose 32-byte body holds a basic boot performance pointer
      record with pointer 42 and then a record of unknown type 7. */
  lemma CarryOverTable(rest: Bytes, body: Bytes)
    requires |rest| == 32 && |body| == 32
    requires LE(body, 0, 2) == 0 && LE(body, 8, 8) == 42 && LE(body, 16, 2) == 7
    ensures PerformanceRecords(ExampleTable(Signature, rest, body))
      == Ok(Finished([PointerRecord(FBPT, 42), UnknownRecord(7)], 68))
  {
    ExampleTableLayout(rest, body);
    var data := ExampleTable(Signature, rest, body);
    ExampleTableRead(Signature, rest, body, 0, 36, 2);
    ExampleTableRead(Signature, rest, body, 8, 44, 8);
    ExampleTableRead(Signature, rest, body, 16, 52, 2);
    assert LE(data, 36, 2) == 0 && LE(data, 44, 8) == 42 && LE(data, 52, 2) == 7;
    CarryOverSteps(data);
    CarryOverWalk(data);
  }

  /** The header, whatever its other fields hold, a basic boot performance
      pointer record, and a record of unknown type 7 whatever its other
      bytes hold. */
  lemma CarryOverExample(rest: Bytes, tail: Bytes)
    requires |rest| == 32 && |tail| == 14
    ensures PerformanceRecords(ExampleTable(Signature, rest, BootRecord() + ([0x07, 0x00] + tail)))
      == Ok(Finished([PointerRecord(FBPT, 42), UnknownRecord(7)], 68))
  {
    var body := BootRecord() + ([0x07, 0x00] + tail);
    BootRecordFields();
    BootRecordFollowed(BootRecord(), [0x07, 0x00] + tail);
    UnknownRecordPreceded(BootRecord(), tail);
    assert LE(body, 0, 2) == 0 && LE(body, 8, 8) == 42 && LE(body, 16, 2) == 7;
    CarryOverTable(rest, body);
  }
}
