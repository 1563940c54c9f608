# ACPI table walkers: PPTT topology and FPDT performance records

A model of two small ACPI table walkers and proofs about them.

- `parse_pptt` reads a Processor Properties Topology Table (PPTT). It checks
  the 36-byte System Description Table Header: the buffer must be long
  enough and the signature must be "PPTT". It then walks the
  self-length-prefixed nodes behind the header and builds a topology graph:
  - processor hierarchy nodes (type 0) become labelled graph nodes ("Package",
    "cpu<ID>", "Fake Cluster"), with an edge from their parent and edges to
    their private resources;
  - cache type nodes (type 1) become nodes labelled with cache type, size,
    allocation type and write policy, with an edge to the next level of
    cache, provided cache flag bits 0, 3, 4 and 5 (mask 0x39: size,
    allocation type, cache type and write policy valid) are all set; the
    other flag bits are not looked at;
  - any other node type raises.
- `parse_fpdt` reads a Firmware Performance Data Table (FPDT). It performs
  the same header check with signature "FPDT". It then walks the performance
  records and reports pointer records (types 0, 1, 2 with their 64-bit
  pointer), timestamp records (type 3) and the type number of any other
  record. It steps over 16 bytes for a pointer record and 32 for a timestamp
  record. For an unknown type it steps over the length of the previous
  record, because that branch does not set the `length` variable.

Each walker is modelled twice:

- a specification function: a one-step function plus a tail-recursive walk
  (`Pptt.DecodeNode`/`Pptt.Walk`/`Pptt.TopologyGraph`,
  `Fpdt.RecordStep`/`Fpdt.Walk`/`Fpdt.PerformanceRecords`);
- a method with the source's `while` loop (`Pptt.ParsePptt`,
  `Fpdt.ParseFpdt`), proved equal to that function.

The lemmas then state what the walks do and do not do. Raising is modelled
as `Err(error)`:

- `TooShort` and `BadSignature` for the two header errors;
- `InvalidNodeType` for an unknown PPTT node;
- `OutOfBounds` for a `struct.unpack_from` that would read past the buffer.

The PPTT graph is a value. It holds the node statements (offset, label,
filled style) and the edge statements (from, to), each in the order the
walk emits them. Labels are structured (`PpttCaption.Caption`), and
`PpttCaption.CaptionText` spells them as the source's strings.

The FPDT walk's outcome is either `Finished(records, endOffset)` or
`Spins(records, offset)`. `Spins` is reached when an unknown record type
meets a carried length of 0: the state is then a fixpoint, and the source
loop would report the same record forever.

Files:

- `acpi_table.dfy`: byte buffers, little-endian field readers and their
  encoder, errors, the common header check;
- `table_examples.dfy`: the example tables the worked examples of both
  walkers are built from;
- `decimal.dfy`: the decimal text of a number, as `str()` writes it;
- `pptt_caption.dfy`: the PPTT node labels;
- `pptt.dfy`: the PPTT walker;
- `fpdt.dfy`: the FPDT walker.

Fields follow the code's `struct` format strings:

- processor flags at byte 4, parent at 8, ACPI processor ID at 12, number
  of private resources at 16, private resources from 20;
- cache flags at 4, next level at 8, size at 12, attributes at byte 21
  (index 8 of `<BBHIIIIBBHI`);
- FPDT record type at 0, pointer at 8 (the `Q` of `<IQ` read at offset 4).

The processor parent edge goes from the parent to the node, as the code
draws it.

## Model

| member | source | states |
|---|---|---|
| AcpiTable.CheckHeader | pptt_parser.py:24-29 | accepted iff at least 36 bytes and the first four equal the signature; "too short" iff fewer than 36 bytes; "invalid" iff long enough with another signature |
| AcpiTable.HeaderOnlyLengthAndSignature | pptt_parser.py:27-29 | two buffers of header length that agree on their first four bytes get the same header verdict: no other header field is checked |
| AcpiTable.LE | pptt_parser.py:40 | an n-byte little-endian field is below 256^n |
| AcpiTable.LERoundTrip | fpdt_parser.py:32 | reading back the little-endian encoding of any value that fits in n bytes gives the value |
| AcpiTable.LEAt | pptt_parser.py:40 | a field encoded at any offset of a buffer is read back as the encoded value, whatever surrounds it |
| AcpiTable.LEWindow | pptt_parser.py:40 | reading n bytes at an offset depends on those n bytes only |
| Decimal.NatToString | pptt_parser.py:52 | the text of a number is non-empty and all decimal digits; it starts with '0' only for 0, and the text of 0 is exactly "0" |
| Decimal.DecimalRoundTrip | pptt_parser.py:52 | the decimal value of the text of n is n |
| Decimal.NatToStringInjective | pptt_parser.py:52 | different numbers never get the same text |
| PpttCaption.ProcessorCaption | pptt_parser.py:46-56 | "Package" iff flag bit 0; "cpu<ID>" iff bit 1 without bit 0; "Fake Cluster" iff neither; filled iff a cpu label and bit 3 |
| PpttCaption.CacheTypeOf | pptt_parser.py:79-84 | DCache iff attribute bits 2-3 are 0, ICache iff 1, Cache iff 2 or 3 |
| PpttCaption.AllocationOf | pptt_parser.py:93-98 | RA iff attribute bits 0-1 are 0, WA iff 1, RWA iff 2 or 3 |
| PpttCaption.WritePolicyOf | pptt_parser.py:100-103 | WB iff attribute bit 4 is 0, WT iff it is 1; one is always chosen |
| PpttCaption.CpuTextNamesProcessor | pptt_parser.py:52-54 | a cpu label reads "cpu" followed by digits whose value is the ACPI processor ID |
| PpttCaption.SizeTextParts | pptt_parser.py:86-91 | a size text "<shown> <unit>" has the number and unit chosen for the size: B below 1024, KB below 1024*1024, MB above, integer-divided |
| PpttCaption.SizeTextMeaning | pptt_parser.py:86-91 | a size text names B, KB or MB; shown*unit <= size < (shown+1)*unit; the unit is fixed by the size range; only MB figures reach 1024 |
| PpttCaption.SizeTextExamples | pptt_parser.py:86-91 | 512 bytes read "512 B", 2048 read "2 KB", 1048576 read "1 MB" |
| Pptt.InfoMaskImpliesBit4 | pptt_parser.py:77-78 | when all info-mask flags are set, flag bit 4 is set, so the node-drawing test at line 105 always passes |
| Pptt.PrivateEdges | pptt_parser.py:61-65 | exactly `count` edges, the i-th from the node to the i-th 4-byte reference after the fixed 20 bytes |
| Pptt.AppendPrivateEdges | pptt_parser.py:64-65 | the loop over the private resources appends exactly `PrivateEdges` to the edges so far |
| Pptt.DecodeProcessor | pptt_parser.py:36-65 | an advance stays inside the buffer, moves at least one byte, and adds one node with the node's own offset as id |
| Pptt.DecodeCache | pptt_parser.py:67-108 | an advance stays inside the buffer, moves at least one byte, and adds at most one node, with the node's own offset as id |
| Pptt.DecodeNode | pptt_parser.py:34-110 | raises "invalid node type" iff the type byte is above 1; any advance stays in the buffer and adds at most one node, at its offset |
| Pptt.ProcessorOutcome | pptt_parser.py:36-63 | a processor node stops the walk iff its 20 bytes do not fit or its length is 0 or runs past the end; it raises (out of bounds) iff its private list runs past the end |
| Pptt.ProcessorAdvance | pptt_parser.py:40-65 | an accepted processor node advances by its declared length and adds its labelled node, the parent edge iff the parent is not 0, then the private edges in order |
| Pptt.CacheStep | pptt_parser.py:67-108 | a cache node never raises; it stops iff its 28 bytes do not fit or its length is 0 or runs past the end; otherwise it adds its labelled node iff the info mask holds, and the next-level edge iff the mask holds and the next level is not 0 |
| Pptt.ProcessorStatements | pptt_parser.py:36-65 | the processor branch's statements produce exactly `DecodeProcessor` |
| Pptt.CacheStatements | pptt_parser.py:67-108 | the cache branch's statements produce exactly `DecodeCache` |
| Pptt.NodeStatements | pptt_parser.py:34-110 | the dispatch on the node type produces exactly `DecodeNode` |
| Pptt.ParsePptt | pptt_parser.py:21-111 | the loop-based parser returns exactly `TopologyGraph` for every buffer |
| Pptt.WalkExtends | pptt_parser.py:31-111 | statements are only appended: the result starts with the node and edge statements emitted before |
| Pptt.WalkErrors | pptt_parser.py:33-111 | the walk raises only "invalid node type" or an out-of-bounds private list |
| Pptt.WalkIdsAscending | pptt_parser.py:31-111 | node ids strictly increase and lie between the start offset and the end of the buffer |
| Pptt.ParseOutcomes | pptt_parser.py:21-111 | "too short" iff below 36 bytes, "invalid" iff long enough with another signature; in a successful parse node ids ascend inside [36, length) |
| Pptt.InvalidTypeAborts | pptt_parser.py:109-110 | reaching a node of type above 1 aborts the whole parse with "invalid node type" |
| Pptt.SingleCpuWalk | pptt_parser.py:36-65 | a 56-byte table with one leaf processor node (flags 0x0A, ID 3, no parent, no private resources) gives one filled cpu3 node and no edge |
| Pptt.SingleCpuExample | pptt_parser.py:36-56 | the same for the concrete node bytes, whatever the unchecked header bytes hold |
| Fpdt.StepCases | fpdt_parser.py:26-51 | an iteration raises (out of bounds only) iff the 4-byte prefix, or for types 0-2 the first 16 bytes, do not fit; types 0-2 report their pointer and step 16, type 3 steps 32, others report the type and keep the carried length |
| Fpdt.StepFixpoint | fpdt_parser.py:48-51 | an iteration leaves the state unchanged iff the carried length is 0, the prefix fits and the type is above 3 |
| Fpdt.StepProgress | fpdt_parser.py:30-51 | once the carried length is 16 or 32, every iteration that does not raise steps 16 or 32 |
| Fpdt.ParseFpdt | fpdt_parser.py:16-51 | the loop-based parser returns exactly `PerformanceRecords` for every buffer |
| Fpdt.HeaderOutcomes | fpdt_parser.py:17-26 | "too short" iff below 36 bytes, "invalid" iff long enough with another signature; a bare accepted header finishes at 36 with no record |
| Fpdt.WalkRaisesOnlyOutOfBounds | fpdt_parser.py:26-51 | the walk raises nothing but the out-of-bounds read |
| Fpdt.NoSpinAfterKnownRecord | fpdt_parser.py:26-51 | once a known record has been stepped over, the walk never spins |
| Fpdt.SpinsIffFirstRecordUnknown | fpdt_parser.py:24-51 | the parse never ends iff the header is accepted, a 4-byte prefix follows and the first record's type is above 3; it then has reported nothing |
| Fpdt.FinishedNearEnd | fpdt_parser.py:26-51 | a walk that finishes ends at or past the end of the buffer, but less than 32 bytes past it |
| Fpdt.FinishedOutcome | fpdt_parser.py:24-51 | the same for the whole parse |
| Fpdt.TimestampPastEnd | fpdt_parser.py:45-47 | a timestamp record whose 32 bytes run past the end is still reported, and the walk ends past the end |
| Fpdt.WalkExtends | fpdt_parser.py:26-51 | records are only appended: the result starts with the records reported before |
| Fpdt.DeadBeefExample | fpdt_parser.py:35-39 | a table holding one S3 performance table pointer record with pointer 0xDEADBEEF reports that record and ends at 52 |
| Fpdt.CarryOverTable | fpdt_parser.py:30-51 | any table whose body holds a basic boot pointer record with pointer 42 and then a record of unknown type 7 reports both, the second stepped over by the carried 16 bytes, and ends at 68 |
| Fpdt.CarryOverExample | fpdt_parser.py:30-51 | a basic boot pointer record followed by a record of unknown type 7 reports both, the second stepped over by the carried 16 bytes |

## Left out

- Command-line handling, file reading and `main` (both files) are not modelled: the buffer is a parameter.
- Graph rendering with graphviz (`Digraph`, `render`) and the final message are not modelled; the graph is returned as the ordered node and edge statements.
- Pptt.ParsePptt: node ids are kept as numbers rather than strings. Graphviz's merging of repeated ids (a parent or next-level reference naming a node's offset) is not modelled.
- Pptt.ParsePptt: the interleaving of node and edge statements is not kept, only the order within each kind. Node and edge statements are two separate sequences, so rendering order is not modelled.
- The `print` output of `parse_fpdt` is modelled, on paths that do not raise, as the returned sequence of `Record`s (kind and pointer, timestamp, or unknown type number); the `hex` formatting of the pointer is not modelled.
- Fpdt.ParseFpdt: on a path that raises, the lines printed before the exception are not part of the result: neither the records reported by earlier iterations nor the kind name ("FBPT", "S3PT", "MBPT") a pointer record prints before its pointer read fails. The result is then only `Err(OutOfBounds)`.
- Fpdt.ParseFpdt: where the source loop never returns (an unknown first record with a carried length of 0), the method stops at the first repeated state and returns `Spins` with the records reported so far, instead of looping forever and printing the same type endlessly.
- Header fields other than the signature (length, revision, checksum, OEM fields, creator) are not modelled, since both walkers unpack the whole header but use only the signature; the table's own length field is not used to bound the walk, in line with the code.
- The Python exception messages are modelled as the `Error` constructors, not as strings; `struct.error` on an out-of-bounds read is `OutOfBounds`.
