/** The labels `parse_pptt` gives the nodes of the topology graph.

    A label is kept as structured data (which rule chose it, and the numbers
    and bit fields it shows); `CaptionText` spells it exactly as the source's
    string building does. */
module PpttCaption {
  import opened Decimal

  /** Cache type, attribute bits 2-3: "DCache", "ICache" or "Cache". */
  datatype CacheType = DataCache | InstructionCache | UnifiedCache

  /** Allocation type, attribute bits 0-1: "RA", "WA" or "RWA". */
  datatype Allocation = ReadAllocate | WriteAllocate | ReadWriteAllocate

  /** Write policy, attribute bit 4: "-WB" or "-WT". */
  datatype WritePolicy = WriteBack | WriteThrough

  datatype Caption =
    | Package
    | Cpu(processorId: nat)
    | FakeCluster
    | CacheInfo(kind: CacheType, size: nat, allocation: Allocation, policy: WritePolicy)

  /** Bit `k` of a 32-bit flags field: `(flags >> k) & 1 == 1`. */
  predicate FlagBit(flags: bv32, k: bv32)
    requires k < 32
  {
    (flags >> k) & 1 == 1
  }

  /** Label and fill style of a processor hierarchy node. The rules are tried
      in order: the physical package boundary (bit 0) wins whatever the other
      bits are; then "ACPI processor ID valid" (bit 1) gives "cpu<ID>", filled
      exactly when bit 3 is also set; anything else is a synthetic cluster. */
  function ProcessorCaption(flags: bv32, processorId: nat): (r: (Caption, bool))
    ensures r.0 == Package <==> FlagBit(flags, 0)
    ensures r.0 == Cpu(processorId) <==> !FlagBit(flags, 0) && FlagBit(flags, 1)
    ensures r.0 == FakeCluster <==> !FlagBit(flags, 0) && !FlagBit(flags, 1)
    ensures r.1 <==> !FlagBit(flags, 0) && FlagBit(flags, 1) && FlagBit(flags, 3)
  {
    if FlagBit(flags, 0) then (Package, false)
    else if FlagBit(flags, 1) then (Cpu(processorId), FlagBit(flags, 3))
    else (FakeCluster, false)
  }

  function CacheTypeOf(attributes: bv8): (t: CacheType)
    ensures t == DataCache <==> (attributes >> 2) & 3 == 0
    ensures t == InstructionCache <==> (attributes >> 2) & 3 == 1
    ensures t == UnifiedCache <==> (attributes >> 2) & 3 >= 2
  {
    if (attributes >> 2) & 3 == 0 then DataCache
    else if (attributes >> 2) & 3 == 1 then InstructionCache
    else UnifiedCache
  }

  function AllocationOf(attributes: bv8): (a: Allocation)
    ensures a == ReadAllocate <==> attributes & 3 == 0
    ensures a == WriteAllocate <==> attributes & 3 == 1
    ensures a == ReadWriteAllocate <==> attributes & 3 >= 2
  {
    if (attributes >> 0) & 3 == 0 then ReadAllocate
    else if (attributes >> 0) & 3 == 1 then WriteAllocate
    else ReadWriteAllocate
  }

  /** The source tests bit 4 for 0 and then for 1; the bit has no third
      value, so one of the two policies is always chosen. */
  function WritePolicyOf(attributes: bv8): (p: WritePolicy)
    ensures p == WriteBack <==> (attributes >> 4) & 1 == 0
    ensures p == WriteThrough <==> (attributes >> 4) & 1 == 1
  {
    if (attributes >> 4) & 1 == 0 then WriteBack else WriteThrough
  }

  /** Label of a cache node from its attributes byte and its size. */
  function CacheCaption(attributes: bv8, size: nat): Caption {
    CacheInfo(CacheTypeOf(attributes), size, AllocationOf(attributes), WritePolicyOf(attributes))
  }

  // ---------------------------------------------------------------------
  // Text

  function CacheTypeText(t: CacheType): string {
    match t
    case DataCache => "DCache"
    case InstructionCache => "ICache"
    case UnifiedCache => "Cache"
  }

  function AllocationText(a: Allocation): string {
    match a
    case ReadAllocate => "RA"
    case WriteAllocate => "WA"
    case ReadWriteAllocate => "RWA"
  }

  function WritePolicyText(p: WritePolicy): string {
    match p
    case WriteBack => "-WB"
    case WriteThrough => "-WT"
  }

  /** Cache size in bytes, scaled by integer division. */
  function SizeText(size: nat): string {
    if size < 1024 then NatToString(size) + " B"
    else if size < 1024 * 1024 then NatToString(size / 1024) + " KB"
    else NatToString(size / (1024 * 1024)) + " MB"
  }

  /** The label text, as the source's string building spells it. */
  function CaptionText(c: Caption): string {
    match c
    case Package => "Package"
    case Cpu(id) => "cpu" + NatToString(id)
    case FakeCluster => "Fake Cluster"
    case CacheInfo(t, size, a, p) =>
      CacheTypeText(t) + "\n" + SizeText(size) + "\n" + AllocationText(a) + WritePolicyText(p)
  }

  /** The processor ID can be read back from the text of a "cpu" label. */
  lemma CpuTextNamesProcessor(processorId: nat)
    ensures var text := CaptionText(Cpu(processorId));
      && 3 < |text| && text[..3] == "cpu"
      && (forall i :: 3 <= i < |text| ==> IsDigit(text[i]))
      && DecimalValue(text[3..]) == processorId
  {
    var text := CaptionText(Cpu(processorId));
    assert text[3..] == NatToString(processorId);
    DecimalRoundTrip(processorId);
  }

  /** Bytes per unit of the size units the label uses. */
  function UnitScale(unit: string): nat {
    if unit == "B" then 1 else if unit == "KB" then 1024 else 1024 * 1024
  }

  /** In "<digits> <rest>" the first blank comes right after the digits. */
  lemma FirstBlank(a: string, b: string)
    requires forall i :: 0 <= i < |a| ==> IsDigit(a[i])
    ensures (a + " " + b)[|a|] == ' '
    ensures forall i :: 0 <= i < |a| ==> (a + " " + b)[i] != ' '
  {
    forall i | 0 <= i < |a| ensures (a + " " + b)[i] != ' ' {
      assert (a + " " + b)[i] == a[i];
    }
  }

  /** Text "<digits> <rest>" splits uniquely at its first blank. */
  lemma SplitAtBlank(a: string, b: string, c: string, d: string)
    requires forall i :: 0 <= i < |a| ==> IsDigit(a[i])
    requires forall i :: 0 <= i < |c| ==> IsDigit(c[i])
    requires a + " " + b == c + " " + d
    ensures a == c && b == d
  {
    var s := a + " " + b;
    FirstBlank(a, b);
    FirstBlank(c, d);
    assert |a| == |c|;
    assert a == s[..|a|] == c;
    assert b == s[|a| + 1..] == d;
  }

  /** If a size text reads "<shown> <unit>", then the number and unit are
      the ones chosen for `size`. */
  lemma SizeTextParts(size: nat, shown: nat, unit: string)
    requires SizeText(size) == NatToString(shown) + " " + unit
    ensures size < 1024 ==> shown == size && unit == "B"
    ensures 1024 <= size < 1024 * 1024 ==> shown == size / 1024 && unit == "KB"
    ensures 1024 * 1024 <= size ==> shown == size / (1024 * 1024) && unit == "MB"
  {
    if size < 1024 {
      SplitAtBlank(NatToString(shown), unit, NatToString(size), "B");
      NatToStringInjective(shown, size);
    } else if size < 1024 * 1024 {
      SplitAtBlank(NatToString(shown), unit, NatToString(size / 1024), "KB");
      NatToStringInjective(shown, size / 1024);
    } else {
      SplitAtBlank(NatToString(shown), unit, NatToString(size / (1024 * 1024)), "MB");
      NatToStringInjective(shown, size / (1024 * 1024));
    }
  }

  /** The unit choice and integer division of the size text, as arithmetic. */
  lemma ScaledDown(size: nat, shown: nat, unit: string)
    requires size < 1024 ==> shown == size && unit == "B"
    requires 1024 <= size < 1024 * 1024 ==> shown == size / 1024 && unit == "KB"
    requires 1024 * 1024 <= size ==> shown == size / (1024 * 1024) && unit == "MB"
    ensures unit == "B" || unit == "KB" || unit == "MB"
    ensures shown * UnitScale(unit) <= size < (shown + 1) * UnitScale(unit)
    ensures unit == "B" <==> size < 1024
    ensures unit == "KB" <==> 1024 <= size < 1024 * 1024
    ensures unit == "MB" <==> 1024 * 1024 <= size
    ensures unit != "MB" ==> shown < 1024
  {
  }

  /** Reading a size text back: it names one of the units B, KB, MB, and the
      number shown is the size in that unit rounded down. B is used exactly
      below 1024 bytes, KB exactly below 1024 * 1024, MB from there on, so
      only an MB figure can reach 1024. */
  lemma SizeTextMeaning(size: nat, shown: nat, unit: string)
    requires SizeText(size) == NatToString(shown) + " " + unit
    ensures unit == "B" || unit == "KB" || unit == "MB"
    ensures shown * UnitScale(unit) <= size < (shown + 1) * UnitScale(unit)
    ensures unit == "B" <==> size < 1024
    ensures unit == "KB" <==> 1024 <= size < 1024 * 1024
    ensures unit == "MB" <==> 1024 * 1024 <= size
    ensures unit != "MB" ==> shown < 1024
  {
    SizeTextParts(size, shown, unit);
    ScaledDown(size, shown, unit);
  }

  /** The boundary cases of the size scaling. */
  lemma SizeTextExamples()
    ensures SizeText(512) == "512 B"
    ensures SizeText(2048) == "2 KB"
    ensures SizeText(1048576) == "1 MB"
  {
    assert NatToString(5) == "5" && NatToString(51) == "51" && NatToString(512) == "512";
    assert NatToString(2) == "2" && NatToString(1) == "1";
  }
}
