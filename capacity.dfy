/** Per-instance capacity declared through annotations, used to plan a
    scale-up of a node group that has no instances yet. Quantities are
    integers: memory in bytes, the others in whatever unit the quantity
    parser reports. */
module Capacity {
  import opened Metadata
  import opened Decimal

  const CpuKey := "machine.openshift.io/vCPU"
  const MemoryKey := "machine.openshift.io/memoryMb"
  const GpuKey := "machine.openshift.io/GPU"
  const MaxPodsKey := "machine.openshift.io/maxPods"

  /** One mebibyte in bytes, 2^20. */
  const MiB: int := 0x10_0000

  datatype CapacityError = InvalidQuantity | NotAnInteger

  /** Go's `(resource.Quantity, error)` pair. */
  datatype Parsed = Parsed(quantity: int, err: Option<CapacityError>)

  /** The quantity grammar lives outside this model: a parser is passed in,
      and None stands for its error. */
  type QuantityParser = string -> Option<int>

  /** `parseKey`: an absent or empty annotation is the zero quantity; any
      other value is handed to the quantity parser and its verdict is
      returned as is. */
  function ParseKey(annotations: StringMap, key: string, parseQuantity: QuantityParser): (r: Parsed)
    ensures (key !in annotations || annotations[key] == "") ==> r == Parsed(0, None)
    ensures key in annotations && annotations[key] != "" ==>
      match parseQuantity(annotations[key])
      case Some(q) => r == Parsed(q, None)
      case None => r == Parsed(0, Some(InvalidQuantity))
  {
    if key in annotations && annotations[key] != "" then
      match parseQuantity(annotations[key])
      case Some(q) => Parsed(q, None)
      case None => Parsed(0, Some(InvalidQuantity))
    else Parsed(0, None)
  }

  function ParseCPUCapacity(annotations: StringMap, parseQuantity: QuantityParser): (r: Parsed)
    ensures Get(annotations, CpuKey) == "" ==> r == Parsed(0, None)
    ensures Get(annotations, CpuKey) != "" ==>
      match parseQuantity(annotations[CpuKey])
      case Some(q) => r == Parsed(q, None)
      case None => r == Parsed(0, Some(InvalidQuantity))
  {
    ParseKey(annotations, CpuKey, parseQuantity)
  }

  function ParseGPUCapacity(annotations: StringMap, parseQuantity: QuantityParser): (r: Parsed)
    ensures Get(annotations, GpuKey) == "" ==> r == Parsed(0, None)
    ensures Get(annotations, GpuKey) != "" ==>
      match parseQuantity(annotations[GpuKey])
      case Some(q) => r == Parsed(q, None)
      case None => r == Parsed(0, Some(InvalidQuantity))
  {
    ParseKey(annotations, GpuKey, parseQuantity)
  }

  function ParseMaxPodsCapacity(annotations: StringMap, parseQuantity: QuantityParser): (r: Parsed)
    ensures Get(annotations, MaxPodsKey) == "" ==> r == Parsed(0, None)
    ensures Get(annotations, MaxPodsKey) != "" ==>
      match parseQuantity(annotations[MaxPodsKey])
      case Some(q) => r == Parsed(q, None)
      case None => r == Parsed(0, Some(InvalidQuantity))
  {
    ParseKey(annotations, MaxPodsKey, parseQuantity)
  }

  /** `parseMemoryCapacity`: the value must be a plain base-10 int64 counting
      MiB; it is turned into bytes by an int64 multiplication that wraps. */
  function ParseMemoryCapacity(annotations: StringMap): (r: Parsed)
    ensures (MemoryKey !in annotations || annotations[MemoryKey] == "") ==> r == Parsed(0, None)
    ensures r.err.Some? <==> MemoryKey in annotations && annotations[MemoryKey] != "" && ParseInt(annotations[MemoryKey]).None?
    ensures r.err.Some? ==> r == Parsed(0, Some(NotAnInteger))
    ensures InInt64(r.quantity)
    ensures r.err.None? && MemoryKey in annotations && annotations[MemoryKey] != "" ==>
      (r.quantity - ParseInt(annotations[MemoryKey]).value * MiB) % TwoPow64 == 0
  {
    if MemoryKey in annotations && annotations[MemoryKey] != "" then
      match ParseInt(annotations[MemoryKey])
      case None => Parsed(0, Some(NotAnInteger))
      case Some(n) => Parsed(Wrap64(n * MiB), None)
    else Parsed(0, None)
  }

  /** `scaleFromZeroEnabled`: both the CPU and the memory annotation are
      present and non-empty. */
  function ScaleFromZeroEnabled(annotations: StringMap): (enabled: bool)
    ensures enabled <==> CpuKey in annotations && annotations[CpuKey] != ""
                         && MemoryKey in annotations && annotations[MemoryKey] != ""
  {
    var cpu := Get(annotations, CpuKey);
    var mem := Get(annotations, MemoryKey);
    cpu != "" && mem != ""
  }

  /** A memory count of n MiB with |n| < 2^43 becomes exactly n * 2^20 bytes. */
  lemma {:induction false} MemoryRoundTrip(n: int, others: StringMap)
    requires -0x800_0000_0000 <= n < 0x800_0000_0000
    ensures ParseMemoryCapacity(others[MemoryKey := FormatInt(n)]) == Parsed(n * MiB, None)
  {
    ParseFormatInt(n);
    assert InInt64(n * MiB);
  }

  /** The source does not guard the MiB-to-bytes multiplication: 2^43 MiB
      wraps to the most negative int64. */
  lemma {:induction false} MemoryOverflowWraps()
    ensures ParseMemoryCapacity(map[MemoryKey := FormatInt(0x800_0000_0000)]) == Parsed(MinInt64, None)
  {
    var n := 0x800_0000_0000;
    ParseFormatInt(n);
    assert n * MiB - MinInt64 == TwoPow64;
    assert Wrap64(n * MiB) == MinInt64;
  }

  /** A memory value with a decimal point or a unit suffix is an error
      with the zero quantity; a negative count is accepted. */
  lemma {:induction false} MemoryExamples()
    ensures ParseMemoryCapacity(map[MemoryKey := "1024"]) == Parsed(1024 * 0x10_0000, None)
    ensures ParseMemoryCapacity(map[]) == Parsed(0, None)
    ensures ParseMemoryCapacity(map[MemoryKey := "1.5"]) == Parsed(0, Some(NotAnInteger))
    ensures ParseMemoryCapacity(map[MemoryKey := "1Gi"]) == Parsed(0, Some(NotAnInteger))
    ensures ParseMemoryCapacity(map[MemoryKey := "-1"]) == Parsed(-0x10_0000, None)
  {
    assert FormatInt(1024) == "1024";
    MemoryRoundTrip(1024, map[]);
    assert FormatInt(-1) == "-1";
    MemoryRoundTrip(-1, map[]);
    ForeignCharRejected("1.5", 1);
    ForeignCharRejected("1Gi", 1);
  }

  /** Only the CPU and memory annotations decide scale-from-zero: setting
      any other annotation, the GPU and max-pods ones included, leaves it as
      it was. */
  lemma ScaleFromZeroIgnoresOtherKeys(annotations: StringMap, key: string, value: string)
    requires key != CpuKey && key != MemoryKey
    ensures ScaleFromZeroEnabled(annotations[key := value]) == ScaleFromZeroEnabled(annotations)
  {
  }

  lemma {:induction false} ScaleFromZeroIgnoresGpuAndMaxPods(annotations: StringMap, gpu: string, maxPods: string)
    ensures ScaleFromZeroEnabled(annotations[GpuKey := gpu][MaxPodsKey := maxPods]) == ScaleFromZeroEnabled(annotations)
  {
    assert |GpuKey| == 24 && |MaxPodsKey| == 28 && |CpuKey| == 25 && |MemoryKey| == 29;
    ScaleFromZeroIgnoresOtherKeys(annotations, GpuKey, gpu);
    ScaleFromZeroIgnoresOtherKeys(annotations[GpuKey := gpu], MaxPodsKey, maxPods);
  }

  /** When scale-from-zero is off, the CPU or the memory capacity is the
      zero default. */
  lemma {:induction false} DisabledMeansDefaultCapacity(annotations: StringMap, parseQuantity: QuantityParser)
    requires !ScaleFromZeroEnabled(annotations)
    ensures ParseCPUCapacity(annotations, parseQuantity) == Parsed(0, None)
         || ParseMemoryCapacity(annotations) == Parsed(0, None)
  {
  }

  /** An absent or empty CPU, GPU or max-pods annotation is zero without an
      error, whatever the quantity parser. */
  lemma {:induction false} AbsentCapacityIsZero(annotations: StringMap, parseQuantity: QuantityParser)
    requires Get(annotations, CpuKey) == "" && Get(annotations, GpuKey) == "" && Get(annotations, MaxPodsKey) == ""
    ensures ParseCPUCapacity(annotations, parseQuantity) == Parsed(0, None)
    ensures ParseGPUCapacity(annotations, parseQuantity) == Parsed(0, None)
    ensures ParseMaxPodsCapacity(annotations, parseQuantity) == Parsed(0, None)
  {
  }
}
