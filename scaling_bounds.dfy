/** Scaling bounds of a node group, read from the min-size and max-size
    annotations of its machine set or machine deployment. */
module ScalingBounds {
  import opened Metadata
  import opened Decimal
  import opened Keys

  /** What `minSize` / `maxSize` report: the annotation is missing, is not a
      base-10 int, or holds a value. */
  datatype SizeAnnotation = Missing | Invalid | Value(n: int)

  /** What `parseScalingBounds` reports. */
  datatype Bounds = Ok(minSize: int, maxSize: int) | InvalidMin | InvalidMax

  /** The lookup shared by `minSize` and `maxSize`, which differ only in the
      key they read and the error they wrap. */
  function ParseSize(annotations: StringMap, key: string): (r: SizeAnnotation)
    ensures r.Missing? <==> key !in annotations
    ensures r.Invalid? <==> key in annotations && ParseInt(annotations[key]).None?
    ensures r.Value? ==> InInt64(r.n) && ParseInt(annotations[key]) == Some(r.n)
  {
    if key !in annotations then Missing
    else
      match ParseInt(annotations[key])
      case None => Invalid
      case Some(n) => Value(n)
  }

  function MinSize(annotations: StringMap, group: string): (r: SizeAnnotation)
    ensures r.Missing? <==> NodeGroupMinSizeAnnotationKey(group) !in annotations
    ensures r.Invalid? <==> NodeGroupMinSizeAnnotationKey(group) in annotations && ParseInt(annotations[NodeGroupMinSizeAnnotationKey(group)]).None?
    ensures r.Value? ==> ParseInt(annotations[NodeGroupMinSizeAnnotationKey(group)]) == Some(r.n)
  {
    ParseSize(annotations, NodeGroupMinSizeAnnotationKey(group))
  }

  function MaxSize(annotations: StringMap, group: string): (r: SizeAnnotation)
    ensures r.Missing? <==> NodeGroupMaxSizeAnnotationKey(group) !in annotations
    ensures r.Invalid? <==> NodeGroupMaxSizeAnnotationKey(group) in annotations && ParseInt(annotations[NodeGroupMaxSizeAnnotationKey(group)]).None?
    ensures r.Value? ==> ParseInt(annotations[NodeGroupMaxSizeAnnotationKey(group)]) == Some(r.n)
  {
    ParseSize(annotations, NodeGroupMaxSizeAnnotationKey(group))
  }

  /** The int the source carries on past a missing-annotation error: zero. */
  function OrZero(a: SizeAnnotation): int
    requires !a.Invalid?
  {
    if a.Value? then a.n else 0
  }

  /** Reference reading of one bound: a missing annotation counts as 0, a
      present one must parse as a base-10 int. */
  function Bound(annotations: StringMap, key: string): Option<int> {
    if key in annotations then ParseInt(annotations[key]) else Some(0)
  }

  /** `parseScalingBounds`: min is read and checked before max is looked at;
      a missing annotation is not an error and reads as 0. */
  function ParseScalingBounds(annotations: StringMap, group: string): (r: Bounds)
    ensures r.Ok? ==> 0 <= r.minSize <= r.maxSize
    ensures
      var lo := Bound(annotations, NodeGroupMinSizeAnnotationKey(group));
      var hi := Bound(annotations, NodeGroupMaxSizeAnnotationKey(group));
      && (r == InvalidMin <==> lo.None? || lo.value < 0)
      && (r == InvalidMax <==> lo.Some? && lo.value >= 0 && (hi.None? || hi.value < 0 || hi.value < lo.value))
      && (r.Ok? ==> lo == Some(r.minSize) && hi == Some(r.maxSize))
  {
    var min := MinSize(annotations, group);
    if min.Invalid? then InvalidMin
    else if OrZero(min) < 0 then InvalidMin
    else
      var max := MaxSize(annotations, group);
      if max.Invalid? then InvalidMax
      else if OrZero(max) < 0 then InvalidMax
      else if OrZero(max) < OrZero(min) then InvalidMax
      else Ok(OrZero(min), OrZero(max))
  }

  /** Any two int64 bounds with 0 <= lo <= hi, written into the annotations in
      decimal, are read back exactly, whatever else the annotations hold. */
  lemma {:induction false} BoundsRoundTrip(group: string, lo: int, hi: int, others: StringMap)
    requires 0 <= lo <= hi <= MaxInt64
    ensures
      var annotations := others[NodeGroupMinSizeAnnotationKey(group) := FormatInt(lo)]
                                [NodeGroupMaxSizeAnnotationKey(group) := FormatInt(hi)];
      ParseScalingBounds(annotations, group) == Ok(lo, hi)
  {
    KeysDistinct(group);
    ParseFormatInt(lo);
    ParseFormatInt(hi);
  }

  /** A min annotation that is not an int is reported as an invalid min
      whatever the max annotation holds. */
  lemma MalformedMinReportedFirst(annotations: StringMap, group: string)
    requires NodeGroupMinSizeAnnotationKey(group) in annotations
    requires ParseInt(annotations[NodeGroupMinSizeAnnotationKey(group)]).None?
    ensures ParseScalingBounds(annotations, group) == InvalidMin
  {
  }

  /** Missing annotations default to 0 without an error. */
  lemma {:induction false} MissingDefaultsToZero(group: string)
    ensures ParseScalingBounds(map[], group) == Ok(0, 0)
    ensures ParseScalingBounds(map[NodeGroupMaxSizeAnnotationKey(group) := "5"], group) == Ok(0, 5)
    ensures ParseScalingBounds(map[NodeGroupMinSizeAnnotationKey(group) := "3"], group) == InvalidMax
  {
    KeysDistinct(group);
    assert FormatInt(5) == "5" && FormatInt(3) == "3";
    ParseFormatInt(5);
    ParseFormatInt(3);
  }

  /** Rejected bounds: max below min, a negative min, a non-integer min. */
  lemma {:induction false} RejectedBounds(group: string)
    ensures ParseScalingBounds(map[NodeGroupMinSizeAnnotationKey(group) := "3",
                                   NodeGroupMaxSizeAnnotationKey(group) := "1"], group) == InvalidMax
    ensures ParseScalingBounds(map[NodeGroupMinSizeAnnotationKey(group) := "-1"], group) == InvalidMin
    ensures ParseScalingBounds(map[NodeGroupMinSizeAnnotationKey(group) := "abc"], group) == InvalidMin
  {
    KeysDistinct(group);
    assert FormatInt(3) == "3" && FormatInt(1) == "1" && FormatInt(-1) == "-1";
    ParseFormatInt(3);
    ParseFormatInt(1);
    ParseFormatInt(-1);
    ForeignCharRejected("abc", 0);
  }
}
