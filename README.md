# Cluster API node-group metadata resolvers

This project models, in Dafny, the helper resolvers that the Cluster API
provider of the Kubernetes cluster autoscaler uses to turn the loosely typed
metadata of machines, machine sets and machine deployments into node-group
settings:

- the min/max scaling bounds, read from the node-group size annotations;
- the scale-from-zero capacity (CPU, memory, GPU, max pods), read from fixed
  `machine.openshift.io/...` annotations;
- the owning machine set or machine deployment, found among the owner
  references;
- the cluster a resource belongs to, read from `spec.clusterName` or from the
  `<group>/cluster-name` label;
- the normalised provider ID, which is the text after the last `/`;
- the `<group>/<suffix>` annotation and label keys.

Every resolver is a pure function, so the model is made of datatypes,
functions and lemmas, one module per component:

- `Metadata` holds the shared value types. A resource object is its labels,
  its annotations, its owner references and a three-state `spec.clusterName`
  slot (`Absent | Str(s) | Malformed`).
- `Decimal` models Go's `strconv.Atoi` and `strconv.ParseInt(s, 10, 0)` on a
  64-bit platform. Such a value is an optional sign, then one or more ASCII
  digits, and must lie within the int64 range. The module also holds the
  `strconv.Itoa` rendering and int64 wrap-around.
- `ProviderId` models `strings.Split` on `/`, `strings.Join` and the
  normaliser.
- `Keys`, `ScalingBounds`, `Capacity`, `Owners` and `ClusterName` hold one
  resolver group each.

The API group, which the source reads from the CAPI_GROUP environment
variable, is a `group` parameter. The min-size and max-size annotation keys
are taken to be the ones the key builders produce for that group. The
quantity parser of the Kubernetes API machinery is a function parameter
`string -> Option<int>`. Quantities are integers, and memory is counted in
bytes.

Three behaviours of the code are easy to misread:

- A missing min or max annotation is not an error. It reads as 0, because
  `parseScalingBounds` lets `errMissingMinAnnotation` and
  `errMissingMaxAnnotation` through. So no annotations at all gives bounds
  (0, 0), not a "missing minimum" error. Only min = "3" gives an invalid max.
- A `spec.clusterName` that exists but cannot be read as a string makes
  `clusterNameFromResource` return "" at once. It does not fall back to the
  cluster-name label.
- The MiB-to-bytes multiplication in `parseMemoryCapacity` is an int64
  multiplication with no overflow guard. The model wraps it as Go does.
  `MemoryRoundTrip` proves the result exact for -2^43 <= n < 2^43.
  `MemoryOverflowWraps` shows that 2^43 MiB wraps to the most negative int64.

## Model

| member | source | states |
|---|---|---|
| Metadata.Get | cluster-autoscaler/cloudprovider/clusterapi/clusterapi_utils.go:159-160 | a missing key reads as "", a present one as its value (Go map indexing) |
| Decimal.ParseInt | cluster-autoscaler/cloudprovider/clusterapi/clusterapi_utils.go:80 | an accepted string is an optional sign followed only by digits, at least one, and its value lies in the int64 range |
| Decimal.ParseFormatInt | cluster-autoscaler/cloudprovider/clusterapi/clusterapi_utils.go:80-84 | every int64 rendered in decimal reads back as itself |
| Decimal.ForeignCharRejected | cluster-autoscaler/cloudprovider/clusterapi/clusterapi_utils.go:80-83 | a character that is neither a digit nor a leading sign (".", a unit letter, a space) makes the value unreadable |
| Decimal.NoDigitsRejected | cluster-autoscaler/cloudprovider/clusterapi/clusterapi_utils.go:80-83 | "", "-" and "+" are not integers |
| Decimal.ParseSignedDigits | cluster-autoscaler/cloudprovider/clusterapi/clusterapi_utils.go:80 | every optional sign followed by digits reads as the signed value of the digits (leading zeros and "+" allowed), and is accepted exactly when that value lies in the int64 range |
| Decimal.ParseIntExamples | cluster-autoscaler/cloudprovider/clusterapi/clusterapi_utils.go:80 | "+5" reads as 5, "007" as 7 and "-0" as 0 |
| Decimal.Wrap64 | cluster-autoscaler/cloudprovider/clusterapi/clusterapi_utils.go:189 | the int64 result of wrapping arithmetic: in range, equal to the exact value when that fits, congruent to it modulo 2^64 |
| ProviderId.Split | cluster-autoscaler/cloudprovider/clusterapi/clusterapi_utils.go:154 | at least one piece, and no piece holds a "/" |
| ProviderId.JoinSplit | cluster-autoscaler/cloudprovider/clusterapi/clusterapi_utils.go:154 | joining the split pieces with "/" gives back the input |
| ProviderId.SplitLastIsLastSegment | cluster-autoscaler/cloudprovider/clusterapi/clusterapi_utils.go:154-155 | the last piece of the split is the text after the last "/" |
| ProviderId.LastSegmentUnique | cluster-autoscaler/cloudprovider/clusterapi/clusterapi_utils.go:151-156 | a string has exactly one "after the last slash" segment |
| ProviderId.NormalizedProviderString | cluster-autoscaler/cloudprovider/clusterapi/clusterapi_utils.go:151-156 | the result has no "/", is a suffix of the input, and is the whole input or is preceded by a "/" |
| ProviderId.NormalizeAfterLastSlash | cluster-autoscaler/cloudprovider/clusterapi/clusterapi_utils.go:151-156 | whatever precedes the final "/" is dropped: normalising p + "/" + q gives q when q has no "/" |
| ProviderId.NormalizeNoSlash | cluster-autoscaler/cloudprovider/clusterapi/clusterapi_utils.go:151-156 | an ID without "/" is returned unchanged |
| ProviderId.NormalizeTrailingSlash | cluster-autoscaler/cloudprovider/clusterapi/clusterapi_utils.go:151-156 | the empty ID and an ID ending in "/" normalise to "" |
| ProviderId.NormalizeIdempotent | cluster-autoscaler/cloudprovider/clusterapi/clusterapi_utils.go:151-156 | normalising twice is normalising once |
| ProviderId.NormalizeExamples | cluster-autoscaler/cloudprovider/clusterapi/clusterapi_utils.go:151-156 | "aws:///us-east-1a/i-1234" gives "i-1234"; "i-1234" gives itself; "" gives "" |
| Keys.GroupKey | cluster-autoscaler/cloudprovider/clusterapi/clusterapi_utils.go:224-259 | a key is the group, one "/", then the suffix |
| Keys.NodeGroupMinSizeAnnotationKey | cluster-autoscaler/cloudprovider/clusterapi/clusterapi_utils.go:221-227 | the group, "/", then "cluster-api-autoscaler-node-group-min-size" |
| Keys.NodeGroupMaxSizeAnnotationKey | cluster-autoscaler/cloudprovider/clusterapi/clusterapi_utils.go:229-235 | the group, "/", then "cluster-api-autoscaler-node-group-max-size" |
| Keys.MachineDeleteAnnotationKey | cluster-autoscaler/cloudprovider/clusterapi/clusterapi_utils.go:237-243 | the group, "/", then "delete-machine" |
| Keys.MachineAnnotationKey | cluster-autoscaler/cloudprovider/clusterapi/clusterapi_utils.go:245-251 | the group, "/", then "machine" |
| Keys.ClusterNameLabel | cluster-autoscaler/cloudprovider/clusterapi/clusterapi_utils.go:253-259 | the group, "/", then "cluster-name" |
| Keys.GroupKeyParts | cluster-autoscaler/cloudprovider/clusterapi/clusterapi_utils.go:224-259 | every key starts with the group and "/", and its segment after the last "/" is the fixed suffix |
| Keys.GroupKeyInjective | cluster-autoscaler/cloudprovider/clusterapi/clusterapi_utils.go:224-259 | two keys are equal exactly when their groups and suffixes are |
| Keys.KeysDistinct | cluster-autoscaler/cloudprovider/clusterapi/clusterapi_utils.go:224-259 | the min-size, max-size, delete-machine, machine and cluster-name keys of one group are pairwise distinct |
| ScalingBounds.ParseSize | cluster-autoscaler/cloudprovider/clusterapi/clusterapi_utils.go:75-101 | minSize/maxSize: Missing iff the key is absent, Invalid iff the value is not a base-10 int, otherwise the int64 value it parses to |
| ScalingBounds.MinSize | cluster-autoscaler/cloudprovider/clusterapi/clusterapi_utils.go:71-85 | Missing iff the min-size key is absent, Invalid iff its value is not a base-10 int, otherwise the value it parses to |
| ScalingBounds.MaxSize | cluster-autoscaler/cloudprovider/clusterapi/clusterapi_utils.go:87-101 | Missing iff the max-size key is absent, Invalid iff its value is not a base-10 int, otherwise the value it parses to |
| ScalingBounds.ParseScalingBounds | cluster-autoscaler/cloudprovider/clusterapi/clusterapi_utils.go:103-127 | on success 0 <= min <= max. A missing bound reads as 0. Invalid min iff the min is unreadable or negative. Invalid max iff the min is fine and the max is unreadable, negative or below the min. Success returns the two values read |
| ScalingBounds.BoundsRoundTrip | cluster-autoscaler/cloudprovider/clusterapi/clusterapi_utils.go:75-127 | any 0 <= lo <= hi in int64, written as decimal annotations, reads back as exactly (lo, hi), whatever other annotations are present |
| ScalingBounds.MalformedMinReportedFirst | cluster-autoscaler/cloudprovider/clusterapi/clusterapi_utils.go:104-107 | a non-integer min is reported as invalid min before the max is examined |
| ScalingBounds.MissingDefaultsToZero | cluster-autoscaler/cloudprovider/clusterapi/clusterapi_utils.go:75-127 | no annotations gives (0, 0); only max "5" gives (0, 5); only min "3" gives invalid max |
| ScalingBounds.RejectedBounds | cluster-autoscaler/cloudprovider/clusterapi/clusterapi_utils.go:103-124 | min "3" with max "1" gives invalid max; min "-1" and min "abc" give invalid min |
| Capacity.ParseKey | cluster-autoscaler/cloudprovider/clusterapi/clusterapi_utils.go:168-173 | an absent or empty value is zero with no error; any other value gives exactly the quantity parser's verdict, and its error comes with zero |
| Capacity.ParseCPUCapacity | cluster-autoscaler/cloudprovider/clusterapi/clusterapi_utils.go:175-177 | an absent or empty vCPU annotation is zero with no error; otherwise the quantity parser's verdict, with zero on error |
| Capacity.ParseGPUCapacity | cluster-autoscaler/cloudprovider/clusterapi/clusterapi_utils.go:194-196 | an absent or empty GPU annotation is zero with no error; otherwise the quantity parser's verdict, with zero on error |
| Capacity.ParseMaxPodsCapacity | cluster-autoscaler/cloudprovider/clusterapi/clusterapi_utils.go:198-200 | an absent or empty maxPods annotation is zero with no error; otherwise the quantity parser's verdict, with zero on error |
| Capacity.ParseMemoryCapacity | cluster-autoscaler/cloudprovider/clusterapi/clusterapi_utils.go:179-192 | absent or empty gives zero with no error. It errs (with zero) iff the value is not a base-10 int64. Otherwise it gives an int64 congruent to n * 2^20 |
| Capacity.ScaleFromZeroEnabled | cluster-autoscaler/cloudprovider/clusterapi/clusterapi_utils.go:158-166 | true iff the CPU and memory annotations are both present and non-empty |
| Capacity.MemoryRoundTrip | cluster-autoscaler/cloudprovider/clusterapi/clusterapi_utils.go:184-189 | n MiB, written in decimal with -2^43 <= n < 2^43, becomes exactly n * 2^20 bytes, negative n included |
| Capacity.MemoryOverflowWraps | cluster-autoscaler/cloudprovider/clusterapi/clusterapi_utils.go:189 | 2^43 MiB wraps to the most negative int64, because the multiplication is unguarded |
| Capacity.MemoryExamples | cluster-autoscaler/cloudprovider/clusterapi/clusterapi_utils.go:179-192 | "1024" gives 1024 * 2^20 bytes. No key gives zero. "1.5" and "1Gi" give an error with zero. "-1" gives -2^20 |
| Capacity.ScaleFromZeroIgnoresOtherKeys | cluster-autoscaler/cloudprovider/clusterapi/clusterapi_utils.go:158-166 | setting any annotation other than CPU and memory leaves scale-from-zero unchanged |
| Capacity.ScaleFromZeroIgnoresGpuAndMaxPods | cluster-autoscaler/cloudprovider/clusterapi/clusterapi_utils.go:158-166 | the GPU and max-pods annotations have no effect on scale-from-zero |
| Capacity.DisabledMeansDefaultCapacity | cluster-autoscaler/cloudprovider/clusterapi/clusterapi_utils.go:158-192 | when scale-from-zero is off, the CPU or the memory capacity is the zero default |
| Capacity.AbsentCapacityIsZero | cluster-autoscaler/cloudprovider/clusterapi/clusterapi_utils.go:168-200 | absent or empty CPU, GPU and max-pods annotations give zero with no error, whatever the quantity parser |
| Owners.GetOwnerForKind | cluster-autoscaler/cloudprovider/clusterapi/clusterapi_utils.go:129-137 | absent iff no reference has the kind and a non-empty name; otherwise the first such reference in order |
| Owners.MachineOwnerRef | cluster-autoscaler/cloudprovider/clusterapi/clusterapi_utils.go:139-141 | the first MachineSet reference with a non-empty name among the machine's references, in order; absent iff there is none |
| Owners.MachineSetOwnerRef | cluster-autoscaler/cloudprovider/clusterapi/clusterapi_utils.go:143-145 | the first MachineDeployment reference with a non-empty name among the machine set's references, in order; absent iff there is none |
| Owners.MachineSetHasMachineDeploymentOwnerRef | cluster-autoscaler/cloudprovider/clusterapi/clusterapi_utils.go:147-149 | true iff some reference is a MachineDeployment with a non-empty name |
| Owners.GetOwnerForKindAppend | cluster-autoscaler/cloudprovider/clusterapi/clusterapi_utils.go:130-136 | over a concatenation the lookup answers from the first part when it can, else from the second |
| Owners.OwnerExamples | cluster-autoscaler/cloudprovider/clusterapi/clusterapi_utils.go:129-137 | an empty list has no owner; an empty-named reference of the kind is skipped; the earlier of two owners wins |
| ClusterName.ClusterNameFromResource | cluster-autoscaler/cloudprovider/clusterapi/clusterapi_utils.go:202-219 | a malformed field gives ""; a present field, even an empty one, gives its value; an absent field gives the cluster-name label, or "" |
| ClusterName.LabelsIgnoredUnlessFieldAbsent | cluster-autoscaler/cloudprovider/clusterapi/clusterapi_utils.go:204-211 | with the field present or malformed, the labels do not affect the answer |
| ClusterName.ClusterNameProvenance | cluster-autoscaler/cloudprovider/clusterapi/clusterapi_utils.go:202-219 | a non-empty answer is the field's value, or, with the field absent, the cluster-name label's value |

## Left out

- The grammar and the value of `resource.ParseQuantity` (lines 170 and 189) belong to the Kubernetes API machinery, which is not part of this model. The parser is a parameter. It is taken to return the zero quantity with its error, as that library does.
- `resource.Quantity` is an integer, not a decimal with a format. The DecimalSI format tag of the memory quantity is not modelled.
- `getCAPIGroup`, its CAPI_GROUP environment variable and its default group are not part of this model. The group is a parameter.
- The min-size and max-size key variables and the kind names are defined in other files. The keys are taken from the builders, and the kinds are the constants "MachineSet" and "MachineDeployment".
- Error messages and wrapping (`errors.Wrapf`, `fmt.Errorf`) are not modelled. Errors are tags. The sentinel errors for missing annotations become the `Missing` tag.
- `DeepCopy` has no observable effect on values.
- The deprecated `cluster.k8s.io` key constants are declared but not read in this file.
- `unstructured.NestedString` is reduced to the three states of the `spec.clusterName` slot.
- Go's `int` is taken to be 64 bits wide.
- Go strings are byte sequences; here a string is a sequence of Unicode characters. For valid UTF-8 the key comparisons, the ASCII digit test and the split on "/" agree, but byte strings that are not valid UTF-8 cannot be represented.
