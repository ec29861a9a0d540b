/** The namespaced annotation and label keys: `<group>/<suffix>`, where the
    group is the configured API group (by default `cluster.x-k8s.io`,
    overridable through the CAPI_GROUP environment variable, which is read
    outside this model and passed in here as `group`). */
module Keys {
  import ProviderId

  const MinSizeSuffix := "cluster-api-autoscaler-node-group-min-size"
  const MaxSizeSuffix := "cluster-api-autoscaler-node-group-max-size"
  const DeleteMachineSuffix := "delete-machine"
  const MachineSuffix := "machine"
  const ClusterNameSuffix := "cluster-name"

  /** `<group>/<suffix>`: the group, one `/`, then the suffix. */
  function GroupKey(group: string, suffix: string): (key: string)
    ensures |key| == |group| + 1 + |suffix|
    ensures key[..|group|] == group && key[|group|] == '/' && key[|group| + 1..] == suffix
  {
    group + "/" + suffix
  }

  function NodeGroupMinSizeAnnotationKey(group: string): (key: string)
    ensures |key| == |group| + 1 + |MinSizeSuffix|
    ensures key[..|group| + 1] == group + "/" && key[|group| + 1..] == MinSizeSuffix
  {
    GroupKey(group, MinSizeSuffix)
  }

  function NodeGroupMaxSizeAnnotationKey(group: string): (key: string)
    ensures |key| == |group| + 1 + |MaxSizeSuffix|
    ensures key[..|group| + 1] == group + "/" && key[|group| + 1..] == MaxSizeSuffix
  {
    GroupKey(group, MaxSizeSuffix)
  }

  function MachineDeleteAnnotationKey(group: string): (key: string)
    ensures |key| == |group| + 1 + |DeleteMachineSuffix|
    ensures key[..|group| + 1] == group + "/" && key[|group| + 1..] == DeleteMachineSuffix
  {
    GroupKey(group, DeleteMachineSuffix)
  }

  function MachineAnnotationKey(group: string): (key: string)
    ensures |key| == |group| + 1 + |MachineSuffix|
    ensures key[..|group| + 1] == group + "/" && key[|group| + 1..] == MachineSuffix
  {
    GroupKey(group, MachineSuffix)
  }

  function ClusterNameLabel(group: string): (key: string)
    ensures |key| == |group| + 1 + |ClusterNameSuffix|
    ensures key[..|group| + 1] == group + "/" && key[|group| + 1..] == ClusterNameSuffix
  {
    GroupKey(group, ClusterNameSuffix)
  }

  /** A key starts with its group and a `/`, and, when the suffix holds no
      `/`, the segment after its last `/` is exactly the suffix, whatever the
      group contains. */
  lemma {:induction false} GroupKeyParts(group: string, suffix: string)
    requires '/' !in suffix
    ensures GroupKey(group, suffix)[..|group| + 1] == group + "/"
    ensures ProviderId.NormalizedProviderString(GroupKey(group, suffix)) == suffix
  {
    ProviderId.NormalizeAfterLastSlash(group, suffix);
  }

  /** Keys built from `/`-free suffixes determine group and suffix. */
  lemma {:induction false} GroupKeyInjective(g1: string, s1: string, g2: string, s2: string)
    requires '/' !in s1 && '/' !in s2
    ensures GroupKey(g1, s1) == GroupKey(g2, s2) <==> g1 == g2 && s1 == s2
  {
    if GroupKey(g1, s1) == GroupKey(g2, s2) {
      GroupKeyParts(g1, s1);
      GroupKeyParts(g2, s2);
      assert |g1| == |g2|;
      assert g1 == GroupKey(g1, s1)[..|g1|];
    }
  }

  /** Under one group the five keys are pairwise distinct, so no annotation
      or label read by one resolver can be mistaken for another's. */
  lemma KeysDistinct(group: string)
    ensures NodeGroupMinSizeAnnotationKey(group) != NodeGroupMaxSizeAnnotationKey(group)
    ensures NodeGroupMinSizeAnnotationKey(group) != MachineDeleteAnnotationKey(group)
    ensures NodeGroupMinSizeAnnotationKey(group) != MachineAnnotationKey(group)
    ensures NodeGroupMinSizeAnnotationKey(group) != ClusterNameLabel(group)
    ensures NodeGroupMaxSizeAnnotationKey(group) != MachineDeleteAnnotationKey(group)
    ensures NodeGroupMaxSizeAnnotationKey(group) != MachineAnnotationKey(group)
    ensures NodeGroupMaxSizeAnnotationKey(group) != ClusterNameLabel(group)
    ensures MachineDeleteAnnotationKey(group) != MachineAnnotationKey(group)
    ensures MachineDeleteAnnotationKey(group) != ClusterNameLabel(group)
    ensures MachineAnnotationKey(group) != ClusterNameLabel(group)
  {
    var n := |group| + 1;
    assert NodeGroupMinSizeAnnotationKey(group)[n + 36] != NodeGroupMaxSizeAnnotationKey(group)[n + 36];
  }
}
