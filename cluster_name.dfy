/** Which cluster a machine, machine set or machine deployment belongs to. */
module ClusterName {
  import opened Metadata
  import Keys

  /** `clusterNameFromResource`: a malformed `spec.clusterName` gives "" at
      once; a present field, even an empty one, wins; otherwise the
      `<group>/cluster-name` label, or "" when there is none. */
  function ClusterNameFromResource(r: Resource, group: string): (name: string)
    ensures r.specClusterName.Malformed? ==> name == ""
    ensures r.specClusterName.Str? ==> name == r.specClusterName.value
    ensures r.specClusterName.Absent? ==>
      (if Keys.ClusterNameLabel(group) in r.labels then name == r.labels[Keys.ClusterNameLabel(group)] else name == "")
  {
    var key := Keys.ClusterNameLabel(group);
    match r.specClusterName
    case Malformed => ""
    case Str(s) => s
    case Absent => if key in r.labels then r.labels[key] else ""
  }

  /** The labels are consulted only when the field is absent: with the field
      present or malformed, any labels give the same answer. */
  lemma LabelsIgnoredUnlessFieldAbsent(r: Resource, group: string, labels: StringMap)
    requires !r.specClusterName.Absent?
    ensures ClusterNameFromResource(r.(labels := labels), group) == ClusterNameFromResource(r, group)
  {
  }

  /** A non-empty answer comes from the field or, with the field absent, from
      the cluster-name label. */
  lemma ClusterNameProvenance(r: Resource, group: string)
    ensures var name := ClusterNameFromResource(r, group);
      name != "" ==>
        r.specClusterName == Str(name)
        || (r.specClusterName.Absent? && Keys.ClusterNameLabel(group) in r.labels
            && r.labels[Keys.ClusterNameLabel(group)] == name)
  {
  }
}
