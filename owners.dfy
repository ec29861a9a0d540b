/** Owner-reference lookup over the machine -> machine set -> machine
    deployment hierarchy. */
module Owners {
  import opened Metadata

  /** Kind names of the two parent levels. */
  const MachineSetKind := "MachineSet"
  const MachineDeploymentKind := "MachineDeployment"

  /** A reference names a real owner of the given kind. */
  predicate IsOwnerOfKind(ref: OwnerReference, kind: string) {
    ref.kind == kind && ref.name != ""
  }

  /** `getOwnerForKind`: the first reference, in order, of the requested kind
      with a non-empty name; references of that kind with an empty name are
      passed over. */
  function GetOwnerForKind(refs: seq<OwnerReference>, kind: string): (r: Option<OwnerReference>)
    ensures r.None? <==> forall i :: 0 <= i < |refs| ==> !IsOwnerOfKind(refs[i], kind)
    ensures r.Some? ==> exists i :: 0 <= i < |refs| && refs[i] == r.value && IsOwnerOfKind(refs[i], kind)
                                    && forall j :: 0 <= j < i ==> !IsOwnerOfKind(refs[j], kind)
  {
    if |refs| == 0 then None
    else if IsOwnerOfKind(refs[0], kind) then Some(refs[0])
    else
      var r := GetOwnerForKind(refs[1..], kind);
      assert r.Some? ==> exists i :: 1 <= i < |refs| && refs[i] == r.value && IsOwnerOfKind(refs[i], kind)
                                     && forall j :: 0 <= j < i ==> !IsOwnerOfKind(refs[j], kind);
      r
  }

  /** `machineOwnerRef`: the machine set that owns a machine. */
  function MachineOwnerRef(machine: Resource): (r: Option<OwnerReference>)
    ensures r.Some? ==> r.value in machine.ownerReferences && IsOwnerOfKind(r.value, MachineSetKind)
    ensures r.None? <==> forall ref :: ref in machine.ownerReferences ==> !IsOwnerOfKind(ref, MachineSetKind)
    ensures r.Some? ==> exists i :: 0 <= i < |machine.ownerReferences| && machine.ownerReferences[i] == r.value
                                    && forall j :: 0 <= j < i ==> !IsOwnerOfKind(machine.ownerReferences[j], MachineSetKind)
  {
    GetOwnerForKind(machine.ownerReferences, MachineSetKind)
  }

  /** `machineSetOwnerRef`: the machine deployment that owns a machine set. */
  function MachineSetOwnerRef(machineSet: Resource): (r: Option<OwnerReference>)
    ensures r.Some? ==> r.value in machineSet.ownerReferences && IsOwnerOfKind(r.value, MachineDeploymentKind)
    ensures r.None? <==> forall ref :: ref in machineSet.ownerReferences ==> !IsOwnerOfKind(ref, MachineDeploymentKind)
    ensures r.Some? ==> exists i :: 0 <= i < |machineSet.ownerReferences| && machineSet.ownerReferences[i] == r.value
                                    && forall j :: 0 <= j < i ==> !IsOwnerOfKind(machineSet.ownerReferences[j], MachineDeploymentKind)
  {
    GetOwnerForKind(machineSet.ownerReferences, MachineDeploymentKind)
  }

  /** `machineSetHasMachineDeploymentOwnerRef`. */
  function MachineSetHasMachineDeploymentOwnerRef(machineSet: Resource): (has: bool)
    ensures has <==> exists ref :: ref in machineSet.ownerReferences && IsOwnerOfKind(ref, MachineDeploymentKind)
  {
    MachineSetOwnerRef(machineSet).Some?
  }

  /** The lookup reads the references left to right: over a concatenation
      it answers from the first part when it can, else from the second. */
  lemma {:induction false} GetOwnerForKindAppend(refs: seq<OwnerReference>, more: seq<OwnerReference>, kind: string)
    ensures GetOwnerForKind(refs + more, kind)
         == if GetOwnerForKind(refs, kind).Some? then GetOwnerForKind(refs, kind) else GetOwnerForKind(more, kind)
  {
    if |refs| == 0 {
      assert refs + more == more;
    } else {
      assert (refs + more)[1..] == refs[1..] + more;
      GetOwnerForKindAppend(refs[1..], more, kind);
    }
  }

  /** The worked cases: an empty list has no owner, an empty-named reference
      of the right kind is skipped, the earlier of two owners wins. */
  lemma OwnerExamples(kind: string)
    requires kind != ""
    ensures GetOwnerForKind([], kind) == None
    ensures GetOwnerForKind([OwnerReference(kind, ""), OwnerReference(kind, "a")], kind) == Some(OwnerReference(kind, "a"))
    ensures GetOwnerForKind([OwnerReference(kind, "a"), OwnerReference(kind, "b")], kind) == Some(OwnerReference(kind, "a"))
    ensures GetOwnerForKind([OwnerReference(kind, "")], kind) == None
  {
  }
}
