// The PersistentVolumeClaim of a server.
module Pvcs {
  import opened Api
  import StatefulSets

  /** 20Gi, in bytes. */
  const DEFAULT_STORAGE := Quantity(20 * 1024 * 1024 * 1024)

  /** What is claimed: the server's own size and class, else the definition's size if it can be
      read, else 20Gi; and nothing for a size that was given as zero. */
  ghost predicate Claims(spec: SteamServerSpec, def: Option<GameDefinitionSpec>, claim: Option<PvcSpec>) {
    if spec.storage.Some? then
      claim == if spec.storage.value.size.amount == 0 then None
               else Some(PvcSpec(["ReadWriteOnce"], spec.storage.value.size, spec.storage.value.storageClassName))
    else if def.Some? && def.value.defaultStorage.Parsed? then
      claim == if def.value.defaultStorage.quantity.amount == 0 then None
               else Some(PvcSpec(["ReadWriteOnce"], def.value.defaultStorage.quantity, None))
    else
      claim == Some(PvcSpec(["ReadWriteOnce"], Quantity(21474836480), None))
  }

  datatype PvcBuilder = PvcBuilder(name: string, spec: SteamServerSpec, def: Option<GameDefinitionSpec>) {
    function Labels(): map<string, string> {
      StatefulSets.BaseLabels(name, spec.gameDefinition)
    }

    function GetStorageSize(): Quantity {
      if spec.storage.Some? then spec.storage.value.size
      else if def.Some? && def.value.defaultStorage.Parsed? then def.value.defaultStorage.quantity
      else DEFAULT_STORAGE
    }

    /** Nothing is built for a size of zero. */
    function Desired(): Option<PvcSpec> {
      var size := GetStorageSize();
      if size.IsZero() then None
      else Some(PvcSpec(["ReadWriteOnce"], size,
          if spec.storage.Some? then spec.storage.value.storageClassName else None))
    }

    method Build() returns (pvc: Option<PvcSpec>, labels: map<string, string>)
      ensures Claims(spec, def, pvc) && pvc == Desired()
      ensures StatefulSets.LabelsSay(labels, name, spec.gameDefinition) && labels == Labels()
    {
      labels := Labels();
      var storageSize := GetStorageSize();
      if storageSize.IsZero() {
        return None, labels;
      }
      var claim := PvcSpec(["ReadWriteOnce"], storageSize, None);
      if spec.storage.Some? && spec.storage.value.storageClassName.Some? {
        claim := claim.(storageClassName := spec.storage.value.storageClassName);
      }
      pvc := Some(claim);
    }
  }

  /** A claim is left out only for a size that was given as zero: with no size given
      anywhere, or one that cannot be read, the default size is used. */
  lemma NoClaimIff(b: PvcBuilder)
    ensures Claims(b.spec, b.def, b.Desired())
    ensures b.Desired().None? <==>
            if b.spec.storage.Some? then b.spec.storage.value.size.IsZero()
            else b.def.Some? && b.def.value.defaultStorage.Parsed? && b.def.value.defaultStorage.quantity.IsZero()
  {
  }
}
