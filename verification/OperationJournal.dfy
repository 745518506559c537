/** The operation journal of the bridge (internal/mcpbridge/journal.go): an operation key belongs to one target and one request. */
module OperationJournal {
  import opened Common

  type Instance = nat

  datatype Binding = Binding(target: Instance, digest: nat)

  datatype BindError = InvalidKey | Conflict | Full

  const MAX_FILES := 10000

  class Journal {
    var bindings: map<string, Binding>

    constructor ()
      ensures bindings == map[]
    {
      bindings := map[];
    }

    /** `others` counts the files of the journal directory that are not bindings. */
    method Bind(key: string, digest: nat, target: Instance, write: bool, others: nat) returns (error: Option<BindError>)
      modifies this
      ensures forall k :: k in old(bindings) ==> k in bindings && bindings[k] == old(bindings)[k]
      ensures forall k :: k in bindings && k !in old(bindings) ==> k == key && write && error.None?
      ensures error.None? && key in bindings ==> bindings[key].target == target && (write ==> bindings[key].digest == digest)
      ensures error.None? && write ==> key in bindings
      ensures error == Some(InvalidKey) <==> |key| == 0 || |key| > 256
      ensures error == Some(Conflict) <==>
        1 <= |key| <= 256 && key in old(bindings) && (old(bindings)[key].target != target || (write && old(bindings)[key].digest != digest))
      ensures error == Some(Full) <==> 1 <= |key| <= 256 && key !in old(bindings) && write && |old(bindings)| + others > MAX_FILES
    {
      if |key| < 1 || |key| > 256 { return Some(InvalidKey); }
      if key in bindings {
        var old_ := bindings[key];
        if old_.target != target || (write && old_.digest != digest) { return Some(Conflict); }
        return None;
      }
      if !write { return None; }
      if |bindings| + others > MAX_FILES { return Some(Full); }
      bindings := bindings[key := Binding(target, digest)];
      return None;
    }
  }
}
