// The frozen description of one benchmark task, as far as the runner depends on it.
module Benchmark {

  // Everything the task fingerprint covers.  The fingerprint is the contract itself: an
  // ideal hash, equal exactly when the hashed contents are equal.  App UI names are not
  // part of it.
  datatype Contract = Contract(
    taskId: string,
    apps: set<string>,         // logical App ids
    workstation: bool,         // a local App needs an attempt VM
    template: bool,            // the VM comes from an immutable template
    digest: int)               // prompt, attachments, workspace, manifests

  // App id -> the UI name the App is shown under.
  type Names = map<string, string>

  datatype TaskSpec = TaskSpec(contract: Contract, names: Names) {
    predicate Valid() {
      names.Keys == contract.apps
    }
  }
}
