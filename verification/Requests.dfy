/** Admission requests, and what the mutating webhook answers to one. */
module Requests {
  import opened Wrappers
  import opened Json
  import opened Apps
  import opened Clusters
  import opened Defaulting

  datatype Operation = Create | Update

  datatype User = User(name: string, groups: seq<string>)

  datatype Request = Request(operation: Operation, dryRun: bool, newDoc: Json, oldDoc: Json, user: User)

  predicate Deleting(operation: Operation, app: App) {
    operation == Update && app.metadata.deleting
  }

  function RequestOutcome(cfg: Config, snap: Snapshot, store: Store, request: Request): Outcome {
    if request.dryRun then Outcome(Ok([]), store)
    else
      match (Decode(request.newDoc), Decode(request.oldDoc))
      case (Some(app), Some(_)) =>
        if Deleting(request.operation, app) then Outcome(Ok([]), store) else MutateOutcome(cfg, snap, store, app)
      case _ => Outcome(Err(ParsingFailed), store)
  }
}
