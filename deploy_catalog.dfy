/**
 * The deployment generator's constants (deploy.go:17-89): its registry
 * name, the smallest number of mock objects a create-capable generator
 * makes, and the deployment events catalog, 13 (type, reason, message)
 * records in source order, replayed verbatim against every mock
 * deployment. The reason codes the source takes from the deployment
 * controller's util package are written as the names of those constants.
 */
module DeployCatalog {
  import opened Events

  /** The generator's registry name (deploy.go:18). */
  const DeploymentGeneratorName: string := "deploymentGenerator"

  /** minSeed (deploy.go:19): the fewest objects a pod or deployment generator creates per cycle. */
  const MinSeed: int := 5

  const RollbackRevisionNotFoundMessage: string := "Unable to find" + " last revision."
  const RollbackTemplateUnchangedMessage: string := "The rollback" + " revision" + " contains the" + " same template" + " as current" + " deployment"
  const RollbackDoneMessage: string := "Rolled back" + " deployment mock" + " to revision 0"
  const ReplicaSetUpdatedReasonMessage: string := "ReplicaSet mock" + " is progressing"
  const FailedRSCreateReasonMessage: string := "Failed to create" + " new replica set" + " mock:0"
  const NewReplicaSetReasonMessage: string := "Created new" + " replica set" + " mock"
  const FoundNewRSReasonMessage: string := "Found new" + " replica set" + " mock"
  const NewRSAvailableReasonMessage: string := "Deployment mock" + " has" + " successfully" + " progressed"
  const TimedOutReasonMessage: string := "Deployment mock" + " has timed out" + " progressing"
  const PausedDeployReasonMessage: string := "Deployment is" + " paused"
  const ResumedDeployReasonMessage: string := "Deployment is" + " resumed"
  const MinimumReplicasAvailableMessage: string := "Deployment has" + " minimum" + " availability."
  const MinimumReplicasUnavailableMessage: string := "Deployment does" + " not have" + " minimum" + " availability."

  /** deploymentEvents (deploy.go:22-89). */
  const DeploymentEvents: seq<EventRecord> := [
    EventRecord(Warning, "RollbackRevisionNotFound", RollbackRevisionNotFoundMessage),
    EventRecord(Warning, "RollbackTemplateUnchanged", RollbackTemplateUnchangedMessage),
    EventRecord(Normal, "RollbackDone", RollbackDoneMessage),
    EventRecord(Normal, "ReplicaSetUpdatedReason", ReplicaSetUpdatedReasonMessage),
    EventRecord(Warning, "FailedRSCreateReason", FailedRSCreateReasonMessage),
    EventRecord(Normal, "NewReplicaSetReason", NewReplicaSetReasonMessage),
    EventRecord(Normal, "FoundNewRSReason", FoundNewRSReasonMessage),
    EventRecord(Normal, "NewRSAvailableReason", NewRSAvailableReasonMessage),
    EventRecord(Warning, "TimedOutReason", TimedOutReasonMessage),
    EventRecord(Normal, "PausedDeployReason", PausedDeployReasonMessage),
    EventRecord(Normal, "ResumedDeployReason", ResumedDeployReasonMessage),
    EventRecord(Normal, "MinimumReplicasAvailable", MinimumReplicasAvailableMessage),
    EventRecord(Warning, "MinimumReplicasUnavailable", MinimumReplicasUnavailableMessage)
  ]
}
