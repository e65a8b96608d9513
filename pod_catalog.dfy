/**
 * The pod events catalog (pod.go:15-249): 44 (type, reason, message)
 * records in source order, replayed verbatim against every mock pod. Each
 * distinct message is a named constant; messages longer than a few words
 * are written as concatenations of shorter literals (the value is the same
 * string). The reason codes the source takes from the kubelet's events
 * package are written as the names of those constants.
 */
module PodCatalog {
  import opened Events

  /** The generator's registry name (pod.go:16). */
  const PodGeneratorName: string := "podGenerator"

  const FailedAttachVolumeMessage: string := "Volume is" + " already" + " exclusively" + " attached to one" + " node and can't" + " be attached to" + " another"
  const FailedMountVolumeMessage: string := "Unable to mount" + " volumes for pod"
  const VolumeResizeFailedMessage: string := "VolumeFSResize.MarkVolumeAsResized" + " failed"
  const VolumeResizeSuccessMessage: string := "VolumeResizeSuccess"
  const FileSystemResizeFailedMessage: string := "MountVolume.resizeFileSystem" + " failed"
  const FileSystemResizeSuccessMessage: string := "FileSystemResizeSuccess"
  const FailedMapVolumeMessage: string := "FailedMapVolume"
  const WarnAlreadyMountedVolumeMessage: string := "The requested" + " fsGroup is %d," + " but the volume" + " %s has GID %d." + " The volume may" + " not be" + " shareable."
  const SuccessfulAttachVolumeMessage: string := "SuccessfulAttachVolume"
  const SuccessfulMountVolumeMessage: string := "SuccessfulMountVolume"
  const InsufficientFreeCPUMessage: string := "InsufficientFreeCPU"
  const InsufficientFreeMemoryMessage: string := "InsufficientFreeMemory"
  const SandboxChangedMessage: string := "Pod sandbox" + " changed, it" + " will be killed" + " and re-created."
  const FailedCreatePodSandBoxMessage: string := "Failed create" + " pod sandbox"
  const FailedStatusPodSandBoxMessage: string := "Unable to get" + " pod sandbox" + " status."
  const ContainerUnhealthyMessage: string := "probe errored"
  const FailedSyncMessage: string := "error" + " determining" + " status."
  const FailedValidationMessage: string := "Error validating" + " pod %s from %s" + " due to" + " duplicate pod" + " name ."
  const FailedPostStartHookMessage: string := "FailedPostStartHook."
  const FailedPreStopHookMessage: string := "FailedPreStopHook."
  const CreatedContainerMessage: string := "CreatedContainer"
  const StartedContainerMessage: string := "StartedContainer"
  const FailedToCreateContainerMessage: string := "FailedToCreateContainer"
  const FailedToStartContainerMessage: string := "FailedToStartContainer"
  const KillingContainerMessage: string := "KillingContainer"
  const PreemptContainerMessage: string := "PreemptContainer"
  const BackOffStartContainerMessage: string := "Back-off" + " restarting" + " failed" + " container"
  const ExceededGracePeriodMessage: string := "Container" + " runtime did not" + " kill the pod" + " within" + " specified grace" + " period."
  const FailedToKillPodMessage: string := "error killing" + " pod"
  const FailedToCreatePodContainerMessage: string := "unable to ensure" + " pod container" + " exists."
  const FailedToMakePodDataDirectoriesMessage: string := "error making pod" + " data" + " directories."
  const NetworkNotReadyMessage: string := "NetworkNotReady"
  const PullingImageMessage: string := "pulling image"
  const PulledImageMessage: string := "Successfully" + " pulled image"
  const FailedToPullImageMessage: string := "Failed to pull" + " image"
  const FailedToInspectImageMessage: string := "FailedToInspectImage"
  const ErrImageNeverPullPolicyMessage: string := "Container image" + " is not present" + " with pull" + " policy of Never"
  const BackOffPullImageMessage: string := "Back-off pulling" + " image"
  const FailedSchedulingMessage: string := "AssumePod failed"
  const ScheduledMessage: string := "Successfully" + " assigned"
  const PreemptedMessage: string := "by on node"
  const TaintManagerEvictionMessage: string := "Cancelling" + " deletion of Pod"
  const MissingClusterDNSMessage: string := "kubelet does not" + " have ClusterDNS" + " IP configured" + " and cannot" + " create Pod" + " using"

  /** podEvents (pod.go:20-249). */
  const PodEvents: seq<EventRecord> := [
    EventRecord(Warning, "FailedAttachVolume", FailedAttachVolumeMessage),
    EventRecord(Warning, "FailedMountVolume", FailedMountVolumeMessage),
    EventRecord(Warning, "VolumeResizeFailed", VolumeResizeFailedMessage),
    EventRecord(Normal, "VolumeResizeSuccess", VolumeResizeSuccessMessage),
    EventRecord(Warning, "FileSystemResizeFailed", FileSystemResizeFailedMessage),
    EventRecord(Normal, "FileSystemResizeSuccess", FileSystemResizeSuccessMessage),
    EventRecord(Warning, "FailedMapVolume", FailedMapVolumeMessage),
    EventRecord(Warning, "WarnAlreadyMountedVolume", WarnAlreadyMountedVolumeMessage),
    EventRecord(Normal, "SuccessfulAttachVolume", SuccessfulAttachVolumeMessage),
    EventRecord(Normal, "SuccessfulMountVolume", SuccessfulMountVolumeMessage),
    EventRecord(Warning, "InsufficientFreeCPU", InsufficientFreeCPUMessage),
    EventRecord(Warning, "InsufficientFreeMemory", InsufficientFreeMemoryMessage),
    EventRecord(Normal, "SandboxChanged", SandboxChangedMessage),
    EventRecord(Warning, "FailedCreatePodSandBox", FailedCreatePodSandBoxMessage),
    EventRecord(Warning, "FailedStatusPodSandBox", FailedStatusPodSandBoxMessage),
    EventRecord(Warning, "ContainerUnhealthy", ContainerUnhealthyMessage),
    EventRecord(Warning, "FailedSync", FailedSyncMessage),
    EventRecord(Warning, "FailedValidation", FailedValidationMessage),
    EventRecord(Warning, "FailedPostStartHook", FailedPostStartHookMessage),
    EventRecord(Warning, "FailedPreStopHook", FailedPreStopHookMessage),
    EventRecord(Normal, "CreatedContainer", CreatedContainerMessage),
    EventRecord(Normal, "StartedContainer", StartedContainerMessage),
    EventRecord(Warning, "FailedToCreateContainer", FailedToCreateContainerMessage),
    EventRecord(Warning, "FailedToStartContainer", FailedToStartContainerMessage),
    EventRecord(Normal, "KillingContainer", KillingContainerMessage),
    EventRecord(Normal, "PreemptContainer", PreemptContainerMessage),
    EventRecord(Normal, "BackOffStartContainer", BackOffStartContainerMessage),
    EventRecord(Normal, "ExceededGracePeriod", ExceededGracePeriodMessage),
    EventRecord(Warning, "FailedToKillPod", FailedToKillPodMessage),
    EventRecord(Warning, "FailedToCreatePodContainer", FailedToCreatePodContainerMessage),
    EventRecord(Warning, "FailedToMakePodDataDirectories", FailedToMakePodDataDirectoriesMessage),
    EventRecord(Warning, "NetworkNotReady", NetworkNotReadyMessage),
    EventRecord(Normal, "PullingImage", PullingImageMessage),
    EventRecord(Normal, "PulledImage", PulledImageMessage),
    EventRecord(Warning, "FailedToPullImage", FailedToPullImageMessage),
    EventRecord(Warning, "FailedToInspectImage", FailedToInspectImageMessage),
    EventRecord(Warning, "ErrImageNeverPullPolicy", ErrImageNeverPullPolicyMessage),
    EventRecord(Warning, "BackOffPullImage", BackOffPullImageMessage),
    EventRecord(Warning, "FailedScheduling", FailedSchedulingMessage),
    EventRecord(Normal, "Scheduled", ScheduledMessage),
    EventRecord(Normal, "Preempted", PreemptedMessage),
    EventRecord(Warning, "TaintManagerEviction", TaintManagerEvictionMessage),
    EventRecord(Warning, "FailedScheduling", FailedSchedulingMessage),
    EventRecord(Warning, "MissingClusterDNS", MissingClusterDNSMessage)
  ]

  /**
   * Where the catalog's notable entries sit: 44 entries, the two with
   * formatting verbs at 7 and 17, and the same FailedScheduling entry
   * listed twice, at 38 and 42.
   */
  lemma PodEventsLayout()
    ensures |PodEvents| == 44
    ensures PodEvents[7].message == WarnAlreadyMountedVolumeMessage
    ensures PodEvents[17].message == FailedValidationMessage
    ensures PodEvents[38] == PodEvents[42] == EventRecord(Warning, "FailedScheduling", FailedSchedulingMessage)
  {
  }
}
