/**
 * The node events catalog (node.go:20-256): 45 (type, reason, message)
 * records in source order. Each distinct message is a named constant.
 * Messages longer than a few words are written as concatenations of
 * shorter literals (the value is the same string); messages with a
 * placeholder for the node's name are written Template(before, after),
 * which is before + "%s" + after.
 */
module NodeCatalog {
  import opened Events

  /** The generator's registry name (node.go:16). */
  const NodeGeneratorName: string := "nodeEventsGenerator"

  const DeletingAllPodsMessage: string := Template("Deleting all" + " Pods from Node ", "")
  const DeletingNodeMessage: string := Template("Deleting Node ", " because it's" + " not present" + " according to" + " cloud provider")
  const RemovingNodeMessage: string := Template("Removing Node ", " from Controller")
  const RegisteredNodeMessage: string := Template("Registered Node ", " in Controller")
  const NodeNotReadyMessage: string := Template("Node ", " status is now:" + " NodeNotReady")
  const CIDRNotAvailableMessage: string := Template("Node ", " status is now:" + " CIDRNotAvailable")
  const CIDRAssignmentFailedMessage: string := Template("Node ", " status is now:" + " CIDRAssignmentFailed")
  const KernelHasNoDeadlockMessage: string := "kernel has no" + " deadlock"
  const FilesystemIsNotReadOnlyMessage: string := "Filesystem is" + " not read-only"
  const OOMKillingMessage: string := "Kill process \\d+" + " (.+) score \\d+" + " or sacrifice" + " child\\nKilled" + " process \\d+" + " (.+)" + " total-vm:\\d+kB," + " anon-rss:\\d+kB," + " file-rss:\\d+kB.*"
  const TaskHungMessage: string := "task \\S+:\\w+" + " blocked for" + " more than \\w+" + " seconds\\."
  const UnregisterNetDeviceMessage: string := "unregister_netdevice:" + " waiting for \\w+" + " to become free." + " Usage count =" + " \\d+"
  const KernelOopsNullPointerMessage: string := "BUG: unable to" + " handle kernel" + " NULL pointer" + " dereference at" + " .*"
  const KernelOopsDivideErrorMessage: string := "divide error:" + " 0000 \\[#\\d+\\]" + " SMP"
  const AUFSUmountHungMessage: string := "task" + " umount\\.aufs:\\w+" + " blocked for" + " more than \\w+" + " seconds\\."
  const DockerHungMessage: string := "task docker:\\w+" + " blocked for" + " more than \\w+" + " seconds\\."
  const FilesystemIsReadOnlyMessage: string := "Remounting" + " filesystem" + " read-only"
  const NTPIsUpMessage: string := "ntp service is" + " up"
  const NTPIsDownMessage: string := "NTP service is" + " not running"
  const CorruptDockerImageMessage: string := "Error trying v2" + " registry:" + " failed to" + " register layer:" + " rename" + " /var/lib/docker/image/(.+)" + " /var/lib/docker/image/(.+):" + " directory not" + " empty.*"
  const NoCorruptDockerOverlay2Message: string := "docker overlay2" + " is functioning" + " properly"
  const NodeHasFDPressureMessage: string := "too many fds" + " have been used"
  const NodeHasNoFDPressureMessage: string := "node has no fd" + " pressure"
  const ConntrackFullMessage: string := "Conntrack table" + " full"
  const NoFrequentKubeletRestartMessage: string := "kubelet is" + " functioning" + " properly"
  const NoFrequentDockerRestartMessage: string := "docker is" + " functioning" + " properly"
  const SystemOOMMessage: string := "System OOM" + " encountered"
  const ContainerGCFailedMessage: string := "Container" + " garbage" + " collection" + " failed"
  const ImageGCFailedMessage: string := "Image garbage" + " collection" + " failed multiple" + " times in a row"
  const KubeletSetupFailedMessage: string := "failed to start" + " Plugin Watcher"
  const StartingKubeletMessage: string := "Starting" + " kubelet."
  const NodeNotSchedulableMessage: string := "NodeNotSchedulable"
  const NodeSchedulableMessage: string := "NodeSchedulable"
  const NodeRebootedMessage: string := Template("Node ", " has been" + " rebooted, boot" + " id")
  const FailedNodeAllocatableEnforcementMessage: string := "Failed to update" + " Node" + " Allocatable" + " Limits"
  const SuccessfulNodeAllocatableEnforcementMessage: string := "Updated limits" + " on system" + " reserved cgroup"
  const InvalidDiskCapacityMessage: string := "invalid capacity" + " 0 on image" + " filesystem"
  const FreeDiskSpaceFailedMessage: string := Template("failed to" + " garbage collect" + " required amount" + " of images." + " Wanted to free ", "")
  const FailedToCreateRouteMessage: string := "Could not create" + " route"
  const NodeControllerEvictionMessage: string := "Marking for" + " deletion Pod"
  const EvictionThresholdMetMessage: string := "Attempting to" + " reclaim"
  const MissingClusterDNSMessage: string := "kubelet does not" + " have ClusterDNS" + " IP configured" + " and cannot" + " create Pod" + " using"

  /** Node lifecycle events of the node controller (node.go:21-70). */
  const NodeControllerEvents: seq<EventRecord> := [
    EventRecord(Normal, "DeletingAllPods", DeletingAllPodsMessage),
    EventRecord(Normal, "DeletingNode", DeletingNodeMessage),
    EventRecord(Normal, "RemovingNode", RemovingNodeMessage),
    EventRecord(Normal, "RegisteredNode", RegisteredNodeMessage),
    EventRecord(Normal, "NodeNotReady", NodeNotReadyMessage),
    EventRecord(Normal, "CIDRNotAvailable", CIDRNotAvailableMessage),
    EventRecord(Normal, "CIDRAssignmentFailed", CIDRAssignmentFailedMessage),
    EventRecord(Normal, "CIDRNotAvailable", CIDRNotAvailableMessage),
    EventRecord(Normal, "KernelHasNoDeadlock", KernelHasNoDeadlockMessage),
    EventRecord(Normal, "FilesystemIsNotReadOnly", FilesystemIsNotReadOnlyMessage)
  ]

  /** Kernel and runtime problems, whose messages look like log patterns (node.go:71-110). */
  const KernelProblemEvents: seq<EventRecord> := [
    EventRecord(Warning, "OOMKilling", OOMKillingMessage),
    EventRecord(Warning, "TaskHung", TaskHungMessage),
    EventRecord(Warning, "UnregisterNetDevice", UnregisterNetDeviceMessage),
    EventRecord(Warning, "KernelOops", KernelOopsNullPointerMessage),
    EventRecord(Warning, "KernelOops", KernelOopsDivideErrorMessage),
    EventRecord(Warning, "AUFSUmountHung", AUFSUmountHungMessage),
    EventRecord(Warning, "DockerHung", DockerHungMessage),
    EventRecord(Warning, "FilesystemIsReadOnly", FilesystemIsReadOnlyMessage)
  ]

  /** Node health conditions (node.go:113-162). */
  const HealthEvents: seq<EventRecord> := [
    EventRecord(Normal, "NTPIsUp", NTPIsUpMessage),
    EventRecord(Warning, "NTPIsDown", NTPIsDownMessage),
    EventRecord(Warning, "CorruptDockerImage", CorruptDockerImageMessage),
    EventRecord(Warning, "NoCorruptDockerOverlay2", NoCorruptDockerOverlay2Message),
    EventRecord(Warning, "NodeHasFDPressure", NodeHasFDPressureMessage),
    EventRecord(Normal, "NodeHasNoFDPressure", NodeHasNoFDPressureMessage),
    EventRecord(Warning, "ConntrackFull", ConntrackFullMessage),
    EventRecord(Normal, "NoFrequentKubeletRestart", NoFrequentKubeletRestartMessage),
    EventRecord(Normal, "NoFrequentDockerRestart", NoFrequentDockerRestartMessage),
    EventRecord(Warning, "SystemOOM", SystemOOMMessage)
  ]

  /** Kubelet events (node.go:163-192). */
  const KubeletEvents: seq<EventRecord> := [
    EventRecord(Warning, "ContainerGCFailed", ContainerGCFailedMessage),
    EventRecord(Warning, "ImageGCFailed", ImageGCFailedMessage),
    EventRecord(Warning, "KubeletSetupFailed", KubeletSetupFailedMessage),
    EventRecord(Normal, "StartingKubelet", StartingKubeletMessage),
    EventRecord(Normal, "NodeNotSchedulable", NodeNotSchedulableMessage),
    EventRecord(Normal, "NodeSchedulable", NodeSchedulableMessage)
  ]

  /** Reboots, allocatable limits, disk, routes and eviction (node.go:193-255). */
  const RebootAndEvictionEvents: seq<EventRecord> := [
    EventRecord(Warning, "NodeRebooted", NodeRebootedMessage),
    EventRecord(Warning, "FailedNodeAllocatableEnforcement", FailedNodeAllocatableEnforcementMessage),
    EventRecord(Normal, "SuccessfulNodeAllocatableEnforcement", SuccessfulNodeAllocatableEnforcementMessage),
    EventRecord(Warning, "NodeRebooted", NodeRebootedMessage),
    EventRecord(Warning, "InvalidDiskCapacity", InvalidDiskCapacityMessage),
    EventRecord(Warning, "FreeDiskSpaceFailed", FreeDiskSpaceFailedMessage),
    EventRecord(Warning, "NodeRebooted", NodeRebootedMessage),
    EventRecord(Warning, "FailedToCreateRoute", FailedToCreateRouteMessage),
    EventRecord(Normal, "NodeControllerEviction", NodeControllerEvictionMessage),
    EventRecord(Warning, "EvictionThresholdMet", EvictionThresholdMetMessage),
    EventRecord(Warning, "MissingClusterDNS", MissingClusterDNSMessage)
  ]

  /** nodeEvents: the whole catalog, in source order. */
  const NodeEvents: seq<EventRecord> :=
    NodeControllerEvents + KernelProblemEvents + HealthEvents + KubeletEvents + RebootAndEvictionEvents

  // ---------------------------------------------------------------------
  // Every message is '%'-free, or '%'-free text around a single "%s"
  // ---------------------------------------------------------------------

  lemma DeletingAllPodsMessageShape()
    ensures WellFormedTemplate(DeletingAllPodsMessage)
  {
    NoPercentJoin("Deleting all", " Pods from Node ");
    TemplateShape("Deleting all" + " Pods from Node ", "");
  }

  lemma DeletingNodeMessageShape()
    ensures WellFormedTemplate(DeletingNodeMessage)
  {
    NoPercentJoin(" because it's", " not present");
    NoPercentJoin(" because it's" + " not present", " according to");
    NoPercentJoin(" because it's" + " not present" + " according to", " cloud provider");
    TemplateShape("Deleting Node ", " because it's" + " not present" + " according to" + " cloud provider");
  }

  lemma RemovingNodeMessageShape()
    ensures WellFormedTemplate(RemovingNodeMessage)
  {
    TemplateShape("Removing Node ", " from Controller");
  }

  lemma RegisteredNodeMessageShape()
    ensures WellFormedTemplate(RegisteredNodeMessage)
  {
    TemplateShape("Registered Node ", " in Controller");
  }

  lemma NodeNotReadyMessageShape()
    ensures WellFormedTemplate(NodeNotReadyMessage)
  {
    NoPercentJoin(" status is now:", " NodeNotReady");
    TemplateShape("Node ", " status is now:" + " NodeNotReady");
  }

  lemma CIDRNotAvailableMessageShape()
    ensures WellFormedTemplate(CIDRNotAvailableMessage)
  {
    NoPercentJoin(" status is now:", " CIDRNotAvailable");
    TemplateShape("Node ", " status is now:" + " CIDRNotAvailable");
  }

  lemma CIDRAssignmentFailedMessageShape()
    ensures WellFormedTemplate(CIDRAssignmentFailedMessage)
  {
    NoPercentJoin(" status is now:", " CIDRAssignmentFailed");
    TemplateShape("Node ", " status is now:" + " CIDRAssignmentFailed");
  }

  lemma KernelHasNoDeadlockMessageShape()
    ensures NoPercent(KernelHasNoDeadlockMessage)
  {
    NoPercentJoin("kernel has no", " deadlock");
  }

  lemma FilesystemIsNotReadOnlyMessageShape()
    ensures NoPercent(FilesystemIsNotReadOnlyMessage)
  {
    NoPercentJoin("Filesystem is", " not read-only");
  }

  lemma OOMKillingMessageShape()
    ensures NoPercent(OOMKillingMessage)
  {
    NoPercentJoin("Kill process \\d+", " (.+) score \\d+");
    NoPercentJoin("Kill process \\d+" + " (.+) score \\d+", " or sacrifice");
    NoPercentJoin("Kill process \\d+" + " (.+) score \\d+" + " or sacrifice", " child\\nKilled");
    NoPercentJoin("Kill process \\d+" + " (.+) score \\d+" + " or sacrifice" + " child\\nKilled", " process \\d+");
    NoPercentJoin("Kill process \\d+" + " (.+) score \\d+" + " or sacrifice" + " child\\nKilled" + " process \\d+", " (.+)");
    NoPercentJoin("Kill process \\d+" + " (.+) score \\d+" + " or sacrifice" + " child\\nKilled" + " process \\d+" + " (.+)", " total-vm:\\d+kB,");
    NoPercentJoin("Kill process \\d+" + " (.+) score \\d+" + " or sacrifice" + " child\\nKilled" + " process \\d+" + " (.+)" + " total-vm:\\d+kB,", " anon-rss:\\d+kB,");
    NoPercentJoin("Kill process \\d+" + " (.+) score \\d+" + " or sacrifice" + " child\\nKilled" + " process \\d+" + " (.+)" + " total-vm:\\d+kB," + " anon-rss:\\d+kB,", " file-rss:\\d+kB.*");
  }

  lemma TaskHungMessageShape()
    ensures NoPercent(TaskHungMessage)
  {
    NoPercentJoin("task \\S+:\\w+", " blocked for");
    NoPercentJoin("task \\S+:\\w+" + " blocked for", " more than \\w+");
    NoPercentJoin("task \\S+:\\w+" + " blocked for" + " more than \\w+", " seconds\\.");
  }

  lemma UnregisterNetDeviceMessageShape()
    ensures NoPercent(UnregisterNetDeviceMessage)
  {
    NoPercentJoin("unregister_netdevice:", " waiting for \\w+");
    NoPercentJoin("unregister_netdevice:" + " waiting for \\w+", " to become free.");
    NoPercentJoin("unregister_netdevice:" + " waiting for \\w+" + " to become free.", " Usage count =");
    NoPercentJoin("unregister_netdevice:" + " waiting for \\w+" + " to become free." + " Usage count =", " \\d+");
  }

  lemma KernelOopsNullPointerMessageShape()
    ensures NoPercent(KernelOopsNullPointerMessage)
  {
    NoPercentJoin("BUG: unable to", " handle kernel");
    NoPercentJoin("BUG: unable to" + " handle kernel", " NULL pointer");
    NoPercentJoin("BUG: unable to" + " handle kernel" + " NULL pointer", " dereference at");
    NoPercentJoin("BUG: unable to" + " handle kernel" + " NULL pointer" + " dereference at", " .*");
  }

  lemma KernelOopsDivideErrorMessageShape()
    ensures NoPercent(KernelOopsDivideErrorMessage)
  {
    NoPercentJoin("divide error:", " 0000 \\[#\\d+\\]");
    NoPercentJoin("divide error:" + " 0000 \\[#\\d+\\]", " SMP");
  }

  lemma AUFSUmountHungMessageShape()
    ensures NoPercent(AUFSUmountHungMessage)
  {
    NoPercentJoin("task", " umount\\.aufs:\\w+");
    NoPercentJoin("task" + " umount\\.aufs:\\w+", " blocked for");
    NoPercentJoin("task" + " umount\\.aufs:\\w+" + " blocked for", " more than \\w+");
    NoPercentJoin("task" + " umount\\.aufs:\\w+" + " blocked for" + " more than \\w+", " seconds\\.");
  }

  lemma DockerHungMessageShape()
    ensures NoPercent(DockerHungMessage)
  {
    NoPercentJoin("task docker:\\w+", " blocked for");
    NoPercentJoin("task docker:\\w+" + " blocked for", " more than \\w+");
    NoPercentJoin("task docker:\\w+" + " blocked for" + " more than \\w+", " seconds\\.");
  }

  lemma FilesystemIsReadOnlyMessageShape()
    ensures NoPercent(FilesystemIsReadOnlyMessage)
  {
    NoPercentJoin("Remounting", " filesystem");
    NoPercentJoin("Remounting" + " filesystem", " read-only");
  }

  lemma NTPIsUpMessageShape()
    ensures NoPercent(NTPIsUpMessage)
  {
    NoPercentJoin("ntp service is", " up");
  }

  lemma NTPIsDownMessageShape()
    ensures NoPercent(NTPIsDownMessage)
  {
    NoPercentJoin("NTP service is", " not running");
  }

  lemma CorruptDockerImageMessageShape()
    ensures NoPercent(CorruptDockerImageMessage)
  {
    NoPercentJoin("Error trying v2", " registry:");
    NoPercentJoin("Error trying v2" + " registry:", " failed to");
    NoPercentJoin("Error trying v2" + " registry:" + " failed to", " register layer:");
    NoPercentJoin("Error trying v2" + " registry:" + " failed to" + " register layer:", " rename");
    NoPercentJoin("Error trying v2" + " registry:" + " failed to" + " register layer:" + " rename", " /var/lib/docker/image/(.+)");
    NoPercentJoin("Error trying v2" + " registry:" + " failed to" + " register layer:" + " rename" + " /var/lib/docker/image/(.+)", " /var/lib/docker/image/(.+):");
    NoPercentJoin("Error trying v2" + " registry:" + " failed to" + " register layer:" + " rename" + " /var/lib/docker/image/(.+)" + " /var/lib/docker/image/(.+):", " directory not");
    NoPercentJoin("Error trying v2" + " registry:" + " failed to" + " register layer:" + " rename" + " /var/lib/docker/image/(.+)" + " /var/lib/docker/image/(.+):" + " directory not", " empty.*");
  }

  lemma NoCorruptDockerOverlay2MessageShape()
    ensures NoPercent(NoCorruptDockerOverlay2Message)
  {
    NoPercentJoin("docker overlay2", " is functioning");
    NoPercentJoin("docker overlay2" + " is functioning", " properly");
  }

  lemma NodeHasFDPressureMessageShape()
    ensures NoPercent(NodeHasFDPressureMessage)
  {
    NoPercentJoin("too many fds", " have been used");
  }

  lemma NodeHasNoFDPressureMessageShape()
    ensures NoPercent(NodeHasNoFDPressureMessage)
  {
    NoPercentJoin("node has no fd", " pressure");
  }

  lemma ConntrackFullMessageShape()
    ensures NoPercent(ConntrackFullMessage)
  {
    NoPercentJoin("Conntrack table", " full");
  }

  lemma NoFrequentKubeletRestartMessageShape()
    ensures NoPercent(NoFrequentKubeletRestartMessage)
  {
    NoPercentJoin("kubelet is", " functioning");
    NoPercentJoin("kubelet is" + " functioning", " properly");
  }

  lemma NoFrequentDockerRestartMessageShape()
    ensures NoPercent(NoFrequentDockerRestartMessage)
  {
    NoPercentJoin("docker is", " functioning");
    NoPercentJoin("docker is" + " functioning", " properly");
  }

  lemma SystemOOMMessageShape()
    ensures NoPercent(SystemOOMMessage)
  {
    NoPercentJoin("System OOM", " encountered");
  }

  lemma ContainerGCFailedMessageShape()
    ensures NoPercent(ContainerGCFailedMessage)
  {
    NoPercentJoin("Container", " garbage");
    NoPercentJoin("Container" + " garbage", " collection");
    NoPercentJoin("Container" + " garbage" + " collection", " failed");
  }

  lemma ImageGCFailedMessageShape()
    ensures NoPercent(ImageGCFailedMessage)
  {
    NoPercentJoin("Image garbage", " collection");
    NoPercentJoin("Image garbage" + " collection", " failed multiple");
    NoPercentJoin("Image garbage" + " collection" + " failed multiple", " times in a row");
  }

  lemma KubeletSetupFailedMessageShape()
    ensures NoPercent(KubeletSetupFailedMessage)
  {
    NoPercentJoin("failed to start", " Plugin Watcher");
  }

  lemma StartingKubeletMessageShape()
    ensures NoPercent(StartingKubeletMessage)
  {
    NoPercentJoin("Starting", " kubelet.");
  }

  lemma NodeNotSchedulableMessageShape()
    ensures NoPercent(NodeNotSchedulableMessage) {}

  lemma NodeSchedulableMessageShape()
    ensures NoPercent(NodeSchedulableMessage) {}

  lemma NodeRebootedMessageShape()
    ensures WellFormedTemplate(NodeRebootedMessage)
  {
    NoPercentJoin(" has been", " rebooted, boot");
    NoPercentJoin(" has been" + " rebooted, boot", " id");
    TemplateShape("Node ", " has been" + " rebooted, boot" + " id");
  }

  lemma FailedNodeAllocatableEnforcementMessageShape()
    ensures NoPercent(FailedNodeAllocatableEnforcementMessage)
  {
    NoPercentJoin("Failed to update", " Node");
    NoPercentJoin("Failed to update" + " Node", " Allocatable");
    NoPercentJoin("Failed to update" + " Node" + " Allocatable", " Limits");
  }

  lemma SuccessfulNodeAllocatableEnforcementMessageShape()
    ensures NoPercent(SuccessfulNodeAllocatableEnforcementMessage)
  {
    NoPercentJoin("Updated limits", " on system");
    NoPercentJoin("Updated limits" + " on system", " reserved cgroup");
  }

  lemma InvalidDiskCapacityMessageShape()
    ensures NoPercent(InvalidDiskCapacityMessage)
  {
    NoPercentJoin("invalid capacity", " 0 on image");
    NoPercentJoin("invalid capacity" + " 0 on image", " filesystem");
  }

  lemma FreeDiskSpaceFailedMessageShape()
    ensures WellFormedTemplate(FreeDiskSpaceFailedMessage)
  {
    NoPercentJoin("failed to", " garbage collect");
    NoPercentJoin("failed to" + " garbage collect", " required amount");
    NoPercentJoin("failed to" + " garbage collect" + " required amount", " of images.");
    NoPercentJoin("failed to" + " garbage collect" + " required amount" + " of images.", " Wanted to free ");
    TemplateShape("failed to" + " garbage collect" + " required amount" + " of images." + " Wanted to free ", "");
  }

  lemma FailedToCreateRouteMessageShape()
    ensures NoPercent(FailedToCreateRouteMessage)
  {
    NoPercentJoin("Could not create", " route");
  }

  lemma NodeControllerEvictionMessageShape()
    ensures NoPercent(NodeControllerEvictionMessage)
  {
    NoPercentJoin("Marking for", " deletion Pod");
  }

  lemma EvictionThresholdMetMessageShape()
    ensures NoPercent(EvictionThresholdMetMessage)
  {
    NoPercentJoin("Attempting to", " reclaim");
  }

  lemma MissingClusterDNSMessageShape()
    ensures NoPercent(MissingClusterDNSMessage)
  {
    NoPercentJoin("kubelet does not", " have ClusterDNS");
    NoPercentJoin("kubelet does not" + " have ClusterDNS", " IP configured");
    NoPercentJoin("kubelet does not" + " have ClusterDNS" + " IP configured", " and cannot");
    NoPercentJoin("kubelet does not" + " have ClusterDNS" + " IP configured" + " and cannot", " create Pod");
    NoPercentJoin("kubelet does not" + " have ClusterDNS" + " IP configured" + " and cannot" + " create Pod", " using");
  }

  /** Every message of the node-controller entries is a well-formed template. */
  lemma NodeControllerEventsWellFormed()
    ensures AllWellFormed(NodeControllerEvents)
  {
    forall i | 0 <= i < |NodeControllerEvents|
      ensures WellFormedTemplate(NodeControllerEvents[i].message)
    {
      if i == 0 {
        DeletingAllPodsMessageShape();
      } else if i == 1 {
        DeletingNodeMessageShape();
      } else if i == 2 {
        RemovingNodeMessageShape();
      } else if i == 3 {
        RegisteredNodeMessageShape();
      } else if i == 4 {
        NodeNotReadyMessageShape();
      } else if i == 5 {
        CIDRNotAvailableMessageShape();
      } else if i == 6 {
        CIDRAssignmentFailedMessageShape();
      } else if i == 7 {
        CIDRNotAvailableMessageShape();
      } else if i == 8 {
        KernelHasNoDeadlockMessageShape();
      } else {
        FilesystemIsNotReadOnlyMessageShape();
      }
    }
  }

  /** Every message of the kernel-problem entries is a well-formed template. */
  lemma KernelProblemEventsWellFormed()
    ensures AllWellFormed(KernelProblemEvents)
  {
    forall i | 0 <= i < |KernelProblemEvents|
      ensures WellFormedTemplate(KernelProblemEvents[i].message)
    {
      if i == 0 {
        OOMKillingMessageShape();
      } else if i == 1 {
        TaskHungMessageShape();
      } else if i == 2 {
        UnregisterNetDeviceMessageShape();
      } else if i == 3 {
        KernelOopsNullPointerMessageShape();
      } else if i == 4 {
        KernelOopsDivideErrorMessageShape();
      } else if i == 5 {
        AUFSUmountHungMessageShape();
      } else if i == 6 {
        DockerHungMessageShape();
      } else {
        FilesystemIsReadOnlyMessageShape();
      }
    }
  }

  /** Every message of the health-condition entries is a well-formed template. */
  lemma HealthEventsWellFormed()
    ensures AllWellFormed(HealthEvents)
  {
    forall i | 0 <= i < |HealthEvents|
      ensures WellFormedTemplate(HealthEvents[i].message)
    {
      if i == 0 {
        NTPIsUpMessageShape();
      } else if i == 1 {
        NTPIsDownMessageShape();
      } else if i == 2 {
        CorruptDockerImageMessageShape();
      } else if i == 3 {
        NoCorruptDockerOverlay2MessageShape();
      } else if i == 4 {
        NodeHasFDPressureMessageShape();
      } else if i == 5 {
        NodeHasNoFDPressureMessageShape();
      } else if i == 6 {
        ConntrackFullMessageShape();
      } else if i == 7 {
        NoFrequentKubeletRestartMessageShape();
      } else if i == 8 {
        NoFrequentDockerRestartMessageShape();
      } else {
        SystemOOMMessageShape();
      }
    }
  }

  /** Every message of the kubelet entries is a well-formed template. */
  lemma KubeletEventsWellFormed()
    ensures AllWellFormed(KubeletEvents)
  {
    forall i | 0 <= i < |KubeletEvents|
      ensures WellFormedTemplate(KubeletEvents[i].message)
    {
      if i == 0 {
        ContainerGCFailedMessageShape();
      } else if i == 1 {
        ImageGCFailedMessageShape();
      } else if i == 2 {
        KubeletSetupFailedMessageShape();
      } else if i == 3 {
        StartingKubeletMessageShape();
      } else if i == 4 {
        NodeNotSchedulableMessageShape();
      } else {
        NodeSchedulableMessageShape();
      }
    }
  }

  /** Every message of the reboot, allocatable, disk, route and eviction entries is a well-formed template. */
  lemma RebootAndEvictionEventsWellFormed()
    ensures AllWellFormed(RebootAndEvictionEvents)
  {
    forall i | 0 <= i < |RebootAndEvictionEvents|
      ensures WellFormedTemplate(RebootAndEvictionEvents[i].message)
    {
      if i == 0 {
        NodeRebootedMessageShape();
      } else if i == 1 {
        FailedNodeAllocatableEnforcementMessageShape();
      } else if i == 2 {
        SuccessfulNodeAllocatableEnforcementMessageShape();
      } else if i == 3 {
        NodeRebootedMessageShape();
      } else if i == 4 {
        InvalidDiskCapacityMessageShape();
      } else if i == 5 {
        FreeDiskSpaceFailedMessageShape();
      } else if i == 6 {
        NodeRebootedMessageShape();
      } else if i == 7 {
        FailedToCreateRouteMessageShape();
      } else if i == 8 {
        NodeControllerEvictionMessageShape();
      } else if i == 9 {
        EvictionThresholdMetMessageShape();
      } else {
        MissingClusterDNSMessageShape();
      }
    }
  }

  /**
   * Every node message is a well-formed template: either it contains no
   * '%' at all, so initialize records it as written without calling
   * Sprintf, or it is '%'-free text around exactly one "%s", which the
   * fmt.Sprintf(message, name) of initialize fills with the name and
   * nothing else, as Render does.
   */
  lemma NodeTemplatesWellFormed()
    ensures forall e :: e in NodeEvents ==> WellFormedTemplate(e.message)
  {
    NodeControllerEventsWellFormed();
    KernelProblemEventsWellFormed();
    HealthEventsWellFormed();
    KubeletEventsWellFormed();
    RebootAndEvictionEventsWellFormed();
    AllWellFormedJoin(NodeControllerEvents, KernelProblemEvents);
    AllWellFormedJoin(NodeControllerEvents + KernelProblemEvents, HealthEvents);
    AllWellFormedJoin(NodeControllerEvents + KernelProblemEvents + HealthEvents, KubeletEvents);
    AllWellFormedJoin(NodeControllerEvents + KernelProblemEvents + HealthEvents + KubeletEvents, RebootAndEvictionEvents);
    AllWellFormedMembers(NodeEvents);
  }
}
