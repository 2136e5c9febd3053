/** Annotation names and the words written under them (api/constants.go).  Names and words that
    the program spells out are constructors, so they are distinct by construction. */
module Api {
  datatype Key =
    | AnnDisableMonitoring
    | AnnBootstrapManaged
    | AnnBootstrapOS
    | AnnBootstrapType
    | AnnBootstrapVersion
    | AnnBootstrapStartedAt
    | AnnBootstrapReady
    | AnnBootstrapInlineSkipped
    | AnnSSHBootstrapComplete
    | AnnReconcileAt
    | AnnStatus
    | AnnReason
    | AnnExporter
    | AnnLegacyAlloy
    | AnnSysprepMergeRequired
    | AnnSysprepMerged
    | AnnSysprepMergeError
    | AnnCloudInitSecretMergeRequired
    | AnnCloudInitSecretMerged
    | AnnCloudInitSecretMergeError
    | AnnRemediationRequired
    | AnnRemediationReason
    | AnnRemediationCompleted
    | AnnRemediationError
    | AnnLoggingEnabled
    | AnnAlloyInstalled
    | AnnAlloyConfigHash
    | AnnAlloyError
    | AnnLinuxSSHUser
    | AnnUsername
    | OtherName(name: string)

  /** The reasons the controller writes next to a status. */
  datatype Why =
    | MissingOSLabel
    | MonitoringSecretError
    | WaitingForVMIForLinuxRemediation
    | WaitingForVMIForWindowsRemediation
    | WaitingForIPForLinuxRemediation
    | WaitingForIPForWindowsRemediation
    | WaitingForSSHForLinuxRemediation
    | LinuxSSHUserMissing
    | WaitingForBootstrapState
    | BootstrapInProgress
    | WaitingForVMI
    | WaitingForIP
    | ExporterNotReady
    | AlloyInstallFailed
    | Verified

  /** An annotation value: a word the program writes or compares, or any other text. */
  datatype Value =
    | True | False
    | Pending | Ready | Skipped
    | UnknownOS | LinuxOS | WindowsOS
    | NodeExporter | WindowsExporter
    | BootstrapV1
    | BootstrapKind(kind: nat)
    | CloudInitSizeLimit | WindowsRawPowershell
    | Because(why: Why)
    | Text(text: string)

  type Annotations = map<Key, Value>

  /** Reading a name that is absent gives the empty text, as for a Go map of strings. */
  function Get(ann: Annotations, key: Key): Value {
    if key in ann then ann[key] else Text("")
  }
}
