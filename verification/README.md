# KubeVirt Observability Operator: a verified model

This project models, in Dafny 4.11, the parts of the KubeVirt Observability Operator in which state
is kept, shared or rewritten, and proves what they keep.

**The VM reconcile protocol.** A VM's progress is remembered in its annotations alone. The admission
webhook writes the first ones, the controller's `Reconcile` reads and rewrites them on every call, and
`kvoctl onboard` edits them from outside. `ReconcileStep.dfy` is one `Reconcile` call as a function of
the stored VM and of everything the call meets (which API calls fail, the instance's addresses, SSH and
script results, the state of a Windows guest, the exporter probe, the Loki token, the clock).
`VMReconciler.dfy` is the controller itself: it edits a local copy of the VM in place and sends
difference patches to a server that keeps its own object, and every method is proved to leave on the
server exactly what the function says, also where a failed patch leaves the copy ahead of the server.
What a step means is stated without that function, on the annotations and on what the call meets:
`StepOutcomes.dfy` says exactly when a VM waits for which reason, `StepProgress.dfy` settles every other
outcome with the annotations it leaves, `StepFrame.dfy` says what no step touches, and `ReadyGate.dfy` and
`RemediationGate.dfy` say exactly when a VM is ready and when a script is started.
`Onboarding.dfy` is kvoctl's classification, its hand-over patch and its counting loops;
`OnboardingFacts.dfy` says which VMs it takes and what it writes.
`Protocol.dfy` interleaves both programs arbitrarily; the theorems about runs are in
`RemediationSafety.dfy`, `RemediationGate.dfy`, `AlloyCache.dfy`, `StatusGate.dfy`, `Convergence.dfy` and
`Recovery.dfy`.

**Merges into documents users own.** `CloudConfig.dfy` and `CloudConfigFacts.dfy` merge managed files,
commands and a user into a parsed cloud-config document; `CloudInitMerge.dfy` adds header, raw scripts
and the parser's branches; `CloudInitSource.dfy` adds the Secret: choosing the key, seeing through
base64, copying byte slices. `SshHints.dfy` is the controller's Secret step, where SSH hints are put
into the in-memory object and must not reach the stored one. `VmPatch.dfy` and `Webhook.dfy` are the
admission webhook, on values and on heap objects (whether two references are the same annotation map
decides what survives); `Admission.dfy` says what becomes of the user's data and with which annotations a VM
enters the protocol. `Sysprep.dfy` and `GrafanaDeployment.dfy` are the answer-file and the Grafana
deployment merges.

**Encoders and tokens.** `PowerShell.dfy`, `Base64.dfy` and `ShellQuote.dfy` contain both directions:
what the program writes and an independent reader for it (RFC 4648 section 4; RFC 2781 sections 2.1 and
2.2; POSIX.1-2017 Shell Command Language sections 2.2.2 and 2.2.3). `Commands.dfy` is the normal form by
which a `runcmd` entry is recognised. `LokiToken.dfy` is the token Secret as a timed state machine.
`MergePatch.dfy` is section 2 of RFC 7396 on flat objects.

## What turned out differently from what one might expect

Where the obvious statement is false of the code, the model keeps the code and the project proves
exactly when the statement holds.

- A VM that arrives without an annotation map loses every mark the webhook's helpers set, because they
  put them into a second map: it comes out as it would with an empty map exactly when its volumes earn no
  mark (`VmPatch.MarksLostWithoutMap`). If its OS is unknown too, it is not handed to the controller at all
  (`VmPatch.UnknownMarkedIff`).
- Merging cloud-init text twice gives the same text exactly when the first result does not look like a raw
  script and trimming its end does not change what it says. The Windows result looks raw, so a second merge
  drops its header; a Linux text can lose the line break of its last value
  (`CloudInitMerge.TextIdempotentIff`, `CloudInitMerge.TextIdempotentIffTrimHarmless`,
  `CloudInitMerge.FreshWindowsTextNotIdempotent`, `CloudInitMerge.LinuxTextNotIdempotent`).
- `ready` does not mean that the exporter answered. A step that is otherwise ready is so without it exactly
  when a Windows guest reports how its bootstrap ended, or nothing has been reported for ten minutes, which
  is how a Linux VM gets there (`ReadyGate.ReadyWithoutExporterIff`, `ReadyGate.LinuxReadyWithoutExporterIff`).
- Hint injection and merge prefer different spellings of the user-data key. They agree exactly when the
  Secret does not hold both; with both, the requested user is silently not added
  (`SshHints.KeysAgreeIff`, `SshHints.BothKeysLoseTheUser`). With one, the user is silently not added exactly
  when the text with the hints reads as a raw script (`SshHints.UserMergedIff`, `SshHints.RawLosesTheUser`).
- A Windows config-drive with long user data is marked for the Secret merge although no Secret is made
  for it (`VmPatch.ConfigDriveMarkedWithoutSecret`); inserted volumes are not checked for length
  (`VmPatch.InjectedIsComplete`).
- Inline data survive admission except exactly Windows NoCloud data that are too long: the VM then refers to
  a Secret that nobody fills with them, and the one the controller makes starts empty
  (`Admission.InlineSurvivesIff`, `Admission.MovedOutIsForgotten`, `SshHints.CreatedIsEmpty`).
- A VM created from an exported manifest keeps a completed remediation and an Alloy hash. The record it brings
  is consistent exactly when it holds no error and no remediation is pending or earned anew
  (`Admission.AdmittedKeepsRecordIff`).
- kvoctl takes labels such as `ol` for Linux, the controller does not, and a label that is there is not
  replaced. kvoctl's VMs become ready except exactly those (`OsDetect.ReadersDifferOnOracle`,
  `Recovery.OnboardedBecomesReady`, `Recovery.StuckNeverReady`).
- Onboarding the same VM twice in a row is a no-op the second time, except exactly when the VM was skipped
  for its label, because the stale marks survive the first patch (`Recovery.TakenUpAgainIff`).
- The Sysprep merge can fill a blank attribute and report no change (`Sysprep.UnchangedYetDifferent`): its
  report is truthful exactly when the command is appended or there is no blank (`Sysprep.ChangedTruthfulIff`).
  Its appended order is the largest exactly when the largest 64-bit order does not occur
  (`Sysprep.AppendedOrderIsLargestIff`).
- The NUL framing behind the Alloy hash determines a pair exactly when neither value holds a NUL
  (`AlloyCache.DeterminedIffClean`).
- The 2048-byte limit of the webhook is on the decoded text; a base64 field keeps to it exactly up to 1536
  bytes of text (`VmPatch.WebhookAgreesWithController`).
- The event for a VM without OS label names the label `kubevirt-observability.io/os`
  (controllers/vm_controller.go:81); the code reads `kubevirt.io/os` (internal/osdetect/detect.go:24),
  and so does the model.

## What is taken for granted

- YAML: a document that was read and merged is rendered to a text that is not blank, does not start with
  white space and, without the white space at its end, reads as a document that still holds everything
  managed, no hints and no raw-script entry (`CloudInitMerge.ReadsBack`). It need not read as the same
  document. Where a lemma needs more of the library, such as that it reads back what it writes or that two
  libraries agree on the hints or on the rest of a document, it says so
  (`CloudInitMerge.TextIdempotentIffTrimHarmless`, `SshHints.HintsGetAcross`, `SshHints.ReadsHints`,
  `SshHints.LibrariesAgree`).
- The hexadecimal SHA-256 is injective and never empty (`AlloyCache.Digest`).
- RFC 3339 text keeps whole seconds, reads back and is not empty (`LokiToken.WholeSeconds`).
- The controller's clock counts whole seconds, and reads back what it writes where a lemma says so
  (`RemediationGate.FirstStepWaits`).
- Every controller step reads the server's current object. The program reads through a cache; a step that
  works on a copy from before a recorded remediation is not modelled.
- API calls, clocks, probes and scripts are inputs: each call may succeed or fail in every step.

## Model

| member | source | states |
|---|---|---|
| `RemediationSafety.RunKeepsRecord` | controllers/vm_controller.go:137-322 | in every interleaving of controller and kvoctl steps, a completed remediation stays completed, managed, not pending and free of errors |
| `RemediationSafety.NeverRepeated` | controllers/vm_controller.go:137-322 | once a success is recorded, no run starts a remediation script again or re-arms the VM |
| `RemediationSafety.RecordedAtMostOnce` | controllers/vm_controller.go:802-823 | at most one remediation success is recorded in the whole life of a VM |
| `RemediationSafety.CompletedIffRecorded` | controllers/vm_controller.go:802-823 | in runs from a VM without the completed mark, the VM carries it at the end exactly when one success was recorded: the mark appears in no other way |
| `RemediationSafety.StepKeepsRecord` | controllers/vm_controller.go:49-372 | a controller step keeps the record, starts no script on a completed VM, and records a success only after a script that ran in the same step |
| `RemediationSafety.OnboardKeepsRecord` | pkg/onboarding/onboard.go:389-416 | onboarding leaves a VM with a completed remediation exactly as it is |
| `RemediationGate.StartsIff` | controllers/vm_controller.go:137-322 | exactly when a step on a known VM starts a remediation script (due, reachable, key and user or guest state, time), and when it records a success |
| `RemediationGate.GuestGetsItsTime` | controllers/vm_controller.go:273-296 | over every run a silent Windows guest that kvoctl did not prepare gets the full ten minutes from its recorded start time before a script is started |
| `RemediationGate.TenMinutesFromFirstStep` | controllers/vm_controller.go:163-176 | in every run such a guest gets the full ten minutes from the instant of the step that recorded the start time |
| `RemediationGate.FirstStepWaits` | controllers/vm_controller.go:163-176 | the first remediation step on such a guest starts no script |
| `RemediationGate.RunKeepsStartTime` | controllers/vm_controller.go:163-176 | a start time, once set, is never changed by any run |
| `AlloyCache.FrameInjective` | controllers/vm_controller.go:1436-1443 | the NUL-terminated framing of any number of NUL-free values determines the values |
| `AlloyCache.FrameAmbiguousWithNul` | controllers/vm_controller.go:1436-1443 | for every pair with a NUL in a value there is another pair with the same framing |
| `AlloyCache.DeterminedIffClean` | controllers/vm_controller.go:1436-1443 | a configuration and token are determined by their framing exactly when neither holds a NUL |
| `AlloyCache.HashTellsApart` | controllers/vm_controller.go:1398-1409 | a NUL-free configuration and token share their hash with no other pair |
| `AlloyCache.RunKeepsBacked` | controllers/vm_controller.go:1398-1433 | in every run the recorded hash is that of a pair whose install script succeeded in the run (or was known before), even when patches fail afterwards |
| `AlloyCache.ReusedWasInstalled` | controllers/vm_controller.go:1397-1409 | in runs that start without a hash, a step that sees a NUL-free configuration and token skips the install only if their script succeeded earlier in the run, whatever earlier steps saw |
| `ReadyGate.ReadyIff` | controllers/vm_controller.go:1136-1323 | a step on a known, managed VM ends without error and requeue exactly when no mark is pending, the instance has an address, the calls succeed, the probe is settled and logging is off, current or installed; the VM is then ready and verified with the hash of this configuration and token |
| `StatusGate.BecomesReadyIff` | controllers/vm_controller.go:137-371 | a VM that is not ready becomes ready in a step, however the step ends, exactly when it is known and managed and the step passes the gate |
| `StatusGate.ReadyRunPassedGate` | controllers/vm_controller.go:49-372 | a VM that was not ready and is ready at the end of a run, kvoctl steps included, has passed the gate in some step of that run |
| `StatusGate.StepStatus` | controllers/vm_controller.go:478-512 | a step keeps the status, or ends for good with ready or skipped, or requeues in 30 seconds with pending, or has wiped the marks of an unknown OS |
| `ReadyGate.ReadyWithoutExporter` | controllers/vm_controller.go:1212-1224 | when a Windows guest can be asked and its marker files say success or failure, the exporter probe does not matter to the step at all |
| `ReadyGate.ReadyWithoutExporterIff` | controllers/vm_controller.go:1212-1224 | a step that would be ready with the exporter answering is ready without it exactly when a Windows guest, asked with a readable key, says success or failure, or nothing is reported and the start time is readable and more than 600 seconds old |
| `ReadyGate.LinuxReadyWithoutExporterIff` | controllers/vm_controller.go:1214-1221 | for Linux, exactly when the start time is readable and more than 600 seconds old |
| `ReadyGate.NotStranded` | controllers/vm_controller.go:49-372 | every step that neither fails nor asks for a positive requeue found the VM gone or unmanaged, or left it ready (OS known) or skipped for its label (OS unknown) |
| `StepOutcomes.WaitsIff` | controllers/vm_controller.go:49-372 | a step on a known VM marks it pending for a reason exactly when that is what is missing, each of the thirteen reasons with its own condition on the annotations and on what the step meets; it then comes back in 30 seconds, unless the mark has to be patched and cannot be |
| `StepProgress.OutcomeIs` | controllers/vm_controller.go:49-372 | every other outcome of such a step: unknown marks wiped, script run, guest done, merge done or failed, ready; each under its exact condition and with exactly the annotations it leaves |
| `StepFrame.StepKeeps` | controllers/vm_controller.go:49-372 | a step leaves every annotation outside its own names as it was, and notes that the bootstrap is ready exactly when it reaches the probe of a guest that reports success and the patch goes through |
| `ReadyGate.SyncGate` | controllers/vm_controller.go:1136-1323 | exact conditions under which the sync step ends in ready |
| `ReadyGate.AlloyGate` | controllers/vm_controller.go:1445-1474 | the Alloy step succeeds exactly when logging is off, or access, token and route are there and the pair is installed or can be; it then leaves the current hash recorded |
| `ReadyGate.AlloyWrites` | controllers/vm_controller.go:1397-1433 | what a successful Alloy step writes: nothing when logging is off or the pair is installed already, otherwise the hash and the mark, and no error is left |
| `Convergence.Converges` | controllers/vm_controller.go:64-371 | from any annotations of a managed VM with a known OS, each cooperative step discharges exactly one of at most four obligations, and every later step leaves the VM ready: five steps suffice; a Windows guest may report success or be taken over |
| `Convergence.ObligationsNeverRise` | controllers/vm_controller.go:49-372 | no step of the controller, in any environment and however it ends, adds an obligation |
| `Convergence.ProgressDespiteFailures` | controllers/vm_controller.go:49-372 | over any run of controller steps, failing ones included, the obligations fall by at least the number of cooperative steps |
| `Convergence.ReadyDespiteFailures` | controllers/vm_controller.go:49-372 | a run that holds as many cooperative steps as there were obligations leaves the VM ready at its next cooperative step |
| `Convergence.StepLowers` | controllers/vm_controller.go:64-371 | a cooperative step on a VM with obligations lowers their number by exactly one |
| `Convergence.StepReady` | controllers/vm_controller.go:1136-1323 | a cooperative step on a VM without obligations declares it ready and brings none back |
| `Convergence.StepStaysCooperative` | controllers/vm_controller.go:49-372 | a step, in whatever environment, does not spoil later cooperation, unless a Windows guest takes back a success it reported |
| `Recovery.OnboardingCannotDelete` | pkg/onboarding/patch.go:64-96 | the onboarding patch cannot remove status, reason, bootstrap-os or exporter from the server, although kvoctl deletes them from its map |
| `Recovery.KnownAfterOnboarding` | pkg/onboarding/patch.go:40-53 | after onboarding the controller knows the OS exactly when the label was empty or already known to it |
| `Recovery.SkippedVMRecovers` | controllers/vm_controller.go:64-78 | a managed VM skipped for want of a label, with unknown marks, is free of the four stale names and due for remediation after one onboarding patch and one step |
| `Recovery.StuckNeverReady` | pkg/onboarding/patch.go:49-51 | a VM whose label is present but unknown to the controller never becomes ready, in any interleaving and environment |
| `Recovery.OnboardedBecomesReady` | pkg/onboarding/onboard.go:447-470 | an onboarded VM is ready after five or more steps in a helpful world, except exactly when its label was present but unknown to the controller; a Windows guest may report success from the start, later or never |
| `Recovery.OnboardedCooperates` | controllers/vm_controller.go:273-296 | kvoctl leaves every Windows guest such that the controller can take it over without any report of its own |
| `Recovery.TakenUpAgainIff` | pkg/onboarding/onboard.go:389-416 | a second onboarding, before the controller has looked at the VM, succeeds again exactly when the VM was skipped for its label |
| `Recovery.UnknownStep` | controllers/vm_controller.go:80-84 | a step on a managed VM of unknown OS ends quietly with skipped for its label, or fails when that has to be patched and cannot be; nothing but status and reason changes |
| `StepFacts.ReconcileFacts` | controllers/vm_controller.go:49-372 | what every step keeps: names it only reads, the remediation record, the hash discipline; done means settled and a requeue is positive; an unmanaged or missing VM is not touched |
| `VMReconciler.Reconciler.ReconcileVM` | controllers/vm_controller.go:49-372 | one call on the in-memory copy with difference patches leaves the server, the outcome and the record of scripts exactly as the step function says |
| `VMReconciler.Reconciler.Patch` | controllers/vm_controller.go:64-78 | a merge patch applies the difference between base and copy to the server and decodes the answer over the copy; a failed one changes neither |
| `VMReconciler.Reconciler.PatchInSync` | controllers/vm_controller.go:64-78 | against an up-to-date base the server ends with exactly the edited copy |
| `VMReconciler.MarkByPatch` | controllers/vm_controller.go:478-512 | marking by a patch taken from a copy that has drifted elsewhere marks the server just as it would have been marked directly |
| `VMReconciler.Reconciler.MarkVM` | controllers/vm_controller.go:478-512 | writes status and reason unless they are there already; ready and skipped end the queue, others requeue in 30 seconds |
| `VMReconciler.Reconciler.MarkRemediation` | controllers/vm_controller.go:802-823 | a success sets completed and removes error and required, a failure notes the error, a failed patch changes nothing |
| `VMReconciler.Reconciler.RemediateLinuxVM` | controllers/vm_controller.go:178-220 | the Linux branch of remediation |
| `VMReconciler.Reconciler.RemediateWindowsVM` | controllers/vm_controller.go:222-317 | the Windows branch of remediation, with the bootstrap state and its ten-minute limit |
| `VMReconciler.Reconciler.RemediateVM` | controllers/vm_controller.go:137-322 | waiting for the instance and its address, the start time, and the branch for the OS |
| `VMReconciler.Reconciler.MergeSysprepVM` | controllers/vm_controller.go:455-475 | the outcome of the Sysprep merge is recorded and requeued |
| `VMReconciler.Reconciler.MergeCloudInitVM` | controllers/vm_controller.go:670-690 | the outcome of the cloud-init Secret merge is recorded and requeued |
| `VMReconciler.Reconciler.RecordAlloy` | controllers/vm_controller.go:1422-1433 | after a script that succeeded the hash is recorded; if that patch fails the copy is ahead of the server |
| `VMReconciler.Reconciler.ReconcileLinuxAlloy` | controllers/vm_controller.go:1374-1434 | the Linux install: skipped on a matching hash, recorded after success |
| `VMReconciler.Reconciler.ReconcileWindowsAlloy` | controllers/vm_controller.go:1476-1568 | the Windows install, which also needs a finished bootstrap or remediation |
| `VMReconciler.Reconciler.ReconcileAlloyIfEnabled` | controllers/vm_controller.go:1445-1474 | nothing happens without the logging mark; otherwise the install for the OS |
| `VMReconciler.Reconciler.FinishSyncVM` | controllers/vm_controller.go:1265-1322 | from the Alloy step to the final mark, also when the copy is ahead of the server |
| `VMReconciler.Reconciler.SyncMetricsScrapeResources` | controllers/vm_controller.go:1136-1323 | address, scrape resources, probe verdict, Windows clean-up and the final steps |
| `VMReconciler.Reconciler.PrepareNamespace` | controllers/vm_controller.go:86-135 | the namespace preparations in order; the first failure decides the outcome |
| `MergePatch.DiffIsThreeWayMerge` | controllers/vm_controller.go:64-78 | a difference patch takes each name from the client if the client changed it and from the server otherwise (RFC 7396, section 2) |
| `MergePatch.ApplyDiff` | controllers/vm_controller.go:64-78 | against the server's own object the patch installs exactly the edited one |
| `MergePatch.WholeNeverDeletes` | pkg/onboarding/patch.go:81-96 | a patch that carries a whole map never removes a name from the server |
| `MergePatch.UpdatesReachServer` | controllers/vm_controller.go:493-503 | two updates made on a drifted copy reach the server as those updates |
| `Onboarding.ClassifyVM` | pkg/onboarding/onboard.go:303-425 | the step-by-step classification gives the verdict of the state function, and a ready candidate has the chosen OS and source |
| `Onboarding.StoredVM.MarkVMReadyForReconciliation` | pkg/onboarding/patch.go:15-107 | fails exactly on a contradicting label or a failed patch and then changes nothing; otherwise the server has the armed annotations and the label is written only where it was empty |
| `Onboarding.StoredVM.OnboardOne` | pkg/onboarding/onboard.go:141-194 | a VM is onboarded exactly when it is ready, has a usable address, could be prepared and patched |
| `Onboarding.Summarize` | pkg/onboarding/onboard.go:95-110 | every candidate is counted exactly once, under its own state |
| `Onboarding.Execute` | pkg/onboarding/onboard.go:138-209 | only ready candidates are touched, each ends onboarded exactly when it has an address other than that of the NAT, its guest was prepared and the patch went through, and failed otherwise; the counters count the final states, and the command succeeds exactly when none failed |
| `OnboardingFacts.VerdictsIff` | pkg/onboarding/onboard.go:303-425 | exactly when each verdict is given: conflict, already managed, in progress, ready, skipped |
| `OnboardingFacts.SucceedsIff` | pkg/onboarding/onboard.go:141-194 | exactly which VMs are onboarded: not disabled, OS told and not contradicted, not yet managed or given up for its label, with an address of its own, guest prepared, patch through |
| `OnboardingFacts.OnboardWrites` | pkg/onboarding/patch.go:15-107 | onboarding sets the five annotations, logging included, and a label where there is none; every other annotation and label stays |
| `OsDetect.ReadersDifferOnOracle` | pkg/onboarding/onboard.go:447-470 | kvoctl and the controller read a label differently exactly when the controller does not know it and kvoctl takes it for Oracle Linux |
| `OsDetect.FamilyIff` | internal/osdetect/detect.go:18-42 | a label means Windows exactly when it holds `win` in any case, and Linux exactly when it does not and holds one of nine words |
| `OsDetect.WrittenLabelsAreKnown` | internal/osdetect/detect.go:18-42 | the labels kvoctl writes are known to the controller |
| `OsDetect.OracleLabelExample` | pkg/onboarding/onboard.go:462-463 | a concrete label on which the two differ |
| `CloudConfigFacts.MergeTwice` | internal/cloudinitmerge/merge.go:34-72 | merging, stripping the hints and merging again changes nothing, for both operating systems |
| `CloudConfigFacts.NothingLost` | internal/cloudinitmerge/merge.go:126-195 | files, commands and users that were there are prefixes of the result, other parts are untouched; disable_root is added or changed only for root |
| `CloudConfigFacts.MergedIsComplete` | internal/cloudinitmerge/merge.go:126-195 | all managed files and commands are there afterwards |
| `CloudConfigFacts.CompleteIsFixed` | internal/cloudinitmerge/merge.go:126-195 | a complete document without hints is left exactly as it is |
| `CloudConfigFacts.ManagedOccurOnce` | internal/cloudinitmerge/merge.go:126-169 | each managed Linux path and command occurs max(1, previous count) times |
| `CloudConfigFacts.WindowsManagedOccurOnce` | internal/cloudinitmerge/merge.go:172-195 | the managed Windows path and command occur max(1, previous count) times |
| `CloudConfigFacts.UserOccursOnce` | internal/cloudinitmerge/merge.go:544-585 | with complete hints the user occurs max(1, previous count) times, without them the users are unchanged |
| `CloudConfigFacts.UserAddedIff` | internal/cloudinitmerge/merge.go:544-585 | a user is added exactly when both hints are non-empty strings and no mapping in the list of users has that name; users that are no list count as none |
| `CloudConfigFacts.UserWritten` | internal/cloudinitmerge/merge.go:544-585 | a missing user is appended under the requested name with the requested public key as its only authorised key, with shell and sudo exactly when it is not root, and root gets disable_root false |
| `CloudConfigFacts.LinuxFilesWritten` | internal/cloudinitmerge/merge.go:126-152 | the script (0755) and then the unit (0644) are appended with their content under their paths, each exactly when no file is at its path |
| `CloudConfigFacts.WindowsFileWritten` | internal/cloudinitmerge/merge.go:172-185 | the Windows script with the hinted key is appended under its path (0644) exactly when no file is there |
| `CloudConfigFacts.CommandsWritten` | internal/cloudinitmerge/merge.go:155-195 | the missing commands are appended, the reload before the start of the service |
| `CloudConfig.MergeConfig` | internal/cloudinitmerge/merge.go:34-72 | the in-place merge gives the merged document without hints, and changed is true exactly when that differs from the original apart from hints |
| `CloudConfig.HintsSurvive` | internal/cloudinitmerge/merge.go:114-123 | the merge itself leaves the hints alone, so a change is a change apart from them |
| `CloudConfig.HasWriteFile` | internal/cloudinitmerge/merge.go:198-209 | finds a file exactly when some entry has the path up to case |
| `CloudConfig.HasRunCmd` | internal/cloudinitmerge/merge.go:212-231 | finds a command exactly when some string or argv entry has its normal form |
| `CloudConfig.ArgvRecognised` | internal/cloudinitmerge/merge.go:220-226 | an argv entry is recognised exactly when its items, split at white space, are the command's words |
| `CloudConfig.ArgvOfWords` | internal/cloudinitmerge/merge.go:220-226 | an argv entry of words is recognised exactly when they are the command's words |
| `CloudConfig.StringRecognised` | internal/cloudinitmerge/merge.go:214-219 | a string entry is recognised exactly when its words are the command's, however they are spaced |
| `CloudConfig.Config.EnsureLinuxSSH` | internal/cloudinitmerge/merge.go:544-585 | adds the hinted user unless complete hints are missing or a user of that name is there, and reports the change truthfully |
| `CloudConfig.Config.EnsureLinux` | internal/cloudinitmerge/merge.go:126-169 | the Linux part in place, with changed true exactly when the document differs |
| `CloudConfig.Config.EnsureWindows` | internal/cloudinitmerge/merge.go:172-195 | the Windows part in place, with changed true exactly when the document differs |
| `Commands.SplitUndoesJoin` | internal/cloudinitmerge/merge.go:234-236 | splitting the single-space join of any words gives back the words |
| `Commands.NormalizeIdempotent` | internal/cloudinitmerge/merge.go:234-236 | normalising a command twice is normalising it once |
| `Commands.MatchIffSameWords` | internal/cloudinitmerge/merge.go:212-231 | two commands match exactly when their word sequences are equal |
| `Commands.ArgvMatchesLikeString` | internal/cloudinitmerge/merge.go:212-231 | an argv entry matches exactly like a string entry of the same words |
| `CloudInitMerge.MergeUserData` | internal/cloudinitmerge/merge.go:34-72 | the merge of a text, including raw scripts, parse errors and an unsupported OS |
| `CloudInitMerge.RawLooks` | internal/cloudinitmerge/merge.go:93-102 | which openings, and which word anywhere, make a text a raw script |
| `CloudInitMerge.BodyOfText` | internal/cloudinitmerge/merge.go:75-91 | on characters: what the parser gets is the text without surrounding white space, the header, and the white space after it |
| `CloudInitMerge.MergeIs` | internal/cloudinitmerge/merge.go:34-111 | exactly when a merge fails, and that raw scripts come back unchanged: the trimmed text without header, or what stands under raw_userdata |
| `GoBytes.TrimIsTrimSpace` | internal/cloudinitmerge/merge.go:75-91 | trimming the UTF-8 bytes of a text, multi-byte white space included, is trimming its characters |
| `CloudInitMerge.MergeAgain` | internal/cloudinitmerge/merge.go:34-111 | a second merge never reports a change; it gives the text without its header if that looks like a raw script, and otherwise what the reading of the text renders to |
| `CloudInitMerge.TextIdempotentIff` | internal/cloudinitmerge/merge.go:75-111 | the second merge gives the same text exactly when the first result does not look like a raw script and its reading renders to the same bytes |
| `CloudInitMerge.TextIdempotentIffTrimHarmless` | internal/cloudinitmerge/merge.go:75-123 | where the library reads back what it writes: the same text exactly when it does not look raw and trimming its end does not change what it says |
| `CloudInitMerge.LinuxTextNotIdempotent` | internal/cloudinitmerge/merge.go:75-123 | a concrete Linux document whose last value loses its line break in the second parse gives a different second text |
| `CloudInitMerge.WindowsTextNotIdempotent` | internal/cloudinitmerge/merge.go:93-102 | for Windows, where the rendered script holds `winrm `, the second merge gives the text without its header |
| `CloudInitMerge.FreshWindowsTextNotIdempotent` | internal/cloudinitmerge/merge.go:93-102 | so it does already for empty user data |
| `CloudInitMerge.MergedTextIsComplete` | internal/cloudinitmerge/merge.go:34-123 | for both systems, whatever the merged text looks like, its YAML reading holds everything managed and no hints |
| `CloudInitSource.MergeSecretTwice` | internal/cloudinitmerge/source.go:16-46 | the merge on its own output reports no change and gives the same data, key and encoding, for both operating systems and both encodings; only the value under the key can differ |
| `CloudInitSource.MergeSecretData` | internal/cloudinitmerge/source.go:16-46 | the whole function on byte slices: the input slices keep their bytes, the key is the one the rules name, an unchanged result shares the input and a changed one shares no slice |
| `CloudInitSource.FindCloudInitSecretKey` | internal/cloudinitmerge/source.go:49-70 | finds the preferred spelling, then the other, then the first in byte order of the known names, or nothing |
| `CloudInitSource.SecretKeyUnique` | internal/cloudinitmerge/source.go:49-70 | the rules name at most one key |
| `CloudInitSource.KnownNameIff` | internal/cloudinitmerge/source.go:49-70 | white space around a key and its case do not matter: it is known exactly when its lower-case core is one of three names |
| `CloudInitSource.SortedKeys` | internal/cloudinitmerge/source.go:60-66 | the keys in strict byte order, none missing and none added |
| `CloudInitSource.FirstDifferenceDecides` | internal/cloudinitmerge/source.go:60-66 | byte order: the first difference decides, and a beginning comes first |
| `CloudInitSource.PlainStaysPlain` | internal/cloudinitmerge/source.go:73-93 | a text starting with # is never taken for base64 |
| `CloudInitSource.SeenThroughIff` | internal/cloudinitmerge/source.go:73-93 | a value is decoded exactly when, trimmed, it is base64 of a text with one of four markers, and is otherwise taken as it is, blank text as empty |
| `CloudInitSource.EncodedStaysEncoded` | internal/cloudinitmerge/source.go:73-93 | an encoded text that holds a marker is decoded, and known to have been encoded |
| `CloudInitSource.CopyByteMap` | internal/cloudinitmerge/source.go:96-108 | a deep copy: same keys, same bytes, nil stays nil, no slice shared |
| `SshHints.SecretStore.ReconcileCloudInitSecret` | controllers/vm_controller.go:540-656 | done exactly when the calls, the injection and the merge succeed, and a change is then stored; whatever happens, the stored Secret is as it was or as created, except for one text written from a document without hints under the key of the merge |
| `SshHints.SecretStore.MergeStored` | controllers/vm_controller.go:575-655 | done exactly when injection and merge succeed and a change can be patched; the server then has its own data with the merged value under the key of the merge |
| `SshHints.ChangeIsStored` | controllers/vm_controller.go:625-655 | a merge that reports a change has changed the value, so the patch carries it and the stored data are the server's with that value |
| `SshHints.Secret.InjectSSHMergeHints` | controllers/vm_controller.go:1582-1620 | succeeds exactly when user and key are given, a user-data key is there and its text parses; changes that one value only, or nothing |
| `SshHints.InjectOkIff` | controllers/vm_controller.go:1582-1620 | exactly when the hints can be put in: user and key not blank, a user-data key present (`userData` first) and its text readable |
| `SshHints.FlatBodyIsBody` | controllers/vm_controller.go:1598-1606 | injection and merge parse the same part of the text |
| `SshHints.InjectKeepsDocument` | controllers/vm_controller.go:1598-1611 | the injected text reads as what the text before it read as, with the two hints: nothing the user wrote is lost |
| `SshHints.StoredKeepsDocument` | controllers/vm_controller.go:540-656 | and so through the merge: what is written renders a document in which all that the Secret held before is kept in place and in order |
| `SshHints.PatchCarriesOneKey` | controllers/vm_controller.go:633-642 | a patch taken against the copy that already holds the hints carries the merged key alone |
| `SshHints.KeysAgreeIff` | controllers/vm_controller.go:1588-1596 | injection and merge work on the same key exactly when not both spellings are there |
| `SshHints.BothKeysLoseTheUser` | controllers/vm_controller.go:1588-1596 | with both spellings the merge does exactly what it would have done without the hints |
| `SshHints.OneKeyAddsTheUser` | controllers/vm_controller.go:1582-1620 | with one spelling: a text that reads as a document is merged with the requested user and is what is written; a raw script is reported as merged although nothing is written; anything else is an error |
| `SshHints.UserMergedIff` | controllers/vm_controller.go:1582-1620 | the requested user is merged exactly when there is one spelling and the text with the hints reads as a document, or there are both and the merge would have brought the user without hints |
| `SshHints.RawLosesTheUser` | controllers/vm_controller.go:606-655 | with one spelling and a text that looks raw, the step succeeds, writes nothing and the user is not added |
| `SshHints.WindowsKeyIff` | controllers/vm_controller.go:606-655 | the injected public key gets into the Windows script exactly when there is one spelling, the text with the hints reads as a document and no file is at the script's path, or there are both and the merge would have written it without hints |
| `SshHints.CreatedIsEmpty` | controllers/vm_controller.go:555-579 | the Secret the controller makes where there is none reads as an empty document |
| `VmPatch.WebhookAgreesWithController` | internal/patch/vm_patch.go:20-64 | an admitted NoCloud VM has exactly the mark it has earned; a Secret merge comes with a Secret reference on the volume the controller selects, remediation leaves the volumes alone, both exclude each other, and an unmarked volume holds its merged text, of at most 2048 bytes when decoded, in the encoding it came in (base64 fields keep to 2048 bytes exactly up to 1536 bytes of text) |
| `VmPatch.MarksLostWithoutMap` | internal/patch/vm_patch.go:20-64 | for every kind of bootstrap: without an annotation map the VM is admitted, and comes out, as with an empty map but for the marks, and the same altogether exactly when it earns no mark |
| `VmPatch.AnnotationsOfAdmitted` | internal/patch/vm_patch.go:20-64 | an admitted VM of a known OS has exactly the annotations of every managed VM and, if it came with a map, the mark its volumes earn |
| `Admission.AdmittedWords` | internal/patch/vm_patch.go:20-64 | the words on an admitted VM: managed, OS and exporter of its family, the kind of its first bootstrap volume, logging as its owner said and on otherwise, no legacy mark; the owner's other annotations stay |
| `VmPatch.AdmittedIff` | internal/patch/vm_patch.go:20-108 | exactly which VMs are admitted: disabled (then as they are) or of unknown OS, or with a source that is in a Secret, can be read, or is missing, and Sysprep for Windows only |
| `VmPatch.ConfigDriveMarkedWithoutSecret` | internal/patch/vm_patch.go:228-257 | a Windows config-drive is marked exactly when its merged data are too long, and then no Secret volume appears |
| `Admission.ConfigDriveHoldsMerged` | internal/patch/vm_patch.go:219-257 | a config-drive holds its merged text in the encoding it came in, of any length for Linux; a Windows one that would be too long is left as it was |
| `Admission.InlineSurvivesIff` | internal/patch/vm_patch.go:111-216 | inline NoCloud data survive admission, merged or as they were, exactly when they are not Windows data too long for the volume; those are emptied and a Secret named after the VM is referred to |
| `Admission.MovedOutIsForgotten` | internal/patch/vm_patch.go:195-212 | VMs that differ only in such data are admitted as the same VM, so nothing later can depend on the data |
| `Admission.AdmittedKeepsRecordIff` | internal/patch/vm_patch.go:20-64 | an admitted VM of a known OS meets the start condition of the run theorems exactly when it did not bring a completed remediation together with an error, a pending one or data that earn one; an Alloy hash it brings stays |
| `VmPatch.AdmittedHasAccess` | internal/patch/vm_patch.go:344-368 | every admitted VM of a known OS is managed and gains exactly one credential, for the annotated or template user or Administrator, unless it has one; disks that were there are a prefix |
| `VmPatch.UserForIs` | internal/patch/vm_patch.go:511-534 | the credential is for Administrator on Windows; on Linux for the annotated user, else the template's, else ubuntu |
| `VmPatch.EncodedFieldWins` | internal/patch/vm_patch.go:436-454 | inline data are read from the base64 field exactly when it is not empty, and fail exactly when that does not decode |
| `VmPatch.UnknownMarkedIff` | internal/patch/vm_patch.go:20-64 | a VM of unknown OS keeps volumes, disks and credentials, and is handed to the controller marked unknown exactly when it came with an annotation map |
| `VmPatch.InjectedIsComplete` | internal/patch/vm_patch.go:274-341 | a VM without bootstrap source gets a disk, on the bus of its family, and at the end a volume whose text, read as YAML, holds everything managed and no hints, as its new bootstrap source |
| `VmPatch.DetectBootstrap` | internal/bootstrapdetect/detect.go:21-34 | the first volume that carries a bootstrap source decides, in it NoCloud before config-drive before Sysprep; there is none exactly when no volume carries one |
| `VmPatch.FindSkips` | controllers/vm_controller.go:659-667 | if the first bootstrap volume refers to a Secret, it is the volume the controller selects |
| `Webhook.VirtualMachine.EnsureMonitoringBootstrap` | internal/patch/vm_patch.go:20-64 | the in-place changes with shared annotation maps are those of the value-level function, and an error is reported exactly when it has one |
| `Webhook.VirtualMachine.MarkRemediationRequired` | internal/patch/vm_patch.go:540-553 | sets the three remediation marks and removes the Secret-merge mark, in the VM's own map if there is one |
| `Webhook.VirtualMachine.EnsureSSHAccess` | internal/patch/vm_patch.go:344-368 | adds the credential unless one with that Secret is there |
| `Webhook.VirtualMachine.MergeLinuxNoCloudVolume` | internal/patch/vm_patch.go:111-148 | the Linux NoCloud branch in place |
| `Webhook.VirtualMachine.MergeWindowsNoCloudVolume` | internal/patch/vm_patch.go:151-216 | the Windows NoCloud branch in place, with raw scripts and the size limit |
| `Webhook.VirtualMachine.MergeConfigDriveVolume` | internal/patch/vm_patch.go:219-257 | both config-drive branches in place |
| `Webhook.VirtualMachine.Inject` | internal/patch/vm_patch.go:274-341 | disk and volume are added unless their names are taken |
| `Sysprep.MergeTwice` | internal/sysprepmerge/merge.go:100-127 | a second merge is the identity and appends nothing |
| `Sysprep.NothingElseTouched` | internal/sysprepmerge/merge.go:100-183 | other settings and components stay as they were; in the target only blank attributes are filled and earlier commands are a prefix |
| `Sysprep.BlanksFilledWith` | internal/sysprepmerge/merge.go:164-183 | blank attributes get the values Windows expects, and neither name nor commands change |
| `Sysprep.CommandWritten` | internal/sysprepmerge/merge.go:100-127 | the appended command runs the script at its path, has the given order, and is recognised later by its description and by the path alone |
| `Sysprep.Recognised` | internal/sysprepmerge/merge.go:100-161 | pass, component and command are recognised in any case and with white space around them, the command also by its path alone |
| `Sysprep.AppendedOrderIsLargestIff` | internal/sysprepmerge/merge.go:186-194 | the appended order exceeds every existing one exactly when the largest 64-bit order does not occur, and distinct orders then stay distinct |
| `Sysprep.UnchangedYetDifferent` | internal/sysprepmerge/merge.go:143-183 | a document that has the command can come out different with changed false |
| `Sysprep.ChangedTruthfulIff` | internal/sysprepmerge/merge.go:100-183 | the reported change is truthful exactly when the command is appended or the component has no blank to fill |
| `Sysprep.DiffersIff` | internal/sysprepmerge/merge.go:100-183 | the document comes out different exactly when the command is appended or a blank is filled |
| `Sysprep.Unattend.EnsureBootstrapCommand` | internal/sysprepmerge/merge.go:100-127 | the in-place merge gives the merged document and reports true exactly when it appended the command |
| `Sysprep.Unattend.EnsureSetting` | internal/sysprepmerge/merge.go:130-140 | the first setting of the pass, or one appended |
| `Sysprep.Unattend.EnsureDeploymentComponent` | internal/sysprepmerge/merge.go:143-161 | the first deployment component with blanks filled, or one appended |
| `Sysprep.NextOrder` | internal/sysprepmerge/merge.go:186-194 | one more than the largest order (at least zero), in 64-bit arithmetic |
| `GrafanaDeployment.Deployment.MergeExisting` | pkg/grafana/deployment.go:101-199 | succeeds exactly when nothing in the pod as given conflicts with a required entry, and then completes the pod |
| `GrafanaDeployment.MountFreeIff` | pkg/grafana/deployment.go:276-315 | for distinct names and paths a mount is free exactly when no mount shares its name without its path or its path without its name |
| `GrafanaDeployment.MergeAddsOnlyWhatIsRequired` | pkg/grafana/deployment.go:101-199 | all required entries are present, old ones are prefixes, other containers are untouched and mount paths stay distinct |
| `GrafanaDeployment.RerunChangesNothing` | pkg/grafana/deployment.go:101-199 | a second merge finds no conflict and changes nothing |
| `GrafanaDeployment.NewPodIsComplete` | pkg/grafana/deployment.go:365-497 | the merge is a no-op on the deployment the program creates |
| `GrafanaDeployment.CompletePodServes` | pkg/grafana/deployment.go:101-199 | a pod that has everything shows each of the three ConfigMaps under the path where Grafana looks for it and reads both tokens from their Secrets |
| `GrafanaDeployment.DeploymentStore.EnsureDeployment` | pkg/grafana/deployment.go:28-99 | on any failure, a failed read included, the stored deployment is what it was; otherwise it is completed or created, and a deployment someone else has just created is left alone |
| `GrafanaDeployment.Deployment.EnsureSecretEnvVar` | pkg/grafana/deployment.go:213-274 | succeeds exactly when the first variable of the name, if any, is the wanted one |
| `GrafanaDeployment.Deployment.EnsureVolumeMount` | pkg/grafana/deployment.go:276-315 | succeeds exactly when the first mount of the name or path, if any, is the wanted one |
| `GrafanaDeployment.Deployment.EnsureConfigMapVolume` | pkg/grafana/deployment.go:317-363 | succeeds exactly when the first volume of the name, if any, is the wanted one |
| `PowerShell.PowershellEncodedCommand` | internal/remediation/windows_winrm.go:97-109 | base64, then UTF-16LE decoding of the result gives back exactly the normalised script, for every sequence of scalar values |
| `PowerShell.Utf16RoundTrip` | internal/remediation/windows_winrm.go:101 | decoding by section 2.2 of RFC 2781 undoes encoding by section 2.1, surrogate pairs included |
| `PowerShell.NormalizeMeaning` | internal/remediation/windows_winrm.go:98-99 | normalisation turns every CRLF and lone LF into CRLF and leaves every other character |
| `PowerShell.NormalizeIdempotent` | internal/remediation/windows_winrm.go:98-99 | normalising twice is normalising once |
| `PowerShell.NormalizedLinesEndInCrLf` | internal/remediation/windows_winrm.go:98-99 | no LF is left without a CR in front of it |
| `Base64.DecodeEncode` | internal/remediation/windows_winrm.go:108 | decoding undoes encoding for every byte string (RFC 4648, section 4) |
| `Base64.Vectors` | internal/remediation/windows_winrm.go:108 | the alphabet and the padding, by test vectors of section 10 of RFC 4648 |
| `Base64.Alphabet` | internal/remediation/windows_winrm.go:108 | table 1 of RFC 4648: three runs of neighbouring characters and two more |
| `Base64.EncodedLength` | internal/remediation/windows_winrm.go:108 | the encoded form of n bytes has four characters for each group of three, the last one padded |
| `Base64.DecodeRejectsForeign` | internal/cloudinitmerge/source.go:80-83 | a text holding anything but the alphabet, padding and line breaks is never decoded |
| `ShellQuote.QuoteRoundTrip` | pkg/onboarding/ssh.go:207-213 | a shell reads the quoted form of any value as exactly one word equal to it |
| `ShellQuote.QuotedInContext` | pkg/onboarding/ssh.go:207-213 | anywhere on a line the quoted form contributes exactly the value and leaves the rest as it was |
| `ShellQuote.QuoteInjective` | pkg/onboarding/ssh.go:207-213 | distinct values have distinct quoted forms |
| `LokiToken.SecretStore.EnsureLokiWriterTokenSecret` | pkg/vmmonitoring/loki.go:50-268 | the in-place edit of the Secret leaves exactly the state of the step function |
| `LokiToken.IssuedIff` | pkg/vmmonitoring/loki.go:50-268 | a new token is stored exactly when the Secret is absent, its expiration missing or unreadable, or the stored time has come, and the calls succeed; reuse keeps token and expiration; both name manager and account; any other outcome keeps the Secret |
| `LokiToken.ReusedIff` | pkg/vmmonitoring/loki.go:80-132 | exactly when the stored token is reused: it is there, its expiration is readable and ahead, and manager and account are right already or can be updated |
| `LokiToken.DroppedIff` | pkg/vmmonitoring/loki.go:50-268 | a granted token is dropped exactly when someone else has created the Secret in between; with the two statements above this settles errors too |
| `LokiToken.StoredIsLastGrant` | pkg/vmmonitoring/loki.go:50-268 | over any run the stored token is the last one granted, under the second it expires in |
| `LokiToken.ReusedIsValid` | pkg/vmmonitoring/loki.go:76-103 | in every run that starts without a Secret a reused token is the last one granted and still valid at that moment |
| `LokiToken.RotationsAreRare` | pkg/vmmonitoring/loki.go:50-268 | over calls at non-decreasing times, with full lifetimes granted, at most one token is stored per lifetime less a second, plus the first |

## Left out

- Dialling over SSH, WinRM and TCP, Kubernetes client calls, events and logs: each is an input of the step that meets it; the text of an error is one input per step.
- ensureVMServiceAndEndpoints, ensureNamespaceServiceMonitor, namespace labels, alerting and RBAC upserts: each succeeds or fails, and the model does not say what they write.
- Script bodies, unit files and Alloy templates: stand-in texts, of which only the `winrm ` in the Windows script plays a part.
- YAML and XML syntax: the merges work on parsed documents under the premise stated above; MergeMapData and MergeByteData of the Sysprep package, which choose a key and go through the XML text, are not modelled.
- CloudConfig.HasRunCmd: `%v` of a mapping lists its entries in key order, as given in the model's value; other scalars carry their printed text.
- ReconcileStep: the cloud-init and Sysprep source steps appear in `Reconcile` as success or failure; the cloud-init one is modelled on its own in SshHints.dfy.
- VmPatch.WebhookAgreesWithController: speaks of VMs that enter with an annotation map and neither mark set; other entries are the subject of MarksLostWithoutMap.
- RemediationSafety.RecordedAtMostOnce: counts steps that read the server's current object, because a step on a stale cached copy that still shows remediation as required could run a second script.
- Protocol.Run: kvoctl classifies and marks in one atomic step; a candidate list that has gone stale between the two, and scripts/onboard-existing-vms.sh, which can re-arm remediation unconditionally, are not actors.
- Annotation names and the words the program writes are constructors of a datatype, so their spelling is not modelled; any other text is kept as it is.
- GoStrings.ToLower: characters above ASCII whose lower-case form is an ASCII letter are mapped; other case mappings above ASCII are left as they are, since they meet no comparison.
- Label selectors: whether a selector matches a VM is an input.
- Discover, the table kvoctl prints and the order of its candidates; the guest-side key injection over SSH (success or failure is an input).
- The API server's validation, conflicts between writers and defaulting.
- cloud-init data under a reference of a config-drive, which the webhook does not read either.
- pkg/deploy, pkg/operators, pkg/logging, pkg/platform, pkg/alerting, internal/alerting and the other files of pkg/grafana: install sequences and get-or-create wrappers, which are not modelled.
