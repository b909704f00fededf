# Verification model of the Boilerr operator

Boilerr is a Kubernetes operator for game servers installed with SteamCMD. A
`SteamServer` names a `GameDefinition` and overrides parts of it; the operator
turns the two into a ConfigMap, a PersistentVolumeClaim, a StatefulSet and a
Service, and reports what it sees in the server's status. This project models
that in Dafny and proves what the reconcile loops, the config pipeline and the
builders promise. `dafny verify dfyconfig.toml` checks all of it.

## How it is modelled

**The cluster** (`cluster.dfy`) is a store of servers, definitions, ConfigMaps,
claims, StatefulSets, Services and pods. Every write has optimistic concurrency: an
object carries a version, an update against another version is a conflict, and a
version never comes back. Specs and statuses are written separately. A server with
a deletion timestamp disappears when its finalizer list becomes empty. A call may
be refused without effect, or take effect while its reply is lost. Everybody else
may change the store between any two calls: edit, delete and recreate servers,
definitions and children, and move statuses. What others may not do is write the
statuses of servers and definitions or take the operator's finalizer off.

**The reconcilers** appear twice. `steamserver_machine.dfy` and the second half of
`gamedefinition.dfy` give them as step machines: a point of the code fixes the next
API call, and its reply fixes the next point. `steamserver_controller.dfy` and
`gamedefinition_controller.dfy` give them as the program has them: classes whose
methods change the server in hand field by field, loop, call the API and return.
Between any two calls the others, which are the environment and all other workers,
take any number of steps; they and the faults are a script passed to the
constructor, and the methods are proved for every script. The classes keep a record
of what happened. `executions.dfy` shows that a run of the system followed by such an
execution is a run of the system (`Executions.ExecutionExtendsRun`), so every theorem
about runs is one about the methods.

**Runs** (`system.dfy`) interleave one worker per server, one worker per definition,
crashes and restarts, and the environment, at the grain of single API calls.
`safety.dfy`, `provenance.dfy`, `reporting.dfy` and `config_files.dfy` prove
invariants over all runs; `convergence.dfy` and `recovery.dfy` prove what reconciles
without faults complete after reconciles that were cut off anywhere, and
`progress.dfy` that every run can go on to there. `copies.dfy` proves over all runs what
updates of children leave alone. `arrival.dfy` says what is then stored in terms of the
fields that users and authors of definitions wrote.

**Observations** (`observations.dfy`) say by the fields of pods and services, without the
scans of the reconciler, which state, address and ports they amount to.

**Map iteration.** Go walks maps in any order. Functions that depend on a walk take
it as a parameter, and the methods pick one that nobody controls (`Enumeration.Walk`).

**Pure parts**: the builders (`statefulset.dfy`, `service.dfy`, `pvc.dfy`), the
SteamCMD argument list and a reader for it (`steamcmd.dfy`), config resolution and
validation (`config_values.dfy`), argument templates (`templates.dfy`), the merge of
environment lists (`env_vars.dfy`), secret references (`secret_env.dfy`), and
materialisation of a definition into a server (`materialise.dfy`).

## Where the obvious claim is false

- The StatefulSet is not the same on every reconcile: its secret entries come in
  walk order. `StatefulSets.BuildIndependentOfOrderIff` and
  `SecretEnvs.EnvIndependentOfOrderIff` say exactly when the list, and the multiset,
  do not depend on the walk.
- Different keys can be mangled to one `CONFIG_` name; then the container gets the
  secret of whichever was walked last (`SecretEnvs.LastWalkedWins`). A key's own secret
  arrives for every walk exactly when all keys of its mangled name refer to that secret
  (`SecretEnvs.OwnSecretIff`); which keys share a name is in `ConfigValues.SameNameIff`;
  `a-b` and `a_b` are an input where one does not (`SecretEnvs.DashCollides`).
- A key with a dash may be in a schema and in a config, and even gets a `CONFIG_` name, but
  an argument that names it leaves all arguments unfilled
  (`StatefulSets.DashedKeyLeavesArgsRaw`).
- A persisted Error that is observed again keeps its old message; `Reporting.ReportIsFaithful`
  says exactly when, and `Progress.ErrorMessageOutlives` is a run that gets there.
- Labels of a claim pass for in order when an expected empty one is absent
  (`Safety.LabelsInOrderCompleteIff`).
- A ConfigMap write between the two writes of a reconcile takes a mounted key away
  exactly when the list was shortened (`ConfigFiles.ConfigMapWriteKeepsMountsIff`, with
  `ConfigFiles.DroppedFileIsStillMounted` as an input).
- Defaults of a schema are not checked against its enums (`ConfigValues.EnumsOfResolved`).
- A definition that is ready need not be valid any more: a step makes it so exactly when it
  is an edit of a ready definition to an invalid spec (`Reporting.ReadyGoesStaleIff`).
- An update can change the immutable selector of a StatefulSet: it keeps it exactly when it
  keeps the game and the positive app id (`Provenance.SelectorKeptIff`).
- The service ports of a definition are not validated (`GameDefinitions.ExposedPortsInRangeIff`).
- The comment on the claim builder (`internal/resources/pvc.go:27`) says that no claim is
  built when no storage is configured. The code uses a default size instead
  (`Pvcs.NoClaimIff`); the model follows the code. Likewise a template that names a
  missing key shows `<no value>`, whatever the name of the unit test that covers it says.

## Model

| member | source | states |
|---|---|---|
| EnvVars.MergeEnvVars | internal/config/interpolate.go:145-163 | the one-pass merge with its index map gives the names in first-occurrence order with their last values, and merging the slices is merging their concatenation |
| EnvVars.MergeStep | internal/config/interpolate.go:151-158 | overwriting in place or appending keeps the index map exact and the list equal to the specification |
| EnvVars.MergedNamesDistinct | internal/config/interpolate.go:144-163 | a merged list names no variable twice |
| EnvVars.MergedMember | internal/config/interpolate.go:144-163 | an entry is in the merged list if and only if it is the last entry of its name |
| EnvVars.SameMeaningSameMerge | internal/config/interpolate.go:144-163 | two lists merge to the same result if and only if their first-occurrence order and last values agree |
| EnvVars.MergeIdempotent | internal/config/interpolate.go:144-163 | merging a merged list changes nothing |
| EnvVars.MergeAssociative | internal/config/interpolate.go:144-163 | merging is associative: grouping the slices differently gives the same list |
| EnvVars.FirstNamesOfConcatenation | internal/config/interpolate.go:149-158 | a later slice adds exactly its new names, after the known ones and in its own order |
| EnvVars.LastOfConcatenation | internal/config/interpolate.go:144-153 | a later slice wins for every name it has |
| ConfigValues.ResolveConfigValues | internal/config/interpolate.go:62-95 | for every pair of walks every key of the user gives its text, even an empty one, or `$(NAME)` for a secret, every other key of the schema its non-empty default, and nothing else is there; the generated entries are those of the secret keys in walk order |
| ConfigValues.SameNameIff | internal/config/interpolate.go:80 | two keys get the same variable if and only if they differ in nothing but the case of ASCII letters and in dashes for underscores |
| ConfigValues.ValidateConfig | internal/config/interpolate.go:98-142 | for every walk the config is accepted if and only if required keys are given and non-empty, keys are known and non-empty values of enum keys are members; a reported error is a true one |
| ConfigValues.AcceptedIffNotRefuted | internal/config/interpolate.go:102-139 | acceptance is the absence of every reason for refusal |
| ConfigValues.RequiredResolveNonEmpty | internal/config/interpolate.go:102-114 | after validation every required key resolves to a non-empty text |
| ConfigValues.EnumsOfResolved | internal/config/interpolate.go:123-139 | resolved literals are all members of their enums if and only if the defaults in use are, which validation does not check |
| SecretEnvs.SecretReferenceSound | internal/config/interpolate.go:77-91 | a secret value resolves to a reference to a name that exactly one container entry has; that entry comes from a secret key of that mangled name whatever the other lists hold, and is the key's own when all keys of that name refer to the same secret |
| SecretEnvs.LastWalkedWins | internal/config/interpolate.go:77-91 | for any walk, the entry of a mangled name is that of the last secret key of this name that was walked, and no other |
| SecretEnvs.OwnSecretIff | internal/config/interpolate.go:77-91 | a key's own secret reaches the container for every walk if and only if all secret keys of its mangled name refer to that secret |
| SecretEnvs.DashCollides | internal/config/interpolate.go:80 | for the keys a-b and a_b one of the two secrets never arrives, and which one depends on the walk |
| SecretEnvs.WalkShows | internal/config/interpolate.go:77-86 | two secrets without a collision are listed in walk order |
| SecretEnvs.EnvIndependentOfOrderIff | internal/config/interpolate.go:77-86 | the multiset of container entries is the same for all walks if and only if colliding secret keys refer to the same secret |
| SecretEnvs.EnvListIndependentOfOrderIff | internal/resources/statefulset.go:295-301 | the list itself is the same for all walks if and only if moreover at most one generated name is new |
| SecretEnvs.ContainerEnvLayered | internal/resources/statefulset.go:295-301 | for every walk the container has one entry for each name of the three lists: that of a secret key of this generated name, else the last the server lists, else the last the definition lists |
| Templates.InterpolateArgs | internal/config/interpolate.go:21-39 | the result is every argument with its placeholders replaced, or nothing when one cannot be parsed |
| Templates.PrintParse | internal/config/interpolate.go:25-35 | parsing loses nothing: the pieces print back to the argument |
| Templates.ParsePrint | internal/config/interpolate.go:25-35 | printed pieces parse to themselves |
| Templates.SubstitutionIsNotRescanned | internal/config/interpolate.go:31-35 | `{{.Config.key}}`, spelled out, becomes the value of the key, or `<no value>` for a key that is not there; the value is copied as it is, even when it looks like a placeholder, and the text behind is interpolated on its own |
| Templates.LiteralStays | internal/config/interpolate.go:25-35 | an argument in which nothing opens stays as it is |
| Templates.DashedKeyFails | internal/config/interpolate.go:26-29 | an argument with a placeholder of a key that has a dash cannot be parsed, whether or not the key has a value |
| SteamCmd.Build | internal/steamcmd/command.go:54-92 | the grown list is the specified one |
| SteamCmd.DecodeBuilt | internal/steamcmd/command.go:54-92 | a reader recovers directory, login, app id, branch, presence of a beta password and the validate flag from every built list |
| SteamCmd.SameArgsSameSettings | internal/steamcmd/command.go:54-92 | two lists are equal if and only if the effective settings are |
| SteamCmd.RequirementsShow | internal/steamcmd/command.go:95-102 | whether credentials and a beta password are required can be read off the list |
| Decimal.ParseText | internal/steamcmd/command.go:74 | the decimal form of every integer reads back as that integer |
| StatefulSets.StatefulSetBuilder.Build | internal/resources/statefulset.go:41-73 | for every pair of walks the built object takes each field from the server, else from the definition, else from a fixed value: replicas, labels, both containers, volumes and mounts; its selector and pod labels are one and the same map |
| StatefulSets.DesiredLayered | internal/resources/statefulset.go:108-313 | the precedence of every field, read off the built object itself: image, app id, command, ports, resources, entries by name, filled arguments, and the install settings as the argument list reads back |
| StatefulSets.ServerFieldsWin | internal/resources/statefulset.go:140-313 | what the server sets itself comes out the same under any two definitions |
| StatefulSets.UserValueArrives | internal/resources/statefulset.go:108-152 | an argument that is one placeholder reaches the container as what the user wrote for its key |
| StatefulSets.StatefulSetBuilder.BuildMainContainer | internal/resources/statefulset.go:108-136 | the main container depends on the walk of the config only through its environment |
| StatefulSets.StatefulSetBuilder.BuildMainEnvVars | internal/resources/statefulset.go:295-301 | config secrets override the server's entries, which override the definition's |
| StatefulSets.StatefulSetBuilder.BuildContainerPorts | internal/resources/statefulset.go:316-334 | ports in order with UDP as the default protocol |
| StatefulSets.StatefulSetBuilder.BuildVolumeMounts | internal/resources/statefulset.go:367-386 | the server files and then one mount per config file, in order |
| StatefulSets.BuildUpToOrder | internal/resources/statefulset.go:108-136 | two walks give the same object up to a permutation of the main container's entries, when colliding keys agree |
| StatefulSets.BuildIndependentOfOrderIff | internal/resources/statefulset.go:41-136 | the whole object is the same for all walks if and only if colliding keys agree and at most one generated name is new |
| StatefulSets.ArgsAllOrNothing | internal/resources/statefulset.go:140-152 | every argument is interpolated, or the container gets the raw list because one is bad; never a mixture |
| StatefulSets.DashedKeyLeavesArgsRaw | internal/resources/statefulset.go:140-152 | one such placeholder and no argument at all is filled: the container gets the raw list |
| StatefulSets.PlaceholdersResolve | internal/resources/statefulset.go:140-152 | an argument that names resolved keys only is filled with exactly their values, so no placeholder shows a missing one |
| StatefulSets.MountsMatchConfigMap | internal/resources/statefulset.go:337-386 | the i-th mount reads the key that holds the i-th content, no two mounts read the same key, and its volume is the server's ConfigMap |
| StatefulSets.ConfigDataKeys | internal/controller/steamserver_controller.go:196-199 | the ConfigMap has exactly the keys of the listed files |
| Services.ServiceBuilder.Build | internal/resources/service.go:24-96 | LoadBalancer unless the server sets a type, the four labels as the selector, and one port for each of the server or else of the definition, under its service port or else the container port |
| Services.ServiceBuilder.BuildServicePorts | internal/resources/service.go:72-96 | ports in order, with the container port and UDP as defaults |
| Services.PortsAgree | internal/resources/service.go:72-96 | the two builders' port lists agree index by index on name and protocol, and each service port targets its container port |
| Services.SelectsOwnPodsOnly | internal/resources/service.go:42-49 | a Service's selector is met by a StatefulSet's pod labels if and only if server name and game are the same |
| Pvcs.PvcBuilder.Build | internal/resources/pvc.go:28-60 | ReadWriteOnce, with the size and the storage class of the server, else the size of the definition, else 20Gi, without a class; no claim for a size of zero |
| Pvcs.NoClaimIff | internal/resources/pvc.go:64-81 | a claim is left out if and only if the size that takes precedence was given as zero |
| Materialisation.MaterialisingPreservesStatefulSet | internal/resources/statefulset.go:108-313 | writing every value taken from the definition into the server and building without a definition gives the same StatefulSet for a matching walk, but for the install directory |
| Materialisation.MaterialisingPreservesServiceAndClaim | internal/resources/service.go:24-69 | and the same Service and claim |
| Materialisation.EmptyDefinitionIsNone | internal/resources/pvc.go:64-81 | a definition with nothing in it is the same as no definition, for all three builders |
| Cluster.CallEffect | internal/controller/steamserver_controller.go:63-133 | whatever the fault, a call changes at most one object, of the kind and key it names, gives it a new version, and replaces only the version it was based on |
| System.StepKeepsInv | internal/controller/steamserver_controller.go:63-133 | every step of the interleaved system keeps the invariant: stored objects, copies in hand, guarded points, honest statuses |
| System.RunInv | internal/controller/steamserver_controller.go:63-133 | the invariant holds in every reachable state |
| Safety.ChildWritesAreGuarded | internal/controller/steamserver_controller.go:77-129 | in every run, whenever a child is written the very server that was read is still stored under the finalizer, and owns what is created |
| Safety.DeletionOnlyRemovesFinalizer | internal/controller/steamserver_controller.go:156-174 | a reconcile that reads a deletion timestamp makes at most one more call, which takes this finalizer off and keeps the others |
| Safety.RemovalTakesEffect | internal/controller/steamserver_controller.go:156-174 | once that call is answered, the server is gone if and only if nobody else has a finalizer on it |
| Safety.NamesInjective | internal/resources/statefulset.go:388-396 | the names of children are injective per kind |
| Safety.WorkIsIsolated | internal/controller/steamserver_controller.go:63-133 | in every reachable state a step for one server changes no server, child or worker of another |
| Safety.ClaimsAreOnlyRelabelled | internal/controller/steamserver_controller.go:227-252 | in every run a worker changes nothing of an existing claim but labels, only when one differs, and its next look finds them in order |
| Copies.UpdatesLeaveTheRest | internal/controller/steamserver_controller.go:177-321 | in every run, whatever was edited between a read and its write, a step of a worker leaves ConfigMaps of others as they are, of StatefulSets the owner and the counts, of Services the owner and the addresses |
| Copies.StepKeepsCopyInv | internal/controller/steamserver_controller.go:204-320 | because every interleaved step keeps: a copy in hand is the stored object, or the stored object has another version |
| Safety.LabelsInOrderCompleteIff | internal/controller/steamserver_controller.go:576-583 | labels that pass for in order are complete if and only if none with an empty expected value is absent |
| Provenance.RunTraced | internal/controller/steamserver_controller.go:92-129 | in every run every plan in progress and every child the operator wrote last comes from an approved snapshot |
| Provenance.WrittenChildrenAreBuilt | internal/controller/steamserver_controller.go:92-129 | in every reachable state a StatefulSet, Service or ConfigMap written by the operator is the builders' output for an earlier server and definition, ready or absent by fallback, whose schema accepted the config |
| Provenance.SelectorIsPodLabels | internal/resources/statefulset.go:41-88 | in every reachable state a written StatefulSet's selector is its pod labels and is made of the server's name and of the game and resolved app id of one approved snapshot |
| Provenance.SelectorKeptIff | internal/resources/statefulset.go:76-88 | an update keeps the selector if and only if it keeps the game and, as far as it is positive, the app id |
| Provenance.NoForeignPods | internal/resources/service.go:24-49 | in every reachable state no written Service selects pods of a server of another name |
| Provenance.StoppedAtGate | internal/controller/steamserver_controller.go:92-112 | a live server's reconcile goes on to its children if and only if the definition it names can be fetched, is ready and accepts the config; otherwise it makes one more call, a status write of Error that says whether the definition or the config stood in the way |
| Reporting.ReconcileStands | internal/controller/steamserver_controller.go:114-132 | whatever the replies, a reconcile is past a child only if that child was found in order or its write was answered |
| Reporting.FailureNamesTheChild | internal/controller/steamserver_controller.go:114-129 | a reconcile that gives up at a child writes Error and the name of that child into the status, changes nothing else, and fails |
| Reporting.NoSilentStall | internal/controller/steamserver_controller.go:63-133 | whatever the replies, an end without error or requeue means: no server, or a deleted one rid of the finalizer, or every child settled, a playable pod seen and Running reported |
| Executions.SuccessIsPersisted | internal/controller/steamserver_controller.go:324-376 | in every run, such an end of a server that is not being deleted leaves that very server stored with status Running; when its StatefulSet was read that had replicas, and when the pod named with -0 was read that was in phase Running, no installing container stood in the way and the first executing container of the game was ready; address and ports are those of the service as it was read |
| Observations.PodShowsIff | internal/controller/steamserver_controller.go:408-439 | which of the five states a pod is in, by its phase, the first installing status that decides, and the first executing container of the game |
| Observations.ReadsShowIff | internal/controller/steamserver_controller.go:379-405 | the state by what the reads of StatefulSet and pod gave: absent, unreadable, without replicas, or the pod |
| Observations.RunningMeans | internal/controller/steamserver_controller.go:379-439 | Running if and only if both were found, the StatefulSet has replicas and the pod can be played on |
| Observations.AddressShowsIff | internal/controller/steamserver_controller.go:443-466 | the address by the type: the first ingress with an ip or a host name, of which the ip comes first, or `<pending>` when none has either; `<node-ip>`; the cluster ip; or nothing |
| Observations.PortsShowIff | internal/controller/steamserver_controller.go:469-488 | one port for each of the service, under its node port if it has one and the type is NodePort |
| Reporting.MessagesMatchStates | internal/controller/steamserver_controller.go:509-524 | in every reachable state a status other than Error has exactly the fixed message of its state |
| Reporting.ReportIsFaithful | internal/controller/steamserver_controller.go:345-368 | state, address and ports are as observed afterwards, a repeat writes nothing, and the message is the fixed one except for an Error observed again |
| Progress.ErrorMessageOutlives | internal/controller/steamserver_controller.go:347-350 | a run from the start in which the exception is reached: a refused read, then a reconcile without faults that observes an Error, and the stored message is still "Failed to reconcile StatefulSet: " |
| Reporting.StatusWritePersists | internal/controller/steamserver_controller.go:364-375 | an answered status write has put exactly the reported status into the store, of a server whose spec is the one read |
| Reporting.ReadyTellsTheTruth | internal/controller/gamedefinition_controller.go:52-71 | in every run each write that changes readiness or its message leaves the definition ready if and only if the spec stored then is valid |
| Reporting.DefinitionReconciled | internal/controller/gamedefinition_controller.go:42-75 | an undisturbed reconcile leaves ready true if and only if the spec is valid, and writes nothing on an approved valid definition |
| Reporting.ReadyWasApproved | internal/controller/gamedefinition_controller.go:64-67 | in every reachable state a ready definition has been so without a break since a write of its own controller at which its spec was valid |
| Reporting.ReadyGoesStaleIff | internal/controller/gamedefinition_controller.go:52-67 | from a definition that is not ready unless valid, a step of a run leads to one that is ready and invalid if and only if it is an edit by others that makes the spec of a ready definition invalid |
| Reporting.ReadyOutlivesEdits | internal/controller/gamedefinition_controller.go:64-67 | such an edit is possible for every ready definition and every spec |
| Reporting.WorkCanMove | internal/controller/steamserver_controller.go:63-133 | in every reachable state a worker that is not finished can make its next call, whatever becomes of it |
| Reporting.DefWorkCanMove | internal/controller/gamedefinition_controller.go:42-75 | so can the worker of a definition, since every spec has a verdict |
| GameDefinitions.Validate | internal/controller/gamedefinition_controller.go:78-112 | no error if and only if the spec is valid, for every walk of the schema, and a reported error is a true one |
| GameDefinitions.ExposedPortsInRangeIff | internal/controller/gamedefinition_controller.go:90-97 | ports of a valid definition target port numbers, and are port numbers themselves if and only if the service port is left out or is one |
| Convergence.CleanReconcileConverges | internal/controller/steamserver_controller.go:63-133 | from any state of the children a fault-free reconcile of a server that passes the gates never fails; when finished every child matches, and the stored status shows the stored service and a state that the StatefulSet and pod stored at some point of the way amount to |
| Convergence.StatusTellsService | internal/controller/steamserver_controller.go:324-376 | when finished the stored address and ports are what the fields of the stored service say, and the outcome is none for Running and a requeue after ten seconds otherwise |
| Arrival.StatefulSetArrives | internal/resources/statefulset.go:41-313 | when finished the stored StatefulSet has every field from the server, else the definition, else the fixed value |
| Arrival.ServiceArrives | internal/resources/service.go:24-96 | and the stored Service its type, selector and ports |
| Arrival.ConfigMapArrives | internal/controller/steamserver_controller.go:177-199 | and the ConfigMap the contents of the files under numbered keys and nothing else, the labels, and the server as its owner |
| Arrival.ClaimArrives | internal/resources/pvc.go:28-81 | where there was no claim there is the one asked for, with its size and storage class, or none for zero; a claim that was there keeps content and owner |
| Arrival.StatusListsResolvedPorts | internal/controller/steamserver_controller.go:469-488 | for every type the stored status lists the ports of the server or else the definition, in order and with their defaults, for NodePort each under the node port the cluster gave |
| Arrival.StatusGivesAddress | internal/controller/steamserver_controller.go:443-466 | the stored address by the type that was asked for |
| Arrival.WrittenChildrenTakeFields | internal/controller/steamserver_controller.go:92-129 | in every reachable state a StatefulSet or Service that the operator wrote last has its fields from one server and one definition that passed the gates together |
| Convergence.CleanReconcileExists | internal/controller/steamserver_controller.go:63-133 | there is such a reconcile from every such setting |
| Progress.RunCanArrive | internal/controller/steamserver_controller.go:63-133 | every run that has come to such a setting can go on to where all children match and the stored status shows them |
| Convergence.ReconcileIsBounded | internal/controller/steamserver_controller.go:63-133 | whatever the replies, a reconcile makes at most fourteen calls |
| Convergence.FirstReconcileAddsFinalizer | internal/controller/steamserver_controller.go:83-90 | the first reconcile of a new server puts the finalizer on, changes nothing else and asks to be run again |
| Convergence.ServiceSelectsOwnPods | internal/resources/service.go:42-49 | after a finished reconcile the Service selects the pods of the StatefulSet |
| Recovery.CutOffReconcilesRecover | internal/controller/steamserver_controller.go:82-132 | from any state of the children without a foreign ConfigMap, after any number of reconciles cut off anywhere, with calls refused and replies lost, two clean ones complete every child, and one does once the finalizer is on; an existing claim keeps its content and existing children their owners |
| Recovery.RecoveredIsClean | internal/controller/steamserver_controller.go:82-132 | what they leave is what two clean reconciles right from the start leave, or one if the finalizer was on, up to what the cluster fills in and the order of secret entries |
| Recovery.CompleteChildrenAgree | internal/controller/steamserver_controller.go:177-321 | completed children are determined in this sense by what they were at the start |
| Recovery.CompleteStaysComplete | internal/controller/steamserver_controller.go:177-321 | further reconciles keep them so and never write the ConfigMap or the claim again |
| ConfigFiles.FilesAgree | internal/controller/steamserver_controller.go:177-202 | whenever a write of a StatefulSet is answered, from any earlier state and whatever failed, crashed or was edited beside the ConfigMap's data: the i-th mount reads a key of the ConfigMap that holds the i-th content, and no two read the same |
| ConfigFiles.ConfigMapWriteKeepsMountsIff | internal/controller/steamserver_controller.go:192-202 | between the two writes every mounted key is present if and only if the list was not shortened |
| ConfigFiles.DroppedFileIsStillMounted | internal/controller/steamserver_controller.go:192-202 | with two files of which the second is dropped, the StatefulSet mounts a key that is not there |
| ConfigFiles.MountsAlwaysPresent | internal/resources/statefulset.go:367-386 | in runs in which the list is never shortened every mounted key is present at every moment, whatever fails |
| Controller.SteamServerReconciler.Reconcile | internal/controller/steamserver_controller.go:63-133 | continuing any run of the system, whatever others do between its calls: what the method does is a run of the system, it ends where the machine ends with the same outcome after at most fourteen calls, and Success means that nothing is left to do and that the stored status shows the server as it was seen running |
| Controller.SteamServerReconciler.HandleDeletion | internal/controller/steamserver_controller.go:156-174 | ends where the machine ends, with the finalizer off the server in hand: one update if it was on, no call otherwise |
| Controller.SteamServerReconciler.FetchGameDefinition | internal/controller/steamserver_controller.go:137-153 | no definition for an empty name, else the stored one, else an error |
| Controller.SteamServerReconciler.ReconcileConfigMap | internal/controller/steamserver_controller.go:177-213 | create, repair or leave alone, as the machine does; refuses the object of another controller |
| Controller.SteamServerReconciler.ReconcilePvc | internal/controller/steamserver_controller.go:216-253 | create, relabel or leave alone, as the machine does |
| Controller.SteamServerReconciler.ReconcileStatefulSet | internal/controller/steamserver_controller.go:256-286 | create or overwrite spec and labels, for whatever walk was picked |
| Controller.SteamServerReconciler.ReconcileService | internal/controller/steamserver_controller.go:289-321 | create, or overwrite type, selector, ports and labels and keep the address |
| Controller.SteamServerReconciler.UpdateStatus | internal/controller/steamserver_controller.go:324-376 | the server in hand ends up showing exactly the state, address and ports that the two or three reads gave, the machine's end point is reached, and the outcome is the one for that state or a failed write |
| Controller.SteamServerReconciler.SetErrorStatus | internal/controller/steamserver_controller.go:491-506 | the server in hand shows Error and which part failed, one status write is made, and it fails whether or not that is answered |
| Controller.StateOfPod | internal/controller/steamserver_controller.go:408-439 | the two scans with their early returns give the one state that the pod shows by its fields |
| Controller.AddressOf | internal/controller/steamserver_controller.go:443-466 | the address that the service shows by its fields: for a load balancer the first ingress with an ip or a host name |
| Controller.PortsOf | internal/controller/steamserver_controller.go:469-488 | one status port per service port, with the node port for NodePort services |
| Controller.PortsEqual | internal/controller/steamserver_controller.go:586-596 | true if and only if the lists are equal |
| Controller.CheckLabels | internal/controller/steamserver_controller.go:576-583 | true if and only if every expected label reads as expected, an absent one as empty, for every walk; other labels do not matter |
| Controller.FindSteamServersForGameDef | internal/controller/steamserver_controller.go:527-544 | exactly the servers that refer to the definition, in list order, and none when they cannot be listed |
| Executions.ExecutionIsReconcile | internal/controller/steamserver_controller.go:63-133 | the calls and replies of every execution of the methods are a reconcile of the machine |
| Executions.ExecutionExtendsRun | internal/controller/steamserver_controller.go:63-133 | a run of the system followed by an execution, with any steps of others between its calls, is a run of the system |
| DefinitionController.GameDefinitionReconciler.Reconcile | internal/controller/gamedefinition_controller.go:42-75 | continuing any run of the system, it ends where the machine ends; without failure, whatever others do between the two calls, the definition is gone or ready says whether the stored spec is valid |
| DefinitionController.WrittenVerdictHolds | internal/controller/gamedefinition_controller.go:52-71 | in every reachable state an answered status write means that the spec judged is the one stored |

## Left out

- Watches, caches and work queues: reads see the store as it is. That a changed object leads to a new reconcile is not modelled, only that a reconcile may start at any time.
- Admission by the API server, such as refusing to change the selector of a StatefulSet: a refused write is one of the faults of a call.
- Garbage collection, the StatefulSet controller and the allocation of addresses and node ports: changes by others, without a promise that they happen.
- The ownership test of controller-runtime is not part of this model but for its outcome: an object is taken over only when its controller reference names a SteamServer of the same name, or nobody.
- Templates.InterpolateArgs: knows literal text and `{{.Config.key}}` with letters, digits and underscores; every other action, such as `{{if}}` or spaces around the field, counts as one that cannot be parsed, though `text/template` accepts more.
- `InterpolateString` of the config package: the same steps for one text, used by no controller.
- ConfigValues.ResolveConfigValues: upper-casing covers ASCII letters only.
- Parsing of quantities: a size given as text is one of absent, unreadable or a number.
- Machine.FailureMessage: keeps the fixed beginning of an error message and drops the wording of the error; timestamps of the status are dropped as well.
- The server in hand is a mutable object; children under construction are values that the methods reassign, since no two variables of the source share one.
- Decoding of config values from JSON.
- `mapTo`, `configFiles` and `healthCheck` of a definition: declared, but no builder acts on them; only the type of `mapTo` is validated.
- Width of integers: ports and app ids are only copied, compared and printed, so 32-bit wrap-around cannot occur.
- Start-up, flags, metrics and leader election in `cmd/main.go`, generated deep copies, CRDs and charts.
