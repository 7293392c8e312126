# kapp-controller: watcher, PackageRepository hooks and restricted flags, in Dafny

This project models three sequential parts of carvel kapp-controller and proves properties about them.

- **The App watcher of the `kctrl` CLI** (`cli/pkg/kctrl/cmd/app/app-watcher.go`), module `AppWatcher`.
  - `printTillCurrent` reads one `AppStatus` and reports the current stage: fetch, template, deploy, reconciled or none. It also returns the error of a failed stage and the log lines it prints.
  - `printUpdate` compares two snapshots. It yields the lines printed and how many times the watch was asked to stop.
  - `hasReconciled`, `metricString` and `statusString` are decisions over status fields.
  - `indentMessageBlock` is an imperative method. It rewrites an array of lines in place.
  - The pieces of Go's `strings` and `fmt` packages that these use are in module `Text`. `Split`/`Join` on `"\n"` are proved inverse to each other, and `%d` output parses back to its number. `LastIndex` is characterised as the last position holding the character, or -1.
- **The PackageRepository hooks adapter** (`pkg/pkgrepository/crd_app.go`), module `PkgRepositoryApp`.
  - The cluster client is a `RepositoryStore` object. `Get`, `Update` and `UpdateStatus` each consume the next outcome of a supplied failure script and record the call.
  - `CRDApp` holds the hooks: block deletion, unblock deletion, a single status write, and the status write retried up to five times. Its methods are proved against pure functions of the store's state (`EditOutcome`, `StatusOutcome`, `StatusRetry`), and the lemmas are stated about those functions.
- **The allow-lists of the restricted deploy command** (`pkg/deploy/kapp_restrict.go`), module `KappRestrict`.
  - The four constant lists are kept as written. The deploy-only list holds nine flags.
  - Each flag set is the union of the lists it is built from.
  - The lemmas prove the membership and containment facts that the security boundary relies on.

`KappStatus` holds the status datatypes shared by the watcher and the adapter, and `Wrappers` holds `Option` and `Result`.

Assumptions about code that is not part of this model:
- `exec.NewFlagSet` allows exactly the flags of its lists.
- `containsString` is list membership.
- `removeString` drops every occurrence and keeps the other entries in order.
- The reconciliation engine (`NewApp`, `App.Reconcile`, `SecretRefs`) is an `App` object whose status, tracked references and next reconcile outcome are given.

Some behaviour of the code looks unintended. It is modelled as written and proved:
- Equal start and update times count as a Fetch failure (line 42, `>=`) but not as a Deploy failure (line 66, `<`).
- A new Fetch failure prints Template's Stderr and is followed by "Fetch succeeded".
- A Deploy failure in `printUpdate` is gated on Template's exit code (`DeployFailureGatedOnTemplate`).
- A Template failure and a reconciled App in the same update call `stopWatch` twice. That closes the stop channel twice, which panics in Go.

## Model

| member | source | states |
|---|---|---|
| Text.JoinSplit | cli/pkg/kctrl/cmd/app/app-watcher.go:237-245 | joining the pieces of strings.Split(s, "\n") with "\n" gives s back |
| Text.SplitJoin | cli/pkg/kctrl/cmd/app/app-watcher.go:237-245 | splitting the join of one or more newline-free lines gives the same lines back |
| Text.Split | cli/pkg/kctrl/cmd/app/app-watcher.go:237 | n newlines give n + 1 pieces, none containing a newline |
| Text.LastIndex | cli/pkg/kctrl/cmd/app/app-watcher.go:246 | the result is -1 or a position holding the character, and no later position holds it |
| Text.DecimalRoundTrip | cli/pkg/kctrl/cmd/app/app-watcher.go:149-151 | %d renders an optional minus and digits with no space, which parse back to the number |
| AppWatcher.HasReconciled | cli/pkg/kctrl/cmd/app/app-watcher.go:175-182 | true exactly when some condition has type ReconcileSucceeded and status True |
| AppWatcher.PrintTillCurrent | cli/pkg/kctrl/cmd/app/app-watcher.go:40-78 | the scan itself; its properties are the lemmas FetchFailureEndsTheScan through FetchAndDeployDisagreeOnEqualTimes below |
| AppWatcher.FetchFailureEndsTheScan | cli/pkg/kctrl/cmd/app/app-watcher.go:41-45 | a failed Fetch gives the fetch stage, an error carrying Fetch's Stderr and the single line "Fetch failed", whatever Template and Deploy hold |
| AppWatcher.FetchRunningEndsTheScan | cli/pkg/kctrl/cmd/app/app-watcher.go:46-49 | a Fetch not failed and started after its last update gives the fetch stage with no error, whatever Template and Deploy hold |
| AppWatcher.CurrentStageIsFirstUnsettled | cli/pkg/kctrl/cmd/app/app-watcher.go:40-78 | for each stage, it is reported exactly when every earlier stage settled and it failed or is running; reconciled exactly when Deploy is present, not failed, and hasReconciled holds |
| AppWatcher.ErrorOnlyForFailedStage | cli/pkg/kctrl/cmd/app/app-watcher.go:40-78 | an error is returned exactly for a failed fetch, template or deploy stage; it is Stderr for Fetch and Template and Deploy.Error for Deploy |
| AppWatcher.TemplateFailureIsMeasuredFromFetchStart | cli/pkg/kctrl/cmd/app/app-watcher.go:53-57 | after a settled Fetch, Template is reported failed exactly when its exit code is non-zero and Fetch.StartedAt < Template.UpdatedAt |
| AppWatcher.SettledStagesAreLoggedFirst | cli/pkg/kctrl/cmd/app/app-watcher.go:50-62 | a settled Fetch is logged first as "Fetch succeeded" with its Stdout and update time, and a settled Template second |
| AppWatcher.StaleFetchFailureReadsAsStarted | cli/pkg/kctrl/cmd/app/app-watcher.go:41-49 | a non-zero exit code updated after its start is a failure; the same code with an update older than the start reads as started |
| AppWatcher.FetchAndDeployDisagreeOnEqualTimes | cli/pkg/kctrl/cmd/app/app-watcher.go:41-75 | equal start and update times make a failed Fetch an error but leave a failed Deploy reported as started with no error |
| AppWatcher.PrintUpdate | cli/pkg/kctrl/cmd/app/app-watcher.go:80-118 | the update itself, the Fetch, Template and Deploy sections in order and then the reconciled check; its properties are the lemmas FetchStopsMatchErrors through TemplateFailureAndReconcileStopTwice below |
| AppWatcher.FetchUpdate | cli/pkg/kctrl/cmd/app/app-watcher.go:81-92 | the Fetch section; stated by FetchStopsMatchErrors and FetchFailureIsFollowedBySuccess |
| AppWatcher.TemplateUpdate | cli/pkg/kctrl/cmd/app/app-watcher.go:93-101 | the Template section; stated by TemplateStopsMatchErrors and TemplateFailureAndReconcileStopTwice |
| AppWatcher.DeployUpdate | cli/pkg/kctrl/cmd/app/app-watcher.go:102-113 | the Deploy section; stated by DeployStopsMatchErrors and DeployFailureGatedOnTemplate |
| AppWatcher.DeployFailureGatedOnTemplate | cli/pkg/kctrl/cmd/app/app-watcher.go:102-110 | an updated Deploy prints "Deploy failed" exactly when it finished and Template's exit code, not Deploy's, is non-zero |
| AppWatcher.FetchStopsMatchErrors | cli/pkg/kctrl/cmd/app/app-watcher.go:81-92 | the Fetch section stops the watch once for each error line it prints |
| AppWatcher.TemplateStopsMatchErrors | cli/pkg/kctrl/cmd/app/app-watcher.go:93-101 | the Template section stops the watch once for each error line it prints |
| AppWatcher.DeployStopsMatchErrors | cli/pkg/kctrl/cmd/app/app-watcher.go:102-113 | the Deploy section stops the watch once for each error line it prints |
| AppWatcher.StopsMatchFailuresAndReconcile | cli/pkg/kctrl/cmd/app/app-watcher.go:80-118 | printUpdate calls stopWatch once per printed failure plus once if the App reconciled |
| AppWatcher.UnchangedStatusIsQuiet | cli/pkg/kctrl/cmd/app/app-watcher.go:80-118 | an update between equal snapshots prints nothing, except "App reconciled" with one stop when the App reconciled |
| AppWatcher.ReconciledStopsTheWatch | cli/pkg/kctrl/cmd/app/app-watcher.go:114-117 | when the App reconciled, the last line is "App reconciled" and the watch is asked to stop |
| AppWatcher.FetchFailureIsFollowedBySuccess | cli/pkg/kctrl/cmd/app/app-watcher.go:85-91 | a newly reported Fetch failure prints Template's Stderr, is directly followed by "Fetch succeeded", and stops the watch |
| AppWatcher.TemplateFailureAndReconcileStopTwice | cli/pkg/kctrl/cmd/app/app-watcher.go:93-117 | a failing Template in a reconciled App makes printUpdate call stopWatch twice |
| AppWatcher.MetricString | cli/pkg/kctrl/cmd/app/app-watcher.go:147-155 | the rendering itself; stated by MetricStringReadsBack |
| AppWatcher.MetricStringReadsBack | cli/pkg/kctrl/cmd/app/app-watcher.go:147-155 | the number shown is the failure count whenever it is non-zero, otherwise the success count; the text after it names which, and the fixed text appears when both are zero |
| AppWatcher.StatusString | cli/pkg/kctrl/cmd/app/app-watcher.go:158-173 | red exactly for ReconcileFailed and DeleteFailed, green exactly for ReconcileSucceeded, the friendly description for any other type, and for each of the five known types its own fixed label, from which the type reads back |
| AppWatcher.IndentMessageBlock | cli/pkg/kctrl/cmd/app/app-watcher.go:236-250 | the result ends in a newline; before it are as many lines as the input, and each is the gutter followed by the input's line |
| AppWatcher.IndentedBlockReadsBack | cli/pkg/kctrl/cmd/app/app-watcher.go:236-250 | removing the gutter from each indented line and joining them gives the block back |
| PkgRepositoryApp.RemoveString | pkg/pkgrepository/crd_app.go:64-66 | the result lacks the removed entry, keeps every other entry and adds none |
| PkgRepositoryApp.RemoveStringKeepsOthers | pkg/pkgrepository/crd_app.go:64-66 | every other entry keeps its number of copies |
| PkgRepositoryApp.AddFinalizer | pkg/pkgrepository/crd_app.go:55-57 | the finalizer is present afterwards; the list is unchanged if it was already present, and otherwise the finalizer is appended after the unchanged existing entries |
| PkgRepositoryApp.AddFinalizerIdempotent | pkg/pkgrepository/crd_app.go:55-57 | applying the block closure twice equals applying it once, and leaves one copy when the name was absent |
| PkgRepositoryApp.RemoveFinalizers | pkg/pkgrepository/crd_app.go:63-67 | neither the current nor the previous finalizer name remains |
| PkgRepositoryApp.RemoveFinalizersUndoesBlock | pkg/pkgrepository/crd_app.go:54-67 | unblocking keeps other entries as often as they were and undoes a block |
| PkgRepositoryApp.ApplyEdit | pkg/pkgrepository/crd_app.go:54-67 | the closures change only the finalizer list: a block leaves its name present, an unblock leaves neither name |
| PkgRepositoryApp.RepositoryStatusOf | pkg/pkgrepository/crd_app.go:90-97 | the published status carries exactly the engine's Fetch, Template, Deploy, GenericStatus and both counters |
| PkgRepositoryApp.EditOutcome | pkg/pkgrepository/crd_app.go:107-123 | a failed Get leaves the store untouched and reports "Updating PackageRepository: " with the error; success needs Get and Update to succeed and changes only the metadata |
| PkgRepositoryApp.StatusOutcome | pkg/pkgrepository/crd_app.go:84-105 | a failed Get writes nothing and reports "Fetching PackageRepository: " with the error; success needs Get and UpdateStatus to succeed and replaces only the status |
| PkgRepositoryApp.StatusRetry | pkg/pkgrepository/crd_app.go:73-79 | never more attempts than the budget |
| PkgRepositoryApp.StatusRetryAttempts | pkg/pkgrepository/crd_app.go:72-81 | between one attempt and the budget; every attempt but the last failed, whatever the error; fewer attempts than the budget only after a success |
| PkgRepositoryApp.StatusRetryGets | pkg/pkgrepository/crd_app.go:72-81 | each attempt issues exactly one Get |
| PkgRepositoryApp.StatusRetryRepo | pkg/pkgrepository/crd_app.go:72-81 | the stored status is the engine's exactly when the last attempt succeeded; otherwise the repository is unchanged |
| PkgRepositoryApp.RetryFrom | pkg/pkgrepository/crd_app.go:72-81 | counting attempts the way the loop does, each remaining attempt adds at most one error, and at least one is added while any attempt remains |
| PkgRepositoryApp.RetryFromIsStatusRetry | pkg/pkgrepository/crd_app.go:73-81 | the loop's running state, continued to the end, is the recursive retry definition preceded by the attempts already made |
| PkgRepositoryApp.RetryFromStart | pkg/pkgrepository/crd_app.go:72-81 | counting attempts the way the loop does, from none made, gives the same errors, repository, calls and remaining script as the recursive definition |
| PkgRepositoryApp.ConflictThen | pkg/pkgrepository/crd_app.go:74-79 | an attempt whose UpdateStatus fails is reported and the rest of the script gets one attempt fewer, with the repository unchanged |
| PkgRepositoryApp.ConflictsThenSuccess | pkg/pkgrepository/crd_app.go:74-79 | fewer failed writes than the budget (four of five, say), then a success: each failure is reported, then no error, and the engine's status is stored |
| PkgRepositoryApp.ConflictsExhaustBudget | pkg/pkgrepository/crd_app.go:74-81 | as many failed writes as the budget (five of five, say): every error is reported, so the last is returned, and the stored repository is unchanged |
| PkgRepositoryApp.RepositoryStore.Get | pkg/pkgrepository/crd_app.go:110-113 | returns the stored copy or the scripted error, consumes one outcome and logs one Get |
| PkgRepositoryApp.RepositoryStore.Update | pkg/pkgrepository/crd_app.go:117-120 | on success writes the metadata only, otherwise changes nothing; consumes one outcome |
| PkgRepositoryApp.RepositoryStore.UpdateStatus | pkg/pkgrepository/crd_app.go:99-102 | on success writes the status only, otherwise changes nothing; consumes one outcome |
| PkgRepositoryApp.CRDApp.UpdatePackageRepository | pkg/pkgrepository/crd_app.go:107-123 | the store's new state and the error are those of EditOutcome |
| PkgRepositoryApp.CRDApp.BlockDeletion | pkg/pkgrepository/crd_app.go:46-59 | no store access when the cached model already has the finalizer; otherwise EditOutcome of the block closure; on success the stored list has the finalizer, added after the old entries |
| PkgRepositoryApp.CRDApp.UnblockDeletion | pkg/pkgrepository/crd_app.go:61-68 | EditOutcome of the unblock closure; on success neither name remains, and on failure the repository is unchanged |
| PkgRepositoryApp.CRDApp.UpdateStatusOnce | pkg/pkgrepository/crd_app.go:84-105 | the store's new state and the error are those of StatusOutcome |
| PkgRepositoryApp.CRDApp.RetryLoop | pkg/pkgrepository/crd_app.go:72-81 | the loop leaves the store and returns the error as counting the attempts one by one from none made says |
| PkgRepositoryApp.CRDApp.UpdateStatusWithin | pkg/pkgrepository/crd_app.go:72-81 | the error is the last attempt's, and the store ends as StatusRetry with the given budget says |
| PkgRepositoryApp.CRDApp.UpdateStatus | pkg/pkgrepository/crd_app.go:70-82 | the error is the last attempt's, and the store ends as StatusRetry with five attempts says |
| PkgRepositoryApp.CRDApp.Reconcile | pkg/pkgrepository/crd_app.go:125-127 | the engine's reconcile result, unchanged |
| PkgRepositoryApp.CRDApp.ResourceRefs | pkg/pkgrepository/crd_app.go:129-131 | the engine's tracked references, unchanged |
| KappRestrict.NewFlagSet | pkg/deploy/kapp_restrict.go:62-84 | a flag is allowed exactly when some list names it |
| KappRestrict.SharedOpts | pkg/deploy/kapp_restrict.go:11-33 | the sixteen shared flags, in the source's order; stated by the list lemmas below |
| KappRestrict.ChangeOpts | pkg/deploy/kapp_restrict.go:35-58 | the seventeen change flags, in the source's order; stated by the list lemmas below |
| KappRestrict.DeployOnlyOpts | pkg/deploy/kapp_restrict.go:62-76 | the nine flags only deploy adds; stated by the list lemmas below |
| KappRestrict.InspectOnlyOpts | pkg/deploy/kapp_restrict.go:78-82 | the three flags only inspect adds |
| KappRestrict.ListsHoldLongFlags | pkg/deploy/kapp_restrict.go:11-82 | every listed flag begins with "--" and has a name |
| KappRestrict.ListsHaveNoDuplicates | pkg/deploy/kapp_restrict.go:11-82 | no list names a flag twice |
| KappRestrict.ChangeFlagsAreSeparate | pkg/deploy/kapp_restrict.go:11-82 | no change flag is a shared or an inspect-only flag |
| KappRestrict.DeployOnlyFlagsAreSeparate | pkg/deploy/kapp_restrict.go:11-82 | no deploy-only flag is in another list |
| KappRestrict.DeployFlagSet | pkg/deploy/kapp_restrict.go:62-76 | the deploy set is shared ∪ change ∪ deploy-only |
| KappRestrict.DeleteFlagSet | pkg/deploy/kapp_restrict.go:84 | the delete set is shared ∪ change |
| KappRestrict.InspectFlagSet | pkg/deploy/kapp_restrict.go:78-82 | the inspect set is shared ∪ {"--raw", "--status", "--tree"} |
| KappRestrict.DeleteWithinDeploy | pkg/deploy/kapp_restrict.go:62-84 | the delete set is a subset of the deploy set, and the deploy set adds exactly the deploy-only flags |
| KappRestrict.InspectAllowsNoChangeFlag | pkg/deploy/kapp_restrict.go:35-82 | inspect allows no change flag, "--wait" in particular |
| KappRestrict.SharedFlagsAllowedEverywhere | pkg/deploy/kapp_restrict.go:11-84 | every shared flag, "--json" and "--filter-ns" among them, is in all three sets |
| KappRestrict.DeployOnlyFlagsRefusedElsewhere | pkg/deploy/kapp_restrict.go:62-84 | every deploy-only flag is allowed by deploy and refused by delete and inspect |
| KappRestrict.IntoNsAndPatchOnlyForDeploy | pkg/deploy/kapp_restrict.go:62-84 | "--into-ns" and "--patch" are allowed by deploy only |
| KappRestrict.KubeconfigUnlisted | pkg/deploy/kapp_restrict.go:10-85 | no list names "--kubeconfig" |
| KappRestrict.KubeconfigRefusedEverywhere | pkg/deploy/kapp_restrict.go:10-85 | "--kubeconfig" is in none of the three sets |

## Left out

- Printing is left out: `printLogLine` and the `ui` object, wall-clock time ("3:04:05PM" and "(… ago)"), and colour escape codes. Log lines are returned as values instead. Each value keeps the time the source would print relative to "now".
- AppWatcher.IndentMessageBlock: the `errored` argument and the red colouring of each line are not modelled, because colour codes are terminal output.
- AppWatcher.PrintTillCurrent: requires `Readable` (Template present only with Fetch present). With Template but no Fetch, line 54 dereferences a nil Fetch and Go panics; that panic path is excluded, not modelled.
- AppWatcher.PrintUpdate: requires `UpdateReadable`. A newly failed Fetch with no Template (line 87) or an updated Deploy with no Template (line 107) dereferences a nil Template and Go panics; that panic path is excluded, not modelled. FetchUpdate and DeployUpdate carry the same requirement.
- AppWatcher.StatusString: requires at least one condition. With none, `Conditions[0]` at line 159 panics, which a new App reached through `PrintInfo` can trigger; that panic path is excluded, not modelled.
- AppWatcher.PrintTillCurrent: the error is the stage's text verbatim. Go's `fmt.Errorf(text)` would also interpret `%` verbs inside that text.
- Timestamps are whole seconds. Lines 42, 54, 66, 82 and 86 compare `Unix()` seconds, while lines 46, 58, 82, 85, 94, 103 and 106 compare full `Time` values (After, Equal). Both are read at one granularity, so sub-second differences are not modelled.
- `printUpdate`'s `stopWatch` is a count of calls. Closing the channel and the resulting panic are not modelled.
- `TailAppStatus`, `stopWatch`, `udpateEventhandler`, `NewAppWatcher`, `PrintInfo` and `prettyPrint` are left out. They are informer, channel, goroutine, table-rendering and JSON plumbing.
- PkgRepositoryApp.RepositoryStore: the store holds one repository. It ignores the namespace and name the calls pass, and models no resource versions, so a conflict is just a scripted failure.
- PkgRepositoryApp.CRDApp.UpdateStatus: the `desc` argument is accepted but only logged in the source. Logging (`a.log.Info`) is left out throughout.
- The reconciliation engine behind `CRDApp` (`NewApp`, `App.Reconcile`, `SecretRefs`) is not part of this model. `NewCRDApp`'s wiring of the hooks into it is left out with it.
- The values of `deleteFinalizerName` and `deletePrevFinalizerName` are defined outside `crd_app.go`. They are constructor parameters here.
- Text.LastIndex: positions count characters, while Go's `strings.LastIndex` and `len` count bytes. They agree for the one use, at line 246, because it compares the position of the one-byte "\n" with the last position of the same string.
- KappRestrict.NewFlagSet: parsing a raw option into its flag name, and rejecting an option, happen in the `exec` package. They are not modelled beyond set membership.
- `cli/pkg/kctrl/cmd/dev/deploy.go` (CLI command plumbing) and `pkg/apis/kappctrl/v1alpha1/types_deploy.go` (struct declarations only) are not part of this model.
