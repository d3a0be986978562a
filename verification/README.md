# Verified models of the WholeTale Kubernetes deployment

The repository deploys WholeTale on Kubernetes. Four of its parts have behaviour that is worth proving
things about, because what matters is not one call but every run. Each is modelled here in Dafny,
in the form the source has (shell functions and handlers as methods of a class over the state they
change, pure text functions as functions), and the methods are proved to do what the specification
functions say that the theorems are about.

**Deployment** (`dev-kube/lib`, `deploy.sh`, `clean.sh`). A cluster is a map from kind and name to label
and source files; beside it there is the directory `tmp`. A script is a sequence of commands that may
be cut behind any of them. `ArgGroups` is the argument parser of `startService`, `Cluster` the
specification of the library functions and of whole histories of runs, `Steps` and `Reconciler` the
invariant and what one step and one run do, `Convergence`, `Labels` and `Order` the theorems over all
histories, `WholeTale`, `Deployed` and `Stuck` the actual names and manifests, `Shell` the scripts statement by
statement. In any run any `kubectl get` may fail; `Queries` says which of them do harm, `Shield` why none
does to the actual scripts, and `Harm` what harm leaves behind.

**WebDAV node server** (`nodeserver.go`). `NodeServer` is a transition system: any number of publish
and unpublish calls, each a sequence of operating-system steps that may fail, interleaved in any
order, without locks. `TempFiles` says who owns the temporary files, `Mounts` how deep a path is
mounted, `Serial` what a call does that runs alone, `Isolation` what calls on other paths change about
that, and `NodeHandlers` holds the handlers as written.

**Text functions** (`utils.py`). `HtmlTags` (removal of tags by a regular expression), `PackageUrls`
(printing and parsing of package URLs), `SizeNotation` (memory sizes).

**Publishing** (`publish.py`, `dataone_metadata.py`, `utils.py`). `Items` sorts the items of a tale,
`Checksums` reads hashes from open files, `Eml` builds the metadata records, `Publish` is the pipeline
over an append-only log of create calls, `Package` what every run of it leaves behind, and `Refusals`
what a refused call changes.

`dafny verify dfyconfig.toml` checks everything.

## What turned out not to hold

Where the code does less than its comments or options promise, the model follows the code, and the
exact condition is proved.

- `deploy.sh` is meant to be rerun until it completes. It completes exactly as long as neither
  `gwvolman-dev` resource exists, because lines 97 and 98 have no guard; once they have run, no rerun
  ever gets further (`WholeTale.RealDeployConverges`, `WholeTale.RealDeployStuck`). This happens after
  every complete run (`WholeTale.EveryRerunFails`), and a run cut at the wrong place leaves a deployment
  without services for good (`Stuck.NeverFinished`).
- A TLS secret cut between creation and label stays unlabelled for good, and survives `clean.sh`
  (`Labels.SecretsLackLabels`, `Labels.CleanLeaves`, `WholeTale.CutSecret`).
- A failed `kubectl get` reads as "absent". For the deployment of a finished service that does harm, exactly
  if the run is then cut inside a group or behind an outdated one (`Queries.MisreadLeaves`,
  `Harm.InvokeExactly`): the deployment is left without its configmap until clean.sh deletes it
  (`Harm.HarmLasts`, `Harm.CleanThenDeploy`). As written no run gets there, because lines 97 and 98 stop it
  first (`Shield.ShieldedIsAllowed`); with those two lines guarded it happens (`Harm.RealHarm`,
  `Harm.RealHarmOccurs`).
- An OK reply to an unpublish does not always mean unmounted: `PathExists` answers "no" on an ordinary
  error of stat, and `UnmountPath` then ends without an error (`Serial.SkippedIsOK`, `Mounts.MountSafety`).
- Two publish calls at once can mount a path twice (`Mounts.TwoCallsMountTwice`); an unpublish with
  nothing failing then takes one layer away and answers Internal (`Serial.TwiceMounted`).
- A repeated unpublish answers NotFound, where the section NodeUnpublishVolume of the Container Storage
  Interface specification v1.0.0 wants the operation to be idempotent (`Serial.PublishThenUnpublish`).
- The secrets entry of the configuration file names the configuration file itself (`TempFiles.TempOwnership`).
- Stripping tags is not idempotent (`HtmlTags.StripTwice` gives the exact condition).
- `find_initial_pid` raises an IndexError on some paths (`PackageUrls.WhenIndexError`,
  `PackageUrls.IndexErrorOccurs`).
- The checksum recorded for an external file is that of the empty string (`Checksums.HashExternal`).
- The comment before the resource map promises that pids of failed uploads are filtered out. They are
  not: an unavailable license or repository leaves a None, and a refused upload its pid
  (`Package.PackageIsConsistent`, `Package.MapRefersToStored`, `Refusals.NothingStored`).
- Smaller ones that the model only follows: `deploy.sh -t` is documented but not accepted by `getopts`;
  `clean.sh` removes `./.deploy*.yaml` although the files are in `tmp`, and its settings check is empty
  because of a comma; `shouldStart` is never used, and `startService` and `createVolume` ignore CONTINUE;
  `getArgs` accepts a flag with nothing behind it as the last argument; `create_minimum_eml` never
  notices a missing name or address; `create_upload_repository` returns a text instead of a pair when
  copying fails, which ends `publish_tale` with a ValueError; a license id without a file ends it with
  a KeyError after the first uploads.

## Assumptions

- A query that fails lists nothing. `contains` searches its error text as well (`dev-kube/lib:147`); that
  text does not contain the pattern. A query that is spelled twice in a run fails both times or neither.
- `kubectl get` lists names only, and the pattern given to `grep` has no special characters.
- The convergence theorems ask that, within a kind, the name a guard looks for occurs in the name of
  exactly the resource the step creates; `WholeTale.RealPlanIsGood` proves it of the real names,
  given that no resource of the initial cluster has a name in which one of them occurs.
- Histories that contain `clean.sh` assume that nothing of the initial cluster carries `app=WholeTale`.
- A command whose own failure the model cannot see (certificates, `setup_girder.py`) may fail at any
  time: such a run is one that is cut there.
- Operating-system answers are arbitrary, but a success that the state rules out counts as a failure: a
  mount on a missing directory, a temporary name already in use, the removal of a mounted directory.
- The mount depth theorems start from a node with no call in flight, in which every mount point is a directory; runs keep it so.
- Target paths are independent of each other: none lies below another, and the parents that MkdirAll
  makes are no target paths.
- `yaml.dump` without `allow_unicode` escapes every character that is not ASCII, so `tale.yml` is ASCII
  (`publish.py:327`).
- Girder answers the same question the same way within a run. Each uuid drawn goes into the next
  create call, so pids are numbered by the calls.
- The hash is any function of the bytes taken one after another; MD5 is not looked into.
- Strings are sequences of characters; digits and letters in patterns are those of ASCII.

## Model

| member | source | states |
|---|---|---|
| ArgGroups.ParseFlatten | dev-kube/lib:227-243 | Parsing the flattened form of any list of groups (`-s` or `-c` and file names; only the last group may be bare) gives the groups back without error; an empty argument and all behind it is ignored. |
| ArgGroups.ParseSound | dev-kube/lib:188-243 | For every argument list: the groups read are a flattened prefix of it and hold only file names; an accepted list is used up to its end or to an empty argument; a rejected one goes on with a word that is no flag, or with a flag and another word that begins with a dash. |
| ArgGroups.ParseTyped | dev-kube/lib:227-243 | `-s` and file names, then `-c` and file names, is one group of secrets and one of configmaps. |
| Steps.ConfigNames | dev-kube/lib:234-250 | `-s` makes the secret NAME-secret, `-c` the configmap NAME-configmap. |
| Steps.VolumeFiles | dev-kube/lib:268-277 | A volume is made from its own manifest if there is one, and else from that of the automatic type. |
| Shell.Script.GetArgs | dev-kube/lib:188-210 | `1 <= NARGS <= $#`, so `shift $NARGS` always makes progress; ARGS holds exactly the file names up to the next flag or empty argument; it fails exactly if a flag follows at once. |
| Shell.FilesOfFromFile | dev-kube/lib:204 | kubectl reads back from ARGS the very files that were collected. |
| Convergence.LongestPrefix | dev-kube/lib:20-38 | A script does exactly its longest prefix of commands: those before the cut and before the first that fails, and nothing behind. |
| Steps.YamlEffect | dev-kube/lib:212-223 | `prepyaml` and `kubectl create` succeed if and only if tmp exists, the resource does not, and the run is not cut in between: then there is one temporary file more, and one resource, of the name and label in the manifest; otherwise the cluster is as it was. |
| Steps.TLSMade | dev-kube/lib:292-293 | Create and label: both, only the creation, or nothing, depending on what is there and how many commands are left. |
| Steps.TLSSecretEffect | dev-kube/lib:286-296 | Cut anywhere, the secret is present if the run has not ended here, with its label unless it was there before; it is not touched if it was. |
| Steps.YamlStepEffect | dev-kube/lib:298-305 | The same for a secret from a file and for the ingress. |
| Steps.VolumeEffect | dev-kube/lib:258-284 | Cut anywhere, the claim does not exist without the volume unless it did before; both are there if the run has not ended here. |
| Shell.Script.ConfigureAndDeploy | dev-kube/lib:232-251 | The argument loop does what folding over the parsed groups does, including an error after some groups have been dealt with. |
| Steps.ServiceEffect | dev-kube/lib:225-256 | Cut anywhere: the deployment never without the service and all its secrets and configmaps, labelled and current; all there if the run has not ended here; untouched if complete before. |
| Shell.Script.Deploy | dev-kube/deploy.sh:37-122 | The script as written (15 steps) is the run of the step list that the theorems speak about, for both values of CONTINUE and every cut. |
| Shell.Script.Clean | dev-kube/clean.sh:23-34 | clean.sh as written is the command list the theorems speak about. |
| Steps.StepEffect | dev-kube/deploy.sh:85-109 | Every step, cut anywhere: only its own resources change, what is there stays right and in order, a finished step is not touched, it finishes unless cut, blocked by its own resource or stopped by a failing query, and what it finishes carries the label. (The one failing query that does more is in the rows of `Queries`.) |
| Steps.ExistsIff | dev-kube/lib:156-169 | Where names do not contain each other, the substring test of `exists` is a test for the one resource meant. |
| Steps.RemakeEffect | dev-kube/lib:245-249 | Delete, create, label: cut in between, the secret or configmap is as it was, gone, or new and without its label. |
| Steps.ConfigureEffect | dev-kube/lib:232-250 | After the argument loop each secret and configmap holds the files of the last group of its type, labelled. |
| Reconciler.StepKeeps | dev-kube/lib:20-38 | A step keeps the invariant of the whole cluster: it does not disturb the state of any other step. |
| Reconciler.DeployEffect | dev-kube/deploy.sh:38-122 | One run of deploy.sh from any reachable state: the invariant is kept; it completes if it is not cut, no step is blocked and no query fails, with every step done and tmp gone; steps done before stay as they are, the others end up labelled. |
| Reconciler.EpilogueEnds | dev-kube/deploy.sh:118-122 | A run that has done all its steps ends well if and only if tmp holds nothing but `.*.yaml` files. |
| Reconciler.PrologueCut | dev-kube/deploy.sh:37-40 | Cut before its steps a run has made tmp with its first command, and nothing else. |
| Reconciler.EpilogueCut | dev-kube/deploy.sh:118-122 | Cut behind its steps a run has removed the temporary files with the second command, and tmp with the third. |
| Convergence.Converges | dev-kube/deploy.sh:85-122 | After any history of runs of both scripts, cut anywhere, with either CONTINUE, in which any queries fail but no run does harm: an uncut run without failing queries ends early exactly if a step is blocked, and any run that completes arrives where a single uncut run would have (same kinds and names, same contents, same labels but for TLS secrets that had lost theirs). |
| Convergence.GuardedConverges | dev-kube/deploy.sh:85-93 | With every step guarded and CONTINUE=1 the next uncut run always completes, at the same place. |
| Convergence.ReplayKeeps | dev-kube/deploy.sh:85-122 | The invariant (right contents; no deployment without its service and all its labelled, current secrets and configmaps; nothing outside the plan) holds after every history in which no run does harm. |
| Labels.SecretsLackLabels | dev-kube/lib:291-294 | After every history a TLS secret lacks its label if and only if some run found it absent and got to its step with exactly one command left. |
| Labels.LabelInvariant | dev-kube/lib:231-296 | After every history a created resource is labelled, or is a TLS secret cut between creation and label, or is a secret or configmap whose deployment does not exist yet; for TLS secrets the cut decides. |
| Convergence.DeploymentsAreConfigured | dev-kube/lib:228-251 | After every history of cut runs of both scripts, in which any queries fail but no run does harm, if the deployment of a started service exists, then so do its service and each of its secrets and configmaps, labelled, with the files of the last group of its type. |
| Convergence.LostLabelStaysLost | dev-kube/lib:291-294 | A TLS secret cut between creation and label never gets the label back from any further run, with or without -c. |
| Labels.CleanLeaves | dev-kube/clean.sh:28-30 | After any history, an uncut clean.sh leaves exactly the initial resources and the created ones without a label: of the TLS secrets exactly those cut between creation and label, of the rest only secrets and configmaps whose deployment does not exist. |
| Convergence.DeployThenClean | dev-kube/clean.sh:28-30 | One uncut deploy and a clean restore exactly the initial resources. |
| Convergence.CleanEffect | dev-kube/clean.sh:28-30 | Cut anywhere, clean.sh has deleted the labelled resources of some kinds, and secrets and configmaps never before deployments. |
| Convergence.CleanedSoFar | dev-kube/clean.sh:23-30 | Cut anywhere, clean.sh has deleted exactly the labelled resources of the first kinds, in the order it names them. |
| Order.ReplayFrontier | dev-kube/deploy.sh:85-109 | After any history of runs of deploy.sh there is one frontier: all steps before it are complete, the step at it is ordered, nothing of a later one exists. |
| Order.StepsInOrder | dev-kube/deploy.sh:85-109 | If anything of a later step exists, every earlier step is complete. |
| Order.UnlabelledTail | dev-kube/lib:245-249 | After any runs of deploy.sh, what has no label is the TLS secrets cut between creation and label, and secrets or configmaps of one single service, that of the step at the frontier. |
| Order.StuckForever | dev-kube/deploy.sh:97-98 | Once an unguarded step has run, no sequence of further runs creates anything of a later step, and each of them fails. |
| WholeTale.RealPlanIsGood | dev-kube/deploy.sh:85-109 | The names and manifests of this repository meet the side conditions of the general theorems. |
| WholeTale.RealDeployConverges | dev-kube/deploy.sh:85-122 | deploy.sh as written, with and without -c, after any history, with any failing queries in it: a run of at least 63 commands without failing queries completes if and only if neither gwvolman-dev resource is there and, with -c, none of the three secrets and the ingress; and any run that completes arrives at the ideal. |
| Deployed.RealIdeal | dev-kube/deploy.sh:85-109 | The complete deployment, written out: the initial resources, and 26 more, each by kind, name, label and the files it is made from. |
| Deployed.RealPrefix | dev-kube/deploy.sh:85-109 | After any sequence of runs of deploy.sh, cut anywhere, with any options and failing queries, what has been created is a front part of that list, resource by resource in the order of the script. |
| WholeTale.RealDeployStuck | dev-kube/deploy.sh:97-98 | Once the first gwvolman-dev resource exists, a service, deployment or ingress that is missing stays missing, however often deploy.sh is run. |
| WholeTale.EveryRerunFails | dev-kube/deploy.sh:97-98 | After one uncut run every further run of deploy.sh fails, whatever its options, wherever it is cut, and whatever queries fail. |
| Stuck.ReachCount | dev-kube/deploy.sh:85-98 | From a cluster without any of their resources, the first steps take exactly their commands, and each leaves its resources and none of a later step. |
| Stuck.NeverFinished | dev-kube/deploy.sh:97-98 | A first run cut behind its 26th command leaves a deployment that no sequence of reruns ever gets a service into. |
| Queries.FailedQueryStops | dev-kube/lib:143-169 | A finished step ends the script if and only if one of its queries fails; otherwise it takes no command. Of what it owns nothing changes, but where it does harm. |
| Queries.MisreadLeaves | dev-kube/lib:231-251 | If the query for the deployment of a complete service fails, the script ends with exactly the secrets and configmaps that its commands and queries allow; they are labelled and current afterwards if and only if it ends between two groups (after a multiple of three commands, at a group whose own query fails, or behind all), and the groups made again are the last of their type or have the same files. |
| Queries.DistinctIsCurrent | dev-kube/lib:232-251 | With one group of each type the second condition always holds. |
| Queries.AnyStep | dev-kube/deploy.sh:85-109 | Whatever queries fail, wherever it is cut: a step does what the rows above say, and keeps its invariant, if and only if it does no harm in that sense. |
| Harm.InvokeExactly | dev-kube/deploy.sh:85-122 | A run of either script, whatever queries fail, keeps the invariant if and only if it does no harm; if it does, exactly one service is harmed and all else is in order. |
| Shield.ShieldedIsAllowed | dev-kube/deploy.sh:97-109 | If a step without a guard comes before all services, no run of any history does harm, whatever queries fail. |
| WholeTale.RealDeploymentsAreConfigured | dev-kube/deploy.sh:85-109 | So for deploy.sh as written: after every history of cut runs of both scripts with any failing queries, a deployment has its service and all its secrets and configmaps, labelled and current. |
| Harm.RealHarm | dev-kube/deploy.sh:99-107 | Were lines 97 and 98 guarded: a rerun on a finished deployment in which the query for the deployment of girder fails leaves it without its labelled, current configmap if and only if the rerun is cut after four or five commands, and otherwise changes nothing. |
| Harm.RealHarmOccurs | dev-kube/deploy.sh:99-107 | Such a rerun is reached after one uncut run, and its damage stays through all further runs that see the deployments. |
| Harm.HarmLasts | dev-kube/lib:228-255 | A harmed service stays exactly as it is through any number of further runs of deploy.sh whose queries for deployments succeed. |
| Harm.CleanRepairs | dev-kube/clean.sh:28-30 | A clean.sh that gets as far as deleting the deployments restores the invariant. |
| Harm.CleanThenDeploy | dev-kube/clean.sh:28-30 | After it, an uncut run of guarded steps arrives where a first run would have. |
| WholeTale.RealGuardedConverges | dev-kube/deploy.sh:99-109 | Without those two lines every history is followed by a run that completes. |
| WholeTale.RealDeployThenClean | dev-kube/clean.sh:28-30 | The real deployment followed by clean.sh restores exactly the initial resources. |
| WholeTale.RealLeftovers | dev-kube/clean.sh:28-29 | After any runs of deploy.sh, cut anywhere, what clean.sh would leave of the created resources is the TLS secrets cut between creation and label, and at most one configmap. |
| WholeTale.CutSecret | dev-kube/lib:292-293 | Such a TLS secret does occur: a first run cut after four commands. |
| NodeHandlers.Machine.CreateConfigFile | csi-test/csi-wt-webdav/pkg/webdav/nodeserver.go:119-137 | Straight-line CreateConfigFile, with its three error returns, is the temporary-file part of the transition system; files already made stay on an error. |
| NodeHandlers.Machine.MountAndRemove | csi-test/csi-wt-webdav/pkg/webdav/nodeserver.go:70-85 | Mount, then both removals whatever came of it, then the reply by kind of error. |
| NodeHandlers.Machine.Prepare | csi-test/csi-wt-webdav/pkg/webdav/nodeserver.go:42-57 | The check of the mount point and the directory are the first two stages of a publish in the transition system. |
| NodeHandlers.Machine.NodePublishVolume | csi-test/csi-wt-webdav/pkg/webdav/nodeserver.go:39-86 | The handler, for all answers of the operating system, does to the machine and replies what the call alone does in the transition system. |
| NodeHandlers.Machine.UnmountPath | csi-test/csi-wt-webdav/vendor/k8s.io/kubernetes/pkg/volume/util/util.go:131-193 | UnmountPath, with its way of ending without an error when stat fails, is the inner part of unpublish in the transition system. |
| NodeHandlers.Machine.NodeUnpublishVolume | csi-test/csi-wt-webdav/pkg/webdav/nodeserver.go:88-109 | The unpublish handler likewise, for all answers. |
| TempFiles.TempOwnership | csi-test/csi-wt-webdav/pkg/webdav/nodeserver.go:63-74 | For any number of calls in flight, in every interleaving and with any failing step, the temporary files are the disjoint union of the files held by calls between creation and removal, of those CreateConfigFile has leaked, and of those os.Remove failed on; from the mount on the configuration file names itself as its secrets file. |
| TempFiles.NothingStuck | csi-test/csi-wt-webdav/pkg/webdav/nodeserver.go:73-74 | If no os.Remove of the run fails, no file is left by a removal. |
| TempFiles.OnlyCreateConfigFileLeaks | csi-test/csi-wt-webdav/pkg/webdav/nodeserver.go:119-137 | If no os.Remove fails, then when no call is in flight exactly the leaks of CreateConfigFile are left: one file for each call whose second TempFile failed, two for each whose WriteString failed. Calls that got to the mount leave none, mounted or not. |
| Mounts.DepthIsConserved | csi-test/csi-wt-webdav/pkg/webdav/nodeserver.go:72 | In every interleaving the depth of a path grows by the successful mounts and shrinks by the successful unmounts of the run, and by nothing else. |
| Mounts.MountPointsAreDirectories | csi-test/csi-wt-webdav/pkg/webdav/nodeserver.go:42-72 | In every interleaving whatever is mounted is mounted on a directory that exists. |
| Mounts.RunKeepsSafe | csi-test/csi-wt-webdav/pkg/webdav/nodeserver.go:42-106 | With one call per path in flight at most, each stage of a call knows the depth of its path; every step of every call keeps that. |
| Mounts.MountSafety | csi-test/csi-wt-webdav/pkg/webdav/nodeserver.go:39-109 | With at most one call per path in flight: depth stays at most 1 in every interleaving across paths; an OK publish has its path mounted; a NotFound unpublish has it unmounted; an OK unpublish has it unmounted if and only if UnmountPath did not give up on an error of stat. |
| Mounts.TwoCallsMountTwice | csi-test/csi-wt-webdav/pkg/webdav/nodeserver.go:42-72 | Without that assumption: on any idle node and any unmounted directory two publish calls have a run that mounts it twice. |
| Isolation.PublishOnMounted | csi-test/csi-wt-webdav/pkg/webdav/nodeserver.go:42-57 | After any history and among any calls on other paths, a publish on a mounted path leaves the mounts there as they are, its steps touch no mount, directory or temporary file, and it replies Internal if and only if its check fails, otherwise OK (NodePublishVolume of CSI v1.0.0 demands idempotence). |
| Isolation.PublishIsIsolated | csi-test/csi-wt-webdav/pkg/webdav/nodeserver.go:39-86 | In every interleaving with calls on other paths a publish does to its path, and replies, what it does and replies when only its own steps are taken, with the same answers, except that a temporary name in use counts as a failure. |
| Isolation.UnpublishIsIsolated | csi-test/csi-wt-webdav/pkg/webdav/nodeserver.go:88-109 | In every interleaving with calls on other paths an unpublish does to its path, and replies, what it does and replies when only its own steps are taken. |
| Serial.PublishMounts | csi-test/csi-wt-webdav/pkg/webdav/nodeserver.go:39-86 | The exact reply and effect of a publish on an unmounted path, on mounts, directories and temporary files, as a function of the answers of the operating system. |
| Serial.PublishMeans | csi-test/csi-wt-webdav/pkg/webdav/nodeserver.go:58-86 | OK means mounted once, with the URL asked for, the flags in order, "ro" exactly if asked for, and the configuration file; any other reply means no mount has changed; a temporary file is left only if os.Remove or CreateConfigFile fails. |
| Serial.PublishReplies | csi-test/csi-wt-webdav/pkg/webdav/nodeserver.go:42-86 | Which failing step gives which reply: PermissionDenied and InvalidArgument are for a mount that failed that way, Internal is for every other failure. |
| Serial.DirectoryGone | csi-test/csi-wt-webdav/pkg/webdav/nodeserver.go:71-83 | If the directory has gone before the mount, the reply is Internal and nothing is mounted. |
| Serial.UnpublishUnmounts | csi-test/csi-wt-webdav/pkg/webdav/nodeserver.go:88-109 | The exact reply and effect of an unpublish as a function of the mount depth and the answers of the operating system. |
| Serial.SkippedIsOK | csi-test/csi-wt-webdav/vendor/k8s.io/kubernetes/pkg/volume/util/util.go:197-209 | If stat fails on a mounted path, not as a corrupted mount, the reply is OK and the path stays mounted. |
| Serial.TwiceMounted | csi-test/csi-wt-webdav/vendor/k8s.io/kubernetes/pkg/volume/util/util.go:181-193 | On a path mounted twice, with nothing failing, one layer goes and the reply is Internal. |
| Serial.PublishThenUnpublish | csi-test/csi-wt-webdav/pkg/webdav/nodeserver.go:88-109 | Publish OK, then unpublish OK that did not give up: unmounted, directory gone, all else as before; from then on unpublish replies NotFound (or Internal on a failing check) and changes nothing. |
| Serial.DriveIsRun | csi-test/csi-wt-webdav/pkg/webdav/nodeserver.go:39-109 | A call driven to its reply is a run of the transition system of at most eight steps. |
| HtmlTags.GoesUnique | dev-kube/gwvolman/t/gwvolman/utils.py:470 | There is exactly one leftmost, lazy, non-overlapping way of matching `<[^<]+?>` through a string. |
| HtmlTags.ScannerIsSub | dev-kube/gwvolman/t/gwvolman/utils.py:470 | The one-pass scanner with a held-back buffer gives, for every string, the result of that way. |
| HtmlTags.StripAccounts | dev-kube/gwvolman/t/gwvolman/utils.py:462-470 | The result is a subsequence; lengths add up; the number of '<' drops by exactly the number of matches. |
| HtmlTags.StripSegments | dev-kube/gwvolman/t/gwvolman/utils.py:470 | Stripping works on the texts between '<'s one by one: a text goes with its '<' up to the first '>' after its first character, or stays whole. |
| HtmlTags.StripWeave | dev-kube/gwvolman/t/gwvolman/utils.py:470 | Texts without '<' with tags between them come back as the texts. |
| HtmlTags.StripTwice | dev-kube/gwvolman/t/gwvolman/utils.py:470 | Stripping twice is stripping once if and only if behind no '<' that stays, texts whose '<' goes leave a '>' that is not directly behind it: a condition on the texts between the '<'s of the input. |
| HtmlTags.StripStable | dev-kube/gwvolman/t/gwvolman/utils.py:470 | If every '<' begins a removed match, stripping again changes nothing. |
| HtmlTags.StripIsNotIdempotent | dev-kube/gwvolman/t/gwvolman/utils.py:470 | `<<a>b>` becomes `<b>`, and that becomes empty. |
| PackageUrls.PackageUrlRoundTrip | dev-kube/gwvolman/t/gwvolman/utils.py:408-420 | For every repository and every pid (even empty or with newlines): the parser finds the pid in the URL printed; the URL is one of the production search exactly if the repository is part of the production address; nothing is printed exactly if it is part of neither. |
| PackageUrls.PagesAre | dev-kube/gwvolman/t/gwvolman/utils.py:417-420 | The two pages in full: that of the production search for every part of `https://cn.dataone.org/cn/v2`, that of the development node for every other part of its address, none otherwise. |
| PackageUrls.AddressesAre | dev-kube/gwvolman/t/gwvolman/utils.py:611-617 | The addresses of both pages give their pid, with and without encryption. |
| PackageUrls.LooseDots | dev-kube/gwvolman/t/gwvolman/utils.py:611-617 | The dots of a host in a pattern stand for any character but a newline. |
| PackageUrls.OddAddresses | dev-kube/gwvolman/t/gwvolman/utils.py:612 | Without a verb, without a pid, or with a pid of two lines, it is no object address. |
| PackageUrls.ObjectAddressRoundTrip | dev-kube/gwvolman/t/gwvolman/utils.py:612-614 | Every object address of a coordinating node, any version and verb, gives its pid. |
| PackageUrls.CnPidPrints | dev-kube/gwvolman/t/gwvolman/utils.py:612 | The pattern accepts a well-formed object address exactly if its pid is one non-empty line. |
| PackageUrls.CnPidParses | dev-kube/gwvolman/t/gwvolman/utils.py:612 | Nothing else is recognised as an object address. |
| PackageUrls.BothNodesResolve | dev-kube/gwvolman/t/gwvolman/utils.py:618-619 | The resolve address of either coordinating node gives its pid, for every pid. |
| PackageUrls.GenericResolve | dev-kube/gwvolman/t/gwvolman/utils.py:618-619 | Otherwise the pid is what follows the first `resolve/`. |
| PackageUrls.WhenIndexError | dev-kube/gwvolman/t/gwvolman/utils.py:618-619 | The parser fails if and only if no address form matches and the path has `resolve` but not `resolve/` in it. |
| PackageUrls.IndexErrorOccurs | dev-kube/gwvolman/t/gwvolman/utils.py:618-619 | It does fail on every path that has `resolve` and no slash in it. |
| PackageUrls.OtherPaths | dev-kube/gwvolman/t/gwvolman/utils.py:609-625 | Any other path gives the leftmost identifier in it, as long as it goes, marked `doi:`, or comes back unchanged if none occurs. |
| PackageUrls.IdentifiersAre | dev-kube/gwvolman/t/gwvolman/utils.py:609 | An identifier is 10, any character but a newline, four to nine digits, a slash, and one or more of the letters, in either case, the digits and `-._;()/:`. |
| PackageUrls.ClassesAre | dev-kube/gwvolman/t/gwvolman/utils.py:609-612 | The character classes of the patterns, written out. |
| PackageUrls.IdentifierIsMarked | dev-kube/gwvolman/t/gwvolman/utils.py:620-623 | Every identifier at the end of a path is found whole and marked, if nothing before it could begin one. |
| PackageUrls.SampleIdentifier | dev-kube/gwvolman/t/gwvolman/utils.py:609-623 | `https://doi.org/10.5063/F1Z899CZ` gives `doi:10.5063/F1Z899CZ`. |
| SizeNotation.SizeGrammar | dev-kube/gwvolman/t/gwvolman/utils.py:45-61 | A text is accepted exactly if it is digits, one of k, m, g or nothing, b or nothing, in any case, and at most one newline; otherwise it is a ValueError and the limit is 2 GB. |
| SizeNotation.WrittenIsAccepted | dev-kube/gwvolman/t/gwvolman/utils.py:54-61 | The result is the number times the unit. |
| SizeNotation.SizeRoundTrip | dev-kube/gwvolman/t/gwvolman/utils.py:45-61 | Every number in decimal, with any leading zeros and any suffix, is read as itself times the unit. |
| SizeNotation.UnitLaws | dev-kube/gwvolman/t/gwvolman/utils.py:46-51 | Each larger unit is 1024 of the next smaller one, for every number, and a capital letter makes no difference. |
| SizeNotation.SuffixesAre | dev-kube/gwvolman/t/gwvolman/utils.py:45-51 | The suffixes are k, m, g or nothing and b or nothing, in either case; they stand for 1024, 1048576, 1073741824 and 1. |
| SizeNotation.OtherLimits | dev-kube/gwvolman/t/gwvolman/utils.py:54-61 | A number is its own limit; what is no size is an error, and gives 2147483648. |
| SizeNotation.WrittenSizes | dev-kube/gwvolman/t/gwvolman/utils.py:45-61 | `512MB` is 536870912, `07kb` is 7168, and a newline at the end is allowed. |
| SizeNotation.DefaultLimit | dev-kube/gwvolman/t/gwvolman/utils.py:191-194 | The configured default and the fallback are both 2147483648. |
| Items.FilterItems | dev-kube/gwvolman/t/gwvolman/utils.py:539-590 | The loop with its four lists returns the sorted items, and an error exactly if some item has no file. |
| Items.PlacesAre | dev-kube/gwvolman/t/gwvolman/utils.py:565-590 | An item is on DataONE if and only if its link has `dataone.org` in it, elsewhere if it has another link, and local if it has none; an item without a file is an error. |
| Items.StablePartition | dev-kube/gwvolman/t/gwvolman/utils.py:565-590 | Each occurrence of each id is in exactly one of the three lists, the one of its place, in the order of the input; each local file is that of the local item beside it. |
| Items.EmlItemsArePermuted | dev-kube/gwvolman/t/gwvolman/publish.py:612-616 | The items described are the input items with a non-empty id, each as often as it was there. |
| Items.EmlItemsInOrder | dev-kube/gwvolman/t/gwvolman/publish.py:612-616 | They come in this order: those on DataONE, the local ones, the other remote ones, each in the order of the input. |
| Checksums.ComputeMd5 | dev-kube/gwvolman/t/gwvolman/utils.py:520-536 | Whatever sizes the reads come in: the hash of exactly the bytes between the position and the end. |
| Checksums.ChunkingDoesNotMatter | dev-kube/gwvolman/t/gwvolman/utils.py:530-536 | Any chunking gives the one-shot hash of the whole. |
| Checksums.HashLaws | dev-kube/gwvolman/t/gwvolman/utils.py:529-535 | The hash of nothing is the initial state; each byte is absorbed after those before it. |
| Checksums.NothingLost | dev-kube/gwvolman/t/gwvolman/utils.py:529-535 | A hash that writes down what it is given has written down all the bytes, in order. |
| Checksums.HashAndUpload | dev-kube/gwvolman/t/gwvolman/publish.py:408-424 | A local file is uploaded with the hash of exactly the bytes uploaded. |
| Checksums.HashExternal | dev-kube/gwvolman/t/gwvolman/publish.py:130-143 | An external file is always recorded with the hash of the empty string. |
| Publish.CreateExternalObjectStructure | dev-kube/gwvolman/t/gwvolman/publish.py:117-153 | One entry for each name of a linked file, with the URL of the last file of that name and the hash of the empty string; an exception if one cannot be fetched. |
| Eml.CreateMinimumEml | dev-kube/gwvolman/t/gwvolman/dataone_metadata.py:261-307 | The records grown in the loop are the complete list; an item without a file is an error. |
| Eml.EntitiesAreComplete | dev-kube/gwvolman/t/gwvolman/dataone_metadata.py:261-307 | One record for each item in order, then tale.yml, then the license and the environment archive if their size is not zero, and nothing else. |
| Eml.OnlyEntitiesAreComplete | dev-kube/gwvolman/t/gwvolman/dataone_metadata.py:261-307 | No other list of records fits that description. |
| Eml.CompleteSays | dev-kube/gwvolman/t/gwvolman/dataone_metadata.py:261-307 | The records in full: name, size, MIME type and description of each item, and the literal name, format and text of tale.yml, license and archive, each with its own size. |
| Eml.RecordDescription | dev-kube/gwvolman/t/gwvolman/dataone_metadata.py:118-138 | The description in a record is what is left of the one given, in order, without its tags; there is none exactly if it was nothing but tags. |
| Refusals.RefusalsGoUnnoticed | dev-kube/gwvolman/t/gwvolman/publish.py:171-190 | Refusing any of the calls changes neither the result of a run nor any call it makes. |
| Refusals.NothingStored | dev-kube/gwvolman/t/gwvolman/publish.py:187-190 | A finished run whose resource map refers to what is not stored. |
| Publish.Client.CreateUploadObjectMetadata | dev-kube/gwvolman/t/gwvolman/publish.py:389-426 | One create call, new pid, checksum of the uploaded bytes, the size Girder states. |
| Package.TaleSizes | dev-kube/gwvolman/t/gwvolman/publish.py:327-344 | The metadata counts the characters of tale.yml, its system metadata the UTF-8 bytes: they state the same size if and only if the text is ASCII, as the output of `yaml.dump` is. |
| Checksums.Utf8Length | dev-kube/gwvolman/t/gwvolman/dataone_metadata.py:360-363 | A text has as many bytes in UTF-8 as characters if and only if it is ASCII, and otherwise more. |
| Checksums.Utf8Injective | dev-kube/gwvolman/t/gwvolman/dataone_metadata.py:360-363 | Different texts have different bytes. |
| Checksums.Utf8Samples | dev-kube/gwvolman/t/gwvolman/dataone_metadata.py:360-363 | Characters of one to four bytes, as section 3 of RFC 3629 has them. |
| Publish.Client.CreateUploadRepository | dev-kube/gwvolman/t/gwvolman/publish.py:429-481 | One create call with the checksum of the bytes uploaded; `(None, 0)` if the repository cannot be had or that call ends in an IOError; an error text in place of the pair if copying fails. |
| Publish.Client.UploadLocalFiles | dev-kube/gwvolman/t/gwvolman/publish.py:572-575 | One create call for each local file, in order, up to the first that ends in an IOError, and their pids. |
| Publish.Client.UploadObjects | dev-kube/gwvolman/t/gwvolman/publish.py:567-598 | publish_tale up to the metadata, with each of its five ways of ending early. |
| Publish.Client.PublishTale | dev-kube/gwvolman/t/gwvolman/publish.py:484-646 | The pipeline as written appends to the log, and answers, what its specification says. |
| Package.PackageIsConsistent | dev-kube/gwvolman/t/gwvolman/publish.py:572-642 | In every finished run the resource map is uploaded last, right after the metadata it names; its pids are the local files in order, tale.yml, license and archive; an entry is None exactly if the license could not be read, or the repository could not be had or uploaded; without the None it is the list of all objects of the run whose calls did not break, in order. |
| Package.PackageCarries | dev-kube/gwvolman/t/gwvolman/publish.py:572-598 | In every finished run each object of the resource map is what it stands for: the bytes of that local file with the size Girder states, the text of tale.yml, the license text, the archive, with the sizes of their bytes. |
| Package.NoMapWithoutPackage | dev-kube/gwvolman/t/gwvolman/publish.py:550-646 | A run answers with a URL if and only if no step stops it, a condition on the request and the answers to its calls; otherwise no resource map is accepted. |
| Package.Outcomes | dev-kube/gwvolman/t/gwvolman/publish.py:550-646 | The result of every run, by the request and the answers to its calls: the message, which exception, or the URL. |
| Package.KeyErrors | dev-kube/gwvolman/t/gwvolman/publish.py:365-366 | If nothing else is wrong, the run ends with a KeyError if and only if the license is none of CC0-1.0, CC-BY-3.0 and CC-BY-4.0, and with a ValueError if and only if copying the repository fails. |
| Package.EveryChecksumAgrees | dev-kube/gwvolman/t/gwvolman/publish.py:171-190 | In every run, finished or not, nothing earlier in the log changes and each new object goes up with the next pid and the checksum of its own bytes, documents with the size of theirs. |
| Package.PidsAreDistinct | dev-kube/gwvolman/t/gwvolman/publish.py:80 | With uuids that do not repeat, no pid is used twice over all runs. |
| Package.MapRefersToStored | dev-kube/gwvolman/t/gwvolman/publish.py:187-190 | The resource map of a finished run refers only to stored objects if and only if the node refuses none of the calls before the metadata. |
| Package.RefusedIsMapped | dev-kube/gwvolman/t/gwvolman/publish.py:187-190 | Each pid of a refused upload is in the resource map, and nothing is stored under it. |
| Package.UrlFindsMap | dev-kube/gwvolman/t/gwvolman/publish.py:644-646 | The URL returned, parsed by find_initial_pid, gives the pid of the resource map. |
| Package.RecordsAndObjects | dev-kube/gwvolman/t/gwvolman/publish.py:604-642 | Metadata records are as many as the items with a non-empty id, tale.yml, and license and archive if not empty; the resource map has the local items and three more. |
| Package.MetadataSays | dev-kube/gwvolman/t/gwvolman/publish.py:604-627 | The metadata of a finished run has the records of the described items, and states the number of characters of tale.yml, the length of the license file, and that of the archive if it was uploaded. |

## Left out

- Cluster creation (gcloud, minikube), `-k`, `check_certs.sh`, `setup_girder.py`: external commands without state of ours.
- What `envsubst` puts into a manifest; only kind, name, label and file name are modelled.
- The volume directories that `clean.sh` deletes, and cluster deletion.
- A `kubectl delete` of several kinds is cut between kinds only, not within one.
- `csi-test/lib`, a near copy of `dev-kube/lib`.
- The internals of mount and umount, of gRPC and of csi-common; file descriptors.
- Serialisation to XML, YAML and RDF, the contents of `tale.yml`, and what createSimpleResourceMap makes of a None.
- JWT decoding, HTTP to Girder and DataONE, client creation, logging.
- Docker services, `Deployment` lookups, Celery wiring and `import_tale`: one-branch helpers and external calls.
- Non-ASCII digits and case folding in the patterns.
- Convergence.DeploymentsAreConfigured: for arbitrary plans it holds while no run does harm, because a failed query for a deployment remakes its configmaps; `Harm.InvokeExactly` gives the exact condition, and `WholeTale.RealDeploymentsAreConfigured` needs none.
- An exception of create other than a DataONEException or an IOError; it would end the run like an IOError, except in the upload of the repository.
