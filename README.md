# Teardown handlers of the appsody CLI, in Dafny

This project models the decision logic of two commands of the appsody
command-line tool (Go package `cmd`):

- `appsody stop` (`cmd/stop.go`) tears a development environment down. Which
  path it takes depends on one flag, `Buildah`. On the local path it announces
  the stop and stops the container through `dockerStop`, handing any error back
  to the caller. On the cluster path it derives three resource names from the
  container name: `<name>-ingress`, `<name>-service` and `<name>` itself. It then
  runs `kubectl delete` for the ingress, the service and the deployment, in that
  order. A failed delete is logged against its resource, the remaining deletes
  are still made, and the command succeeds anyway.
- `appsody deploy delete` (`cmd/deploy_delete.go`) deletes the deployed
  application described by a deployment manifest (default `app-deploy.yaml`).
  It first probes the manifest. A probe error is fatal, even in dry-run. A
  missing manifest is fatal unless in dry-run. Otherwise it logs
  "Deleting deployment using deployment manifest <file>" and makes exactly one
  `KubeDelete` call with the manifest, the namespace and the dry-run flag. That
  call's error is returned unchanged. On success it logs "Deployment deleted".

The collaborators are modelled by `Runtime.Env`, whose answers are fixed when it
is built. `files` is the filesystem: a path maps to `Present` or to
`Unreadable(cause)`, and a path not in the map does not exist. `failures` maps
each docker or kubectl call that fails to its cause; every other call succeeds.
Every collaborator method appends the call it receives, and each of the two
loggers appends its line, to one interleaved `trace`, so the order of calls and
log lines relative to each other is part of what is proved. `CallsOf` and
`LogsOf` project a trace onto its calls and onto its log lines. Error values
are tagged (`StatusCheck`, `ManifestNotFound`, `Backend(cause)`), and log lines
are records
(`InfoLine(text)`, `ErrorLine(kind, name, error)`), not formatted strings.

Each handler is a method over an `Env` (`StopCmd.RunStop`,
`DeployDeleteCmd.RunDeleteDeployment`). Each is proved to append exactly the
trace of a pure function of its inputs and the collaborators' answers, and to
return that function's result. Those functions are
`StopCmd.StopEffect` and `DeployDeleteCmd.DeleteEffect`, and their contracts
state the handlers' promises. On the cluster path `StopEffect` is defined by an
independent, general sequencer, `StopCmd.Teardown`, over the list
`DeriveResources(name)`. The method's three inline calls are proved equal to
that fold.

Three points of the code's behaviour are easy to get wrong and are stated by
the model as the code has them:

- A dry run still probes the manifest (`cmd/deploy_delete.go:39`), and a probe
  error is fatal in dry-run too.
- A dry run still calls `KubeDelete`, with the dry-run flag
  (`cmd/deploy_delete.go:48`); simulating the delete is left to that collaborator.
- Cluster-path delete failures go to the error logger (`cmd/stop.go:57,61,65`).

## Model

| member | source | states |
|---|---|---|
| `StopCmd.DeriveResources` | cmd/stop.go:49-54 | three resources in the order ingress, service, deployment; ingress and service are named base name + "-" + kind, the deployment keeps the base name verbatim; the three names are pairwise distinct |
| `StopCmd.TeardownAttemptsAll` | cmd/stop.go:55-66 | the sequencer makes exactly one delete per resource, in order, each `kubectl delete <kind> <name>` with the same dry-run flag, whatever the cluster answers, and never returns an error |
| `StopCmd.TeardownLogsEachFailure` | cmd/stop.go:56-66 | every sequencer log line is an error line; their number equals the number of rejected deletes; each names the kind and derived name of a resource whose delete failed and carries its error; every failed delete is logged; a successful delete logs nothing |
| `StopCmd.TeardownOfThree` | cmd/stop.go:55-66 | over three resources the sequencer's trace is the three steps in order, each step being the delete followed at once by its error line when it failed |
| `StopCmd.StopEffect` | cmd/stop.go:37-69 | local path (`Buildah` false): the trace is exactly the stop message and then one docker stop with the container name and dry-run flag, no kube delete, the docker error returned unchanged and nil on success; cluster path: exactly the three derived deletes in order with the dry-run flag, each failure logged right after its own delete, nil returned always, error-line count equal to failed-delete count, each error line naming the kind and derived name of a resource whose delete failed; each path does none of the other's work |
| `StopCmd.StopAttemptsRegardlessOfFailures` | cmd/stop.go:55-66 | the calls the stop handler makes do not depend on which of them fail |
| `StopCmd.DeleteCompanions` | cmd/stop.go:46-66 | the cluster branch appends exactly the sequencer's trace for the derived resources: each delete, and right after it its error line if it failed |
| `StopCmd.RunStop` | cmd/stop.go:37-69 | the handler appends exactly `StopEffect`'s trace, calls and log lines interleaved, and returns its result |
| `StopCmd.ServiceFailureIsLoggedOnly` | cmd/stop.go:46-68 | for base name "nodejs-express-dev" with only the service delete failing: the trace is the ingress delete, the service delete, one error line naming the service, the deployment delete; the command returns nil |
| `DeployDeleteCmd.ManifestFile` | cmd/deploy_delete.go:57 | the manifest is the `--file` value when given, "app-deploy.yaml" otherwise |
| `DeployDeleteCmd.DeleteEffect` | cmd/deploy_delete.go:37-54 | the manifest is always probed first; a probe error gives StatusCheck with nothing logged or deleted, dry-run or not; a missing manifest outside dry-run gives ManifestNotFound with nothing logged or deleted; otherwise (and exactly then) the "Deleting deployment…" line and then one KubeDelete with the manifest, namespace and dry-run flag; at most one KubeDelete ever; its error is returned unchanged with nothing after it; success holds exactly when the delete succeeds, and its trace is probe, announcement, delete, "Deployment deleted" |
| `DeployDeleteCmd.RunDeleteDeployment` | cmd/deploy_delete.go:37-54 | the handler appends exactly `DeleteEffect`'s trace, calls and log lines interleaved, and returns its result |
| `DeployDeleteCmd.DryRunWithoutManifest` | cmd/deploy_delete.go:39-57 | a dry run of the default manifest with no such file probes it, logs "Deleting deployment using deployment manifest app-deploy.yaml", makes one dry-run delete, logs "Deployment deleted", and succeeds |

## Left out

- `cmd/version.go` is not part of this model: it only logs the command name and version.
- The bodies of `dockerStop`, `RunKubeDelete`, `KubeDelete`, `Exists` and `addNameFlag` are not modelled. They wrap external processes and the filesystem, so their answers are inputs (`Env.files`, `Env.failures`).
- Collaborator answers depend only on the call and its arguments. A backend whose answer to the same call changes between calls is not modelled. Each handler run makes distinct calls, so every combination of outcomes within one run can still be expressed.
- The text output of `RunKubeDelete` is not modelled; the stop handler discards it.
- The `LoggingConfig` argument passed to the collaborators is not modelled.
- The value `Exists` returns for "found" when it also reports an error is taken as false. The handler ignores it in that case.
- Cobra command construction, the help text, and flag registration other than the default manifest name are not modelled. The namespace default ("default") is set by the parent deploy command, which is not part of this model; the namespace is an input.
- The exact message formats of `errors.Errorf` and `Error.logf` are not modelled. Errors are tagged variants and error log lines are (kind, name, error) records.
- Concurrency is not modelled: every call is synchronous and runs in the order the handler makes it.
