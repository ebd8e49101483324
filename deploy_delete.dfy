/** The `deploy delete` command (cmd/deploy_delete.go): deletes the deployed
    application named by a deployment manifest, failing on any error. */
module DeployDeleteCmd {
  import opened Runtime

  /** The part of the deploy command's configuration that `delete` reads. */
  datatype DeployConfig = DeployConfig(dryrun: bool, namespace: string)

  /** The manifest used when `--file` is not given. */
  const DefaultManifest := "app-deploy.yaml"

  const DeletedMessage := "Deployment deleted"

  function DeletingMessage(file: string): string
  {
    "Deleting deployment using deployment manifest " + file
  }

  /** The value of the `--file` flag: what the user gave, else the default manifest. */
  function ManifestFile(flag: Option<string>): (file: string)
    ensures flag.Some? ==> file == flag.value
    ensures flag.None? ==> file == "app-deploy.yaml"
  {
    match flag
    case Some(f) => f
    case None => DefaultManifest
  }

  /** What one run of the `deploy delete` handler does, given the filesystem and
      the backend's answers. */
  function DeleteEffect(cfg: DeployConfig, file: string, files: map<string, FileStatus>,
                        failures: map<Call, string>): (e: Effect)
    // the manifest is always probed first, dry-run or not
    ensures |e.trace| >= 1 && e.trace[0] == Did(Exists(file))
    // a failing probe is fatal even in dry-run, and nothing is logged or deleted
    ensures file in files && files[file].Unreadable? ==>
      e == Effect([Did(Exists(file))], Some(StatusCheck(file)))
    // a missing manifest is fatal unless in dry-run
    ensures file !in files && !cfg.dryrun ==>
      e == Effect([Did(Exists(file))], Some(ManifestNotFound(file)))
    // otherwise, and only then: the announcement, then exactly one delete, with the
    // manifest, the namespace and the dry-run flag
    ensures |e.trace| > 1 <==> (file in files ==> files[file].Present?) && (cfg.dryrun || file in files)
    ensures |e.trace| > 1 ==> (|e.trace| >= 3 &&
      e.trace[..3] == [Did(Exists(file)), Logged(InfoLine(DeletingMessage(file))),
                       Did(KubeDelete(file, cfg.namespace, cfg.dryrun))])
    ensures CallsOf(e.trace) == [Exists(file)] || CallsOf(e.trace) == [Exists(file), KubeDelete(file, cfg.namespace, cfg.dryrun)]
    // the delete's error is handed back unchanged, and nothing follows the delete
    ensures |e.trace| > 1 && KubeDelete(file, cfg.namespace, cfg.dryrun) in failures ==>
      e == Effect(e.trace[..3], Some(Backend(failures[KubeDelete(file, cfg.namespace, cfg.dryrun)])))
    // success: exactly the two info lines, bracketing the delete
    ensures e.result.None? <==> |e.trace| > 1 && KubeDelete(file, cfg.namespace, cfg.dryrun) !in failures
    ensures e.result.None? ==> (e.trace ==
      [Did(Exists(file)), Logged(InfoLine(DeletingMessage(file))),
       Did(KubeDelete(file, cfg.namespace, cfg.dryrun)), Logged(InfoLine(DeletedMessage))])
    ensures InfoLine(DeletedMessage) in LogsOf(e.trace) <==> e.result.None?
  {
    var probe := ProbeOf(files, file);
    var probed := [Did(Exists(file))];
    ProjectionsOfEvent(probed[0]);
    if probe.err.Some? then
      Effect(probed, Some(StatusCheck(file)))
    else if !cfg.dryrun && !probe.found then
      Effect(probed, Some(ManifestNotFound(file)))
    else
      var delete := KubeDelete(file, cfg.namespace, cfg.dryrun);
      var err := ReplyTo(failures, delete);
      var announced := probed + [Logged(InfoLine(DeletingMessage(file))), Did(delete)];
      var closing := if err.None? then [Logged(InfoLine(DeletedMessage))] else [];
      assert DeletingMessage(file) != DeletedMessage by {
        assert |DeletingMessage(file)| > |DeletedMessage|;
      }
      TraceProjections(file, delete, closing);
      Effect(announced + closing, err)
  }

  /** The calls and log lines of a run that gets past the guards. */
  lemma TraceProjections(file: string, delete: Call, closing: seq<Event>)
    requires closing == [] || closing == [Logged(InfoLine(DeletedMessage))]
    ensures var t := [Did(Exists(file)), Logged(InfoLine(DeletingMessage(file))), Did(delete)] + closing;
      CallsOf(t) == [Exists(file), delete] &&
      LogsOf(t) == [InfoLine(DeletingMessage(file))] + (if closing == [] then [] else [InfoLine(DeletedMessage)])
  {
    var a, b, c := Did(Exists(file)), Logged(InfoLine(DeletingMessage(file))), Did(delete);
    ProjectionsOfEvent(a);
    ProjectionsOfEvent(b);
    ProjectionsOfEvent(c);
    ProjectionsOfJoin([a], [b]);
    ProjectionsOfJoin([a, b], [c]);
    ProjectionsOfJoin([a, b, c], closing);
    if closing != [] {
      ProjectionsOfEvent(closing[0]);
    }
    assert [a] + [b] == [a, b] && [a, b] + [c] == [a, b, c];
  }

  /** The `RunE` closure of `newDeleteDeploymentCmd`. */
  method RunDeleteDeployment(env: Env, config: DeployConfig, deployConfigFile: string) returns (err: Option<Error>)
    modifies env
    ensures var e := DeleteEffect(config, deployConfigFile, env.files, env.failures);
      env.trace == old(env.trace) + e.trace && err == e.result
  {
    var found, probeErr := env.Exists(deployConfigFile);
    if probeErr.Some? {
      return Some(StatusCheck(deployConfigFile));
    }
    if !config.dryrun && !found {
      return Some(ManifestNotFound(deployConfigFile));
    }
    env.LogInfo(DeletingMessage(deployConfigFile));
    err := env.KubeDelete(deployConfigFile, config.namespace, config.dryrun);
    if err.Some? {
      return err;
    }
    env.LogInfo(DeletedMessage);
    return None;
  }

  /** A dry run of the default manifest in a project that never generated one
      still reaches the delete and logs both lines around it. */
  lemma DryRunWithoutManifest(namespace: string)
    ensures DeleteEffect(DeployConfig(true, namespace), ManifestFile(None), map[], map[]) ==
      Effect([Did(Exists("app-deploy.yaml")),
              Logged(InfoLine("Deleting deployment using deployment manifest app-deploy.yaml")),
              Did(KubeDelete("app-deploy.yaml", namespace, true)),
              Logged(InfoLine("Deployment deleted"))],
             None)
  {
    assert DeletingMessage("app-deploy.yaml") == "Deleting deployment using deployment manifest app-deploy.yaml";
  }
}
