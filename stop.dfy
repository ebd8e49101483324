/** The `stop` command (cmd/stop.go): tears down a development environment,
    either by stopping the local container or, on the cluster backend, by
    deleting the ingress, service and deployment derived from one name,
    best effort. */
module StopCmd {
  import opened Runtime

  /** The part of the root command's configuration that `stop` reads. */
  datatype RootConfig = RootConfig(buildah: bool, dryrun: bool)

  /** A cluster object to delete, named by kind and name. */
  datatype ResourceRef = ResourceRef(kind: string, name: string) {
    /** The arguments given to `kubectl delete`. */
    function Args(): seq<string> { [kind, name] }
  }

  const StoppingMessage := "Stopping development environment"

  /** The companion resources of a base name, in the order they are deleted:
      ingress and service carry the kind as suffix, the deployment keeps the base name. */
  function DeriveResources(name: string): (refs: seq<ResourceRef>)
    ensures |refs| == 3
    ensures refs[0].kind == "ingress" && refs[1].kind == "service" && refs[2].kind == "deployment"
    ensures refs[0].name == name + "-" + refs[0].kind && refs[1].name == name + "-" + refs[1].kind
    ensures refs[2].name == name
    ensures forall i, j :: 0 <= i < j < |refs| ==> refs[i].name != refs[j].name
  {
    var ingress := name + "-ingress";
    var service := name + "-service";
    assert ingress[|name| + 1] == 'i' && service[|name| + 1] == 's';
    assert |ingress| != |name| && |service| != |name|;
    [ResourceRef("ingress", ingress), ResourceRef("service", service), ResourceRef("deployment", name)]
  }

  /** The kubectl call that deletes `r`. */
  function DeleteCall(r: ResourceRef, dryRun: bool): Call
  {
    RunKubeDelete(r.Args(), dryRun)
  }

  /** The error line a failed delete of `r` leaves, if it fails. */
  function FailureLog(r: ResourceRef, dryRun: bool, failures: map<Call, string>): seq<LogEntry>
  {
    match ReplyTo(failures, DeleteCall(r, dryRun))
    case None => []
    case Some(e) => [ErrorLine(r.kind, r.name, e)]
  }

  /** One step of the sequencer: the delete of `r`, then its error line if it failed. */
  function Step(r: ResourceRef, dryRun: bool, failures: map<Call, string>): seq<Event>
  {
    [Did(DeleteCall(r, dryRun))] +
      match ReplyTo(failures, DeleteCall(r, dryRun))
      case None => []
      case Some(e) => [Logged(ErrorLine(r.kind, r.name, e))]
  }

  /** The best-effort sequencer: one step per resource, in order; a failure is
      logged against its resource and the next resource is still attempted. */
  function Teardown(refs: seq<ResourceRef>, dryRun: bool, failures: map<Call, string>): Effect
    decreases |refs|
  {
    if refs == [] then Effect([], None)
    else Effect(Step(refs[0], dryRun, failures) + Teardown(refs[1..], dryRun, failures).trace, None)
  }

  /** A step makes exactly the one delete and logs exactly its failure line. */
  lemma StepProjections(r: ResourceRef, dryRun: bool, failures: map<Call, string>)
    ensures CallsOf(Step(r, dryRun, failures)) == [DeleteCall(r, dryRun)]
    ensures LogsOf(Step(r, dryRun, failures)) == FailureLog(r, dryRun, failures)
  {
    var c := DeleteCall(r, dryRun);
    ProjectionsOfEvent(Did(c));
    if c in failures {
      var l := Logged(ErrorLine(r.kind, r.name, Backend(failures[c])));
      ProjectionsOfEvent(l);
      ProjectionsOfJoin([Did(c)], [l]);
    } else {
      assert Step(r, dryRun, failures) == [Did(c)];
    }
  }

  /** The sequencer over three resources, unrolled: each failure line follows its own
      delete and precedes the next one. */
  lemma TeardownOfThree(a: ResourceRef, b: ResourceRef, c: ResourceRef, dryRun: bool, failures: map<Call, string>)
    ensures Teardown([a, b, c], dryRun, failures) ==
      Effect(Step(a, dryRun, failures) + Step(b, dryRun, failures) + Step(c, dryRun, failures), None)
  {
    assert [a, b, c][1..] == [b, c];
    assert [b, c][1..] == [c];
    assert [c][1..] == [];
    assert Teardown([c], dryRun, failures).trace == Step(c, dryRun, failures);
    assert Teardown([b, c], dryRun, failures).trace == Step(b, dryRun, failures) + Step(c, dryRun, failures);
  }

  /** Every resource is attempted, in order, with the same dry-run flag, whatever
      the cluster answers; the sequencer itself never fails. */
  lemma {:induction false} TeardownAttemptsAll(refs: seq<ResourceRef>, dryRun: bool, failures: map<Call, string>)
    ensures |CallsOf(Teardown(refs, dryRun, failures).trace)| == |refs|
    ensures forall i :: 0 <= i < |refs| ==> CallsOf(Teardown(refs, dryRun, failures).trace)[i] == DeleteCall(refs[i], dryRun)
    ensures Teardown(refs, dryRun, failures).result == None
  {
    if refs != [] {
      TeardownAttemptsAll(refs[1..], dryRun, failures);
      var rest := Teardown(refs[1..], dryRun, failures).trace;
      ProjectionsOfJoin(Step(refs[0], dryRun, failures), rest);
      StepProjections(refs[0], dryRun, failures);
      var calls := CallsOf(Teardown(refs, dryRun, failures).trace);
      assert calls == [DeleteCall(refs[0], dryRun)] + CallsOf(rest);
      forall i | 0 <= i < |refs| ensures calls[i] == DeleteCall(refs[i], dryRun) {
        if i > 0 {
          assert refs[1..][i - 1] == refs[i];
        }
      }
    }
  }

  /** Every log line of the sequencer is an error line; there is one per rejected
      delete, it names the resource whose delete failed and carries the backend's error,
      and a delete that succeeds logs nothing. */
  lemma {:induction false} TeardownLogsEachFailure(refs: seq<ResourceRef>, dryRun: bool, failures: map<Call, string>)
    ensures var t := Teardown(refs, dryRun, failures).trace;
      ErrorCount(LogsOf(t)) == |LogsOf(t)| == FailedCount(CallsOf(t), failures)
    ensures forall l :: l in LogsOf(Teardown(refs, dryRun, failures).trace) ==>
      (exists i :: 0 <= i < |refs| && DeleteCall(refs[i], dryRun) in failures &&
        l == ErrorLine(refs[i].kind, refs[i].name, Backend(failures[DeleteCall(refs[i], dryRun)])))
    ensures forall i :: 0 <= i < |refs| && DeleteCall(refs[i], dryRun) in failures ==>
      ErrorLine(refs[i].kind, refs[i].name, Backend(failures[DeleteCall(refs[i], dryRun)]))
        in LogsOf(Teardown(refs, dryRun, failures).trace)
  {
    if refs != [] {
      var rest := Teardown(refs[1..], dryRun, failures).trace;
      TeardownLogsEachFailure(refs[1..], dryRun, failures);
      ProjectionsOfJoin(Step(refs[0], dryRun, failures), rest);
      StepProjections(refs[0], dryRun, failures);
      var calls := CallsOf(Teardown(refs, dryRun, failures).trace);
      var logs := LogsOf(Teardown(refs, dryRun, failures).trace);
      var c := DeleteCall(refs[0], dryRun);
      var logged := FailureLog(refs[0], dryRun, failures);
      assert calls == [c] + CallsOf(rest) && logs == logged + LogsOf(rest);
      assert calls[1..] == CallsOf(rest);
      if c in failures {
        assert logged == [ErrorLine(refs[0].kind, refs[0].name, Backend(failures[c]))];
        assert logs[0].ErrorLine? && logs[1..] == LogsOf(rest);
      } else {
        assert logs == LogsOf(rest);
      }
      forall l | l in logs
        ensures exists i :: (0 <= i < |refs| && DeleteCall(refs[i], dryRun) in failures &&
          l == ErrorLine(refs[i].kind, refs[i].name, Backend(failures[DeleteCall(refs[i], dryRun)])))
      {
        if l in logged {
          assert l == ErrorLine(refs[0].kind, refs[0].name, Backend(failures[c]));
        } else {
          assert l in LogsOf(rest);
          var k :| 0 <= k < |refs[1..]| && DeleteCall(refs[1..][k], dryRun) in failures &&
            l == ErrorLine(refs[1..][k].kind, refs[1..][k].name, Backend(failures[DeleteCall(refs[1..][k], dryRun)]));
          assert refs[1..][k] == refs[k + 1];
        }
      }
      forall i | 0 <= i < |refs| && DeleteCall(refs[i], dryRun) in failures
        ensures ErrorLine(refs[i].kind, refs[i].name, Backend(failures[DeleteCall(refs[i], dryRun)])) in logs
      {
        if i > 0 {
          assert refs[1..][i - 1] == refs[i];
        }
      }
    }
  }

  /** What one run of the `stop` handler does, given the collaborators' answers. */
  function StopEffect(cfg: RootConfig, name: string, failures: map<Call, string>): (e: Effect)
    // the local path: the stop is announced, then one docker stop, whose error is handed back unchanged
    ensures !cfg.buildah ==> e.trace == [Logged(InfoLine(StoppingMessage)), Did(DockerStop(name, cfg.dryrun))]
    ensures !cfg.buildah ==> (e.result.None? <==> DockerStop(name, cfg.dryrun) !in failures)
    ensures !cfg.buildah && DockerStop(name, cfg.dryrun) in failures ==>
      e.result == Some(Backend(failures[DockerStop(name, cfg.dryrun)]))
    // the cluster path: the three derived deletes in order, each failure logged right after
    // its own delete, never an error
    ensures cfg.buildah ==> (var refs := DeriveResources(name);
      e.trace == Step(refs[0], cfg.dryrun, failures) + Step(refs[1], cfg.dryrun, failures) + Step(refs[2], cfg.dryrun, failures))
    ensures cfg.buildah ==> (|CallsOf(e.trace)| == 3 &&
      forall k :: 0 <= k < 3 ==> CallsOf(e.trace)[k] == DeleteCall(DeriveResources(name)[k], cfg.dryrun))
    ensures cfg.buildah ==> e.result == None
    ensures cfg.buildah ==> ErrorCount(LogsOf(e.trace)) == |LogsOf(e.trace)| == FailedCount(CallsOf(e.trace), failures)
    ensures cfg.buildah ==> forall l :: l in LogsOf(e.trace) ==>
      (exists k :: 0 <= k < 3 && DeleteCall(DeriveResources(name)[k], cfg.dryrun) in failures &&
        l == ErrorLine(DeriveResources(name)[k].kind, DeriveResources(name)[k].name,
                       Backend(failures[DeleteCall(DeriveResources(name)[k], cfg.dryrun)])))
    // no path does the other path's work
    ensures (InfoLine(StoppingMessage) in LogsOf(e.trace)) <==> !cfg.buildah
    ensures (exists c :: c in CallsOf(e.trace) && c.DockerStop?) <==> !cfg.buildah
  {
    if !cfg.buildah then
      var trace := [Logged(InfoLine(StoppingMessage)), Did(DockerStop(name, cfg.dryrun))];
      ProjectionsOfEvent(trace[0]);
      ProjectionsOfEvent(trace[1]);
      ProjectionsOfJoin([trace[0]], [trace[1]]);
      assert trace == [trace[0]] + [trace[1]];
      assert CallsOf(trace)[0].DockerStop?;
      assert CallsOf(trace) == [DockerStop(name, cfg.dryrun)] && LogsOf(trace) == [InfoLine(StoppingMessage)];
      Effect(trace, ReplyTo(failures, DockerStop(name, cfg.dryrun)))
    else
      var refs := DeriveResources(name);
      assert refs == [refs[0], refs[1], refs[2]];
      TeardownOfThree(refs[0], refs[1], refs[2], cfg.dryrun, failures);
      TeardownAttemptsAll(refs, cfg.dryrun, failures);
      TeardownLogsEachFailure(refs, cfg.dryrun, failures);
      var t := Teardown(refs, cfg.dryrun, failures);
      assert forall l :: l in LogsOf(t.trace) ==> l.ErrorLine?;
      assert forall c :: c in CallsOf(t.trace) ==> c.RunKubeDelete?;
      t
  }

  /** Which deletes `stop` attempts does not depend on which of them fail. */
  lemma StopAttemptsRegardlessOfFailures(cfg: RootConfig, name: string, f1: map<Call, string>, f2: map<Call, string>)
    ensures CallsOf(StopEffect(cfg, name, f1).trace) == CallsOf(StopEffect(cfg, name, f2).trace)
  {
  }

  /** The cluster branch of `RunStop`: the three derived deletes, each failure
      logged right after its own delete and then dropped. */
  method DeleteCompanions(env: Env, containerName: string, dryRun: bool)
    modifies env
    ensures env.trace == old(env.trace) + Teardown(DeriveResources(containerName), dryRun, env.failures).trace
  {
    var serviceArgName := containerName + "-service";
    var ingressArgName := containerName + "-ingress";
    var deploymentArgName := containerName;
    var serviceArgs := ["service", serviceArgName];
    var deploymentArgs := ["deployment", deploymentArgName];
    var ingressArgs := ["ingress", ingressArgName];
    ghost var refs := DeriveResources(containerName);
    ghost var f := env.failures;
    assert DeleteCall(refs[0], dryRun) == RunKubeDelete(ingressArgs, dryRun);
    assert DeleteCall(refs[1], dryRun) == RunKubeDelete(serviceArgs, dryRun);
    assert DeleteCall(refs[2], dryRun) == RunKubeDelete(deploymentArgs, dryRun);
    ghost var trace0 := env.trace;
    var err := env.RunKubeDelete(ingressArgs, dryRun);
    if err.Some? {
      env.LogError("ingress", ingressArgName, err.value);
    }
    ghost var trace1 := env.trace;
    assert trace1 == trace0 + Step(refs[0], dryRun, f);
    err := env.RunKubeDelete(serviceArgs, dryRun);
    if err.Some? {
      env.LogError("service", serviceArgName, err.value);
    }
    ghost var trace2 := env.trace;
    assert trace2 == trace1 + Step(refs[1], dryRun, f);
    err := env.RunKubeDelete(deploymentArgs, dryRun);
    if err.Some? {
      env.LogError("deployment", deploymentArgName, err.value);
    }
    assert env.trace == trace2 + Step(refs[2], dryRun, f);
    assert env.trace == trace0 + (Step(refs[0], dryRun, f) + Step(refs[1], dryRun, f) + Step(refs[2], dryRun, f));
    assert refs == [refs[0], refs[1], refs[2]];
    TeardownOfThree(refs[0], refs[1], refs[2], dryRun, env.failures);
  }

  /** The `RunE` closure of `newStopCmd`. */
  method RunStop(env: Env, cfg: RootConfig, containerName: string) returns (err: Option<Error>)
    modifies env
    ensures var e := StopEffect(cfg, containerName, env.failures);
      env.trace == old(env.trace) + e.trace && err == e.result
  {
    if !cfg.buildah {
      env.LogInfo(StoppingMessage);
      err := env.DockerStop(containerName, cfg.dryrun);
      if err.Some? {
        return;
      }
    } else {
      DeleteCompanions(env, containerName, cfg.dryrun);
    }
    err := None;
  }

  /** A cluster teardown of "nodejs-express-dev" whose service delete fails: all three
      deletes are attempted, the one error line names the service and comes right after
      its delete, and the command succeeds. */
  lemma ServiceFailureIsLoggedOnly(dryRun: bool, cause: string)
    ensures var service := RunKubeDelete(["service", "nodejs-express-dev-service"], dryRun);
      var e := StopEffect(RootConfig(true, dryRun), "nodejs-express-dev", map[service := cause]);
      e.trace == [Did(RunKubeDelete(["ingress", "nodejs-express-dev-ingress"], dryRun)), Did(service),
                  Logged(ErrorLine("service", "nodejs-express-dev-service", Backend(cause))),
                  Did(RunKubeDelete(["deployment", "nodejs-express-dev"], dryRun))] &&
      e.result == None
  {
    var refs := DeriveResources("nodejs-express-dev");
    assert refs[0].name == "nodejs-express-dev-ingress";
    assert refs[1].name == "nodejs-express-dev-service";
  }
}
