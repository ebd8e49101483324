/** The collaborators of the two teardown handlers of the `cmd` package.

    The handlers call out to a filesystem probe (`Exists`), to the local
    container runtime (`dockerStop`), to kubectl (`RunKubeDelete`,
    `KubeDelete`) and to two loggers. None of their bodies is modelled: an
    `Env` holds the answers they give, fixed in advance, and records every
    call and every log line, interleaved in one trace, in the order the
    handler makes them. */
module Runtime {

  datatype Option<+T> = None | Some(value: T)

  /** The errors a handler hands back to its caller (Go's `error`, nil being `None`). */
  datatype Error =
    | StatusCheck(file: string)        // the manifest's status could not be checked
    | ManifestNotFound(file: string)   // the manifest does not exist
    | Backend(cause: string)           // reported by docker or kubectl, passed through as is

  /** What the filesystem holds at a path; a path that is not in the map does not exist. */
  datatype FileStatus = Present | Unreadable(cause: string)

  /** One call into a collaborator, with the arguments the handler passed. */
  datatype Call =
    | Exists(path: string)
    | DockerStop(container: string, dryRun: bool)
    | RunKubeDelete(args: seq<string>, dryRun: bool)
    | KubeDelete(manifest: string, namespace: string, dryRun: bool)

  /** One log line: an info message, or an error naming a resource's kind and name. */
  datatype LogEntry =
    | InfoLine(text: string)
    | ErrorLine(kind: string, name: string, err: Error)

  /** One observable step of a handler: a collaborator call or a log line. */
  datatype Event = Did(call: Call) | Logged(entry: LogEntry)

  /** What one handler run does: its calls and log lines in the order they happen, and
      what it returns. */
  datatype Effect = Effect(trace: seq<Event>, result: Option<Error>)

  /** The calls of a trace, in order. */
  function CallsOf(trace: seq<Event>): seq<Call>
  {
    if trace == [] then []
    else (if trace[0].Did? then [trace[0].call] else []) + CallsOf(trace[1..])
  }

  /** The log lines of a trace, in order. */
  function LogsOf(trace: seq<Event>): seq<LogEntry>
  {
    if trace == [] then []
    else (if trace[0].Logged? then [trace[0].entry] else []) + LogsOf(trace[1..])
  }

  /** Projecting a trace onto its calls, or onto its log lines, commutes with
      joining two traces. */
  lemma ProjectionsOfJoin(a: seq<Event>, b: seq<Event>)
    ensures CallsOf(a + b) == CallsOf(a) + CallsOf(b)
    ensures LogsOf(a + b) == LogsOf(a) + LogsOf(b)
  {
    CallsOfJoin(a, b);
    LogsOfJoin(a, b);
  }

  lemma {:induction false} CallsOfJoin(a: seq<Event>, b: seq<Event>)
    ensures CallsOf(a + b) == CallsOf(a) + CallsOf(b)
  {
    if a == [] {
      assert a + b == b;
    } else {
      CallsOfJoin(a[1..], b);
      var head := if a[0].Did? then [a[0].call] else [];
      assert (a + b)[0] == a[0] && (a + b)[1..] == a[1..] + b;
      calc {
        CallsOf(a + b);
        head + CallsOf(a[1..] + b);
        head + (CallsOf(a[1..]) + CallsOf(b));
        (head + CallsOf(a[1..])) + CallsOf(b);
      }
    }
  }

  lemma {:induction false} LogsOfJoin(a: seq<Event>, b: seq<Event>)
    ensures LogsOf(a + b) == LogsOf(a) + LogsOf(b)
  {
    if a == [] {
      assert a + b == b;
    } else {
      LogsOfJoin(a[1..], b);
      var head := if a[0].Logged? then [a[0].entry] else [];
      assert (a + b)[0] == a[0] && (a + b)[1..] == a[1..] + b;
      calc {
        LogsOf(a + b);
        head + LogsOf(a[1..] + b);
        head + (LogsOf(a[1..]) + LogsOf(b));
        (head + LogsOf(a[1..])) + LogsOf(b);
      }
    }
  }

  /** The projections of a one-event trace. */
  lemma ProjectionsOfEvent(ev: Event)
    ensures CallsOf([ev]) == if ev.Did? then [ev.call] else []
    ensures LogsOf([ev]) == if ev.Logged? then [ev.entry] else []
  {
    assert [ev][1..] == [];
  }

  /** The two results of `Exists`. */
  datatype Probe = Probe(found: bool, err: Option<string>)

  /** The answer of `Exists(path)` on the filesystem `files`. */
  function ProbeOf(files: map<string, FileStatus>, path: string): Probe
  {
    if path !in files then Probe(false, None)
    else match files[path]
      case Present => Probe(true, None)
      case Unreadable(cause) => Probe(false, Some(cause))
  }

  /** The answer of a docker or kubectl call: a call listed in `failures` fails with its cause. */
  function ReplyTo(failures: map<Call, string>, c: Call): Option<Error>
  {
    if c in failures then Some(Backend(failures[c])) else None
  }

  /** The number of error lines in a log. */
  function ErrorCount(logs: seq<LogEntry>): nat
  {
    if logs == [] then 0
    else (if logs[0].ErrorLine? then 1 else 0) + ErrorCount(logs[1..])
  }

  /** The number of calls in a trace that the backend rejects. */
  function FailedCount(calls: seq<Call>, failures: map<Call, string>): nat
  {
    if calls == [] then 0
    else (if calls[0] in failures then 1 else 0) + FailedCount(calls[1..], failures)
  }

  /** The collaborators with their answers fixed, and the trace of one or more handler runs. */
  class Env {
    const files: map<string, FileStatus>
    const failures: map<Call, string>
    var trace: seq<Event>

    constructor (files: map<string, FileStatus>, failures: map<Call, string>)
      ensures this.files == files && this.failures == failures
      ensures trace == []
    {
      this.files := files;
      this.failures := failures;
      trace := [];
    }

    /** Probes the filesystem for `path`. */
    method Exists(path: string) returns (found: bool, err: Option<string>)
      modifies this
      ensures trace == old(trace) + [Did(Call.Exists(path))]
      ensures Probe(found, err) == ProbeOf(files, path)
    {
      var p := ProbeOf(files, path);
      found, err := p.found, p.err;
      trace := trace + [Did(Call.Exists(path))];
    }

    /** Stops the local container `container`. */
    method DockerStop(container: string, dryRun: bool) returns (err: Option<Error>)
      modifies this
      ensures trace == old(trace) + [Did(Call.DockerStop(container, dryRun))]
      ensures err == ReplyTo(failures, Call.DockerStop(container, dryRun))
    {
      err := ReplyTo(failures, Call.DockerStop(container, dryRun));
      trace := trace + [Did(Call.DockerStop(container, dryRun))];
    }

    /** Runs `kubectl delete` with `args`; the command output is not modelled, the handler drops it. */
    method RunKubeDelete(args: seq<string>, dryRun: bool) returns (err: Option<Error>)
      modifies this
      ensures trace == old(trace) + [Did(Call.RunKubeDelete(args, dryRun))]
      ensures err == ReplyTo(failures, Call.RunKubeDelete(args, dryRun))
    {
      err := ReplyTo(failures, Call.RunKubeDelete(args, dryRun));
      trace := trace + [Did(Call.RunKubeDelete(args, dryRun))];
    }

    /** Deletes what the manifest `manifest` describes from `namespace`. */
    method KubeDelete(manifest: string, namespace: string, dryRun: bool) returns (err: Option<Error>)
      modifies this
      ensures trace == old(trace) + [Did(Call.KubeDelete(manifest, namespace, dryRun))]
      ensures err == ReplyTo(failures, Call.KubeDelete(manifest, namespace, dryRun))
    {
      err := ReplyTo(failures, Call.KubeDelete(manifest, namespace, dryRun));
      trace := trace + [Did(Call.KubeDelete(manifest, namespace, dryRun))];
    }

    /** `Info.log`. */
    method LogInfo(text: string)
      modifies this
      ensures trace == old(trace) + [Logged(InfoLine(text))]
    {
      trace := trace + [Logged(InfoLine(text))];
    }

    /** `Error.logf` of a failed deletion of the resource `name` of kind `kind`. */
    method LogError(kind: string, name: string, err: Error)
      modifies this
      ensures trace == old(trace) + [Logged(ErrorLine(kind, name, err))]
    {
      trace := trace + [Logged(ErrorLine(kind, name, err))];
    }
  }
}
