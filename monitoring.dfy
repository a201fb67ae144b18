/**
 * Workload monitoring commands: classifying a deployment record as ready,
 * partially ready or not ready, the workload-status dispatch, and the
 * `port-forward` command with its `LOCAL[:REMOTE]` port specification.
 *
 * Deployment records are the mappings the Kubernetes client builds; Python's
 * exceptions (`AttributeError` on a non-mapping section, `TypeError` when a
 * non-number is compared with 0) are the `None` results, which the status
 * command turns into an "Error" report.
 */
module Monitoring {
  import opened Wrappers
  import opened PyStr
  import opened Yaml

  const EmptyDict: Value := Dict(map[])

  /** Python's numeric view of a value: integers, and booleans as 0 and 1. */
  function Number(v: Value): (r: Option<int>)
    ensures r.Some? <==> v.Int? || v.Bool?
  {
    match v
    case Int(i) => Some(i)
    case Bool(b) => Some(if b then 1 else 0)
    case _ => None
  }

  /** Python's `a == b` on decoded values: a boolean equals the integer 0 or 1. */
  predicate PyEq(a: Value, b: Value)
  {
    if Number(a).Some? && Number(b).Some? then Number(a) == Number(b) else a == b
  }

  datatype Replicas = Replicas(ready: Value, total: Value, target: Value, unavailable: Value)

  /** The dictionary `get_workload_status` returns, one alternative per shape. */
  datatype StatusReport =
    | Report(name: Value, namespace: Value, status: string, replicas: Replicas,
             labels: Value, creationTimestamp: Value)
    | NotFound(error: string)
    | Unknown(workloadType: string)
    | Error

  /** The report's `"status"` entry. */
  function StatusText(r: StatusReport): string
  {
    match r
    case Report(_, _, status, _, _, _) => status
    case NotFound(_) => "Not Found"
    case Unknown(_) => "Unknown"
    case Error => "Error"
  }

  // ---------------------------------------------------------------------
  // _format_deployment_status
  // ---------------------------------------------------------------------

  /** `deployment.get(key, {})`. */
  function SectionOf(deployment: Value, key: string): Value
    requires deployment.Dict?
  {
    Get(deployment.fields, key, EmptyDict)
  }

  /** `section.get(key, 0)` for a replica counter. */
  function CounterOf(section: Value, key: string): Value
    requires section.Dict?
  {
    Get(section.fields, key, Int(0))
  }

  /** The record and its `metadata`, `spec` and `status` sections are mappings. */
  predicate Sections(deployment: Value)
  {
    deployment.Dict?
    && SectionOf(deployment, "metadata").Dict?
    && SectionOf(deployment, "spec").Dict?
    && SectionOf(deployment, "status").Dict?
  }

  function ReadyCount(deployment: Value): Value
    requires Sections(deployment)
  {
    CounterOf(SectionOf(deployment, "status"), "readyReplicas")
  }

  function TotalCount(deployment: Value): Value
    requires Sections(deployment)
  {
    CounterOf(SectionOf(deployment, "status"), "replicas")
  }

  function TargetCount(deployment: Value): Value
    requires Sections(deployment)
  {
    CounterOf(SectionOf(deployment, "spec"), "replicas")
  }

  function UnavailableCount(deployment: Value): Value
    requires Sections(deployment)
  {
    CounterOf(SectionOf(deployment, "status"), "unavailableReplicas")
  }

  /** Every wanted replica is ready and none is unavailable. */
  predicate AllReady(deployment: Value)
    requires Sections(deployment)
  {
    PyEq(ReadyCount(deployment), TargetCount(deployment))
    && PyEq(UnavailableCount(deployment), Int(0))
  }

  /**
   * The overall status from the ready, target and unavailable counters; `None`
   * when the ready counter is not a number and has to be compared with 0.
   */
  function Overall(ready: Value, target: Value, unavailable: Value): (r: Option<string>)
    ensures r.None? <==> !(PyEq(ready, target) && PyEq(unavailable, Int(0))) && Number(ready).None?
    ensures r.Some? ==> r.value in {"Ready", "Partially Ready", "Not Ready"}
  {
    if PyEq(ready, target) && PyEq(unavailable, Int(0)) then Some("Ready")
    else match Number(ready)
      case None => None
      case Some(n) => Some(if n > 0 then "Partially Ready" else "Not Ready")
  }

  /** `WorkloadMonitor._format_deployment_status`; `None` where Python raises. */
  function FormatDeploymentStatus(deployment: Value): (r: Option<StatusReport>)
    ensures r.Some? <==> Sections(deployment) && (AllReady(deployment) || Number(ReadyCount(deployment)).Some?)
    ensures r.Some? ==> r.value.Report?
    ensures r.Some? ==> (r.value.status == "Ready" <==> AllReady(deployment))
    ensures r.Some? ==> (r.value.status == "Partially Ready" <==>
                           !AllReady(deployment) && Number(ReadyCount(deployment)).value > 0)
    ensures r.Some? ==> (r.value.status == "Not Ready" <==>
                           !AllReady(deployment) && Number(ReadyCount(deployment)).value <= 0)
    ensures r.Some? ==> r.value.replicas == Replicas(ReadyCount(deployment), TotalCount(deployment),
                                                    TargetCount(deployment), UnavailableCount(deployment))
  {
    if !deployment.Dict? then None
    else
      var metadata := SectionOf(deployment, "metadata");
      var spec := SectionOf(deployment, "spec");
      var status := SectionOf(deployment, "status");
      if !status.Dict? || !spec.Dict? then None
      else
        var ready := CounterOf(status, "readyReplicas");
        var total := CounterOf(status, "replicas");
        var target := CounterOf(spec, "replicas");
        var unavailable := CounterOf(status, "unavailableReplicas");
        match Overall(ready, target, unavailable)
        case None => None
        case Some(overall) =>
          if !metadata.Dict? then None
          else
            Some(Report(Get(metadata.fields, "name", Null), Get(metadata.fields, "namespace", Null), overall,
                        Replicas(ready, total, target, unavailable),
                        Get(metadata.fields, "labels", EmptyDict), Get(metadata.fields, "creationTimestamp", Null)))
  }

  /** Missing counters count as 0, so a record with no sections at all is "Ready". */
  lemma EmptyRecordReady()
    ensures FormatDeploymentStatus(EmptyDict)
         == Some(Report(Null, Null, "Ready", Replicas(Int(0), Int(0), Int(0), Int(0)), EmptyDict, Null))
  {
    assert Sections(EmptyDict) && AllReady(EmptyDict);
  }

  /** The mapping the Kubernetes client builds from a deployment object. */
  function ClientDeployment(apiVersion: Value, kind: Value, name: Value, namespace: Value, labels: Value,
                            created: Value, specReplicas: Option<int>, selector: Value,
                            ready: nat, total: nat, unavailable: nat): (d: Value)
    ensures Sections(d) && Truthy(d)
  {
    var d := Dict(map[
      "apiVersion" := apiVersion,
      "kind" := kind,
      "metadata" := Dict(map["name" := name, "namespace" := namespace, "labels" := labels,
                             "creationTimestamp" := created]),
      "spec" := Dict(map["replicas" := (match specReplicas case Some(n) => Int(n) case None => Null),
                         "selector" := selector]),
      "status" := Dict(map["readyReplicas" := Int(ready), "replicas" := Int(total),
                           "unavailableReplicas" := Int(unavailable)])]);
    assert "apiVersion" in d.fields;
    d
  }

  /** Reference classification on plain integers; an unset target never matches. */
  function Classification(ready: nat, target: Option<int>, unavailable: nat): string
  {
    if target == Some(ready) && unavailable == 0 then "Ready"
    else if ready > 0 then "Partially Ready"
    else "Not Ready"
  }

  /**
   * On a record the client builds, formatting never raises, classifies as the
   * integer reference does, and copies the metadata and counters through.
   */
  lemma ClientDeploymentStatus(apiVersion: Value, kind: Value, name: Value, namespace: Value, labels: Value,
                               created: Value, specReplicas: Option<int>, selector: Value,
                               ready: nat, total: nat, unavailable: nat)
    ensures var d := ClientDeployment(apiVersion, kind, name, namespace, labels, created, specReplicas,
                                      selector, ready, total, unavailable);
            FormatDeploymentStatus(d)
            == Some(Report(name, namespace, Classification(ready, specReplicas, unavailable),
                           Replicas(Int(ready), Int(total),
                                    (match specReplicas case Some(n) => Int(n) case None => Null),
                                    Int(unavailable)),
                           labels, created))
  {
    var d := ClientDeployment(apiVersion, kind, name, namespace, labels, created, specReplicas,
                              selector, ready, total, unavailable);
    assert ReadyCount(d) == Int(ready) && UnavailableCount(d) == Int(unavailable);
    assert AllReady(d) <==> specReplicas == Some(ready) && unavailable == 0;
  }

  // ---------------------------------------------------------------------
  // get_workload_status
  // ---------------------------------------------------------------------

  /** What the client's deployment lookup produced: the record (Null on 404), or an API failure. */
  datatype Lookup = Fetched(record: Value) | LookupFailed

  /** `WorkloadMonitor.get_workload_status`; the exception text of an "Error" report is not modelled. */
  function WorkloadStatus(name: string, workloadType: string, lookup: Lookup): (r: StatusReport)
    ensures r.Unknown? <==> workloadType != "deployment"
    ensures r.Unknown? ==> r.workloadType == workloadType
    ensures r.NotFound? <==> workloadType == "deployment" && lookup.Fetched? && !Truthy(lookup.record)
    ensures r.NotFound? ==> r.error == "Deployment " + name + " not found"
    ensures r.Report? <==> workloadType == "deployment" && lookup.Fetched? && Truthy(lookup.record)
                           && FormatDeploymentStatus(lookup.record).Some?
    ensures r.Report? ==> Some(r) == FormatDeploymentStatus(lookup.record)
  {
    if workloadType == "deployment" then
      match lookup
      case LookupFailed => Error
      case Fetched(record) =>
        if !Truthy(record) then NotFound("Deployment " + name + " not found")
        else match FormatDeploymentStatus(record)
          case None => Error
          case Some(report) => report
    else
      Unknown(workloadType)
  }

  /** The status reported for a deployment record the client built. */
  lemma ClientDeploymentReported(name: string, apiVersion: Value, kind: Value, recordName: Value,
                                 namespace: Value, labels: Value, created: Value, specReplicas: Option<int>,
                                 selector: Value, ready: nat, total: nat, unavailable: nat)
    ensures var d := ClientDeployment(apiVersion, kind, recordName, namespace, labels, created, specReplicas,
                                      selector, ready, total, unavailable);
            StatusText(WorkloadStatus(name, "deployment", Fetched(d)))
            == Classification(ready, specReplicas, unavailable)
  {
    ClientDeploymentStatus(apiVersion, kind, recordName, namespace, labels, created, specReplicas,
                           selector, ready, total, unavailable);
  }

  // ---------------------------------------------------------------------
  // port-forward
  // ---------------------------------------------------------------------

  /** `namespace or client.namespace`: an absent or empty namespace falls back to the client's. */
  function EffectiveNamespace(namespace: Option<string>, clientNamespace: string): (ns: string)
    ensures namespace.Some? && namespace.value != "" ==> ns == namespace.value
    ensures namespace.None? || namespace.value == "" ==> ns == clientNamespace
  {
    if namespace.Some? && namespace.value != "" then namespace.value else clientNamespace
  }

  /** The `kubectl port-forward` argument list of `WorkloadMonitor.port_forward`. */
  function PortForwardCommand(service: string, localPort: int, remotePort: int,
                              namespace: Option<string>, clientNamespace: string): seq<string>
  {
    ["kubectl", "port-forward", "service/" + service, FormatInt(localPort) + ":" + FormatInt(remotePort),
     "-n", EffectiveNamespace(namespace, clientNamespace)]
  }

  /** `args.port` as `LOCAL:REMOTE` (split at the first ':') or a single `PORT` used for both. */
  function ParsePortSpec(spec: string): (r: Option<(int, int)>)
    ensures ':' !in spec ==> (r.Some? <==> ParseInt(spec).Some?)
    ensures ':' !in spec && r.Some? ==> r.value.0 == r.value.1 && ParseInt(spec) == Some(r.value.0)
    ensures ':' in spec ==> (r.Some? <==> exists local, remote :: spec == local + ":" + remote && ':' !in local
                                           && ParseInt(local).Some? && ParseInt(remote).Some?)
    ensures ':' in spec && r.Some? ==>
      exists local, remote :: && spec == local + ":" + remote && ':' !in local
                              && ParseInt(local).Some? && ParseInt(remote).Some?
                              && r.value == (ParseInt(local).value, ParseInt(remote).value)
  {
    match SplitOnce(spec, ':')
    case None =>
      (match ParseInt(spec)
       case None => None
       case Some(port) => Some((port, port)))
    case Some((local, remote)) =>
      assert spec == local + ":" + remote;
      if ParseInt(local).None? || ParseInt(remote).None? then
        SplitOnceUnique(spec, local, remote);
        None
      else Some((ParseInt(local).value, ParseInt(remote).value))
  }

  /** A spec that splits at a ':' absent from its head splits only there. */
  lemma SplitOnceUnique(spec: string, local: string, remote: string)
    requires SplitOnce(spec, ':') == Some((local, remote))
    ensures forall l, r :: spec == l + ":" + r && ':' !in l ==> l == local && r == remote
  {
    forall l, r | spec == l + ":" + r && ':' !in l
      ensures l == local && r == remote
    {
      SplitOnceJoin(l, ':', r);
    }
  }

  /** A decimal integer contains no ':'. */
  lemma NoColonInFormatInt(n: int)
    ensures ':' !in FormatInt(n)
  {
    var s := FormatInt(n);
    var digits := NatDigits(if n < 0 then -n else n);
    assert AllDigits(digits);
    assert s == (if n < 0 then "-" else "") + digits;
  }

  /** The port argument of the command parses back to the two ports. */
  lemma PortArgumentRoundTrip(localPort: int, remotePort: int)
    ensures ParsePortSpec(FormatInt(localPort) + ":" + FormatInt(remotePort)) == Some((localPort, remotePort))
  {
    NoColonInFormatInt(localPort);
    SplitOnceJoin(FormatInt(localPort), ':', FormatInt(remotePort));
    ParseFormat(localPort);
    ParseFormat(remotePort);
  }

  /** A single port forwards that port to itself. */
  lemma SinglePortRoundTrip(port: int)
    ensures ParsePortSpec(FormatInt(port)) == Some((port, port))
  {
    NoColonInFormatInt(port);
    ParseFormat(port);
  }

  /**
   * `handle_port_forward`: the command it runs, if the port spec parses, and its
   * exit code. `kubectlExit` is the return code of the `kubectl` process, or
   * `None` when it could not be started.
   */
  function HandlePortForward(portSpec: string, service: string, namespace: Option<string>,
                             clientNamespace: string, kubectlExit: Option<int>): (r: (int, Option<seq<string>>))
    ensures r.1.Some? <==> ParsePortSpec(portSpec).Some?
    ensures r.1.Some? ==> r.1.value == PortForwardCommand(service, ParsePortSpec(portSpec).value.0,
                                                           ParsePortSpec(portSpec).value.1, namespace, clientNamespace)
    ensures r.0 == 0 <==> r.1.Some? && kubectlExit == Some(0)
    ensures r.0 in {0, 1}
  {
    match ParsePortSpec(portSpec)
    case None => (1, None)
    case Some((localPort, remotePort)) =>
      (if kubectlExit == Some(0) then 0 else 1,
       Some(PortForwardCommand(service, localPort, remotePort, namespace, clientNamespace)))
  }

  /**
   * `port-forward --port L:R` runs the kubectl command for ports L and R,
   * exits 0 exactly when kubectl does, and the command's port argument
   * parses back to the same two ports.
   */
  lemma PortForwardCommandShape(service: string, localPort: int, remotePort: int,
                                namespace: Option<string>, clientNamespace: string, kubectlExit: Option<int>)
    ensures var r := HandlePortForward(FormatInt(localPort) + ":" + FormatInt(remotePort), service,
                                       namespace, clientNamespace, kubectlExit);
            && r.1 == Some(PortForwardCommand(service, localPort, remotePort, namespace, clientNamespace))
            && (r.0 == 0 <==> kubectlExit == Some(0))
    ensures ParsePortSpec(PortForwardCommand(service, localPort, remotePort, namespace, clientNamespace)[3])
            == Some((localPort, remotePort))
  {
    PortArgumentRoundTrip(localPort, remotePort);
  }
}
