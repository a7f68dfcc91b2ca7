/** What the two remote services answer, and how the clients read it. */
module Responses {
  import opened Wrappers
  import opened Json
  import opened StringOrder

  // ----- Hermes

  datatype PlatformState = PlatformState(name: string, state: string, errorCode: Option<string>,
      errorMessage: Option<string>)

  datatype HealthResult = HealthResult(statusOk: bool, gatewayRunning: bool, platforms: seq<PlatformState>) {
    predicate Healthy() {
      statusOk && gatewayRunning
    }
  }

  function OptStr(j: Json): Option<string> {
    if j.Str? && j.s != "" then Some(j.s) else None
  }

  function PlatformOf(name: string, info: Json): PlatformState {
    var fields := if info.Obj? then info.entries else [];
    var state := Get(fields, "state");
    PlatformState(name, if state.Str? && state.s != "" then state.s else "unknown",
      OptStr(Get(fields, "error_code")), OptStr(Get(fields, "error_message")))
  }

  function PlatformsNamed(names: seq<string>, entries: seq<(string, Json)>): seq<PlatformState> {
    seq(|names|, i requires 0 <= i < |names| => PlatformOf(names[i], Get(entries, names[i])))
  }

  /** The platforms of a status body, in the order of their names. */
  function Platforms(raw: Json): seq<PlatformState> {
    if raw.Obj? then PlatformsNamed(Sort(Keys(raw.entries)), raw.entries) else []
  }

  method ParsePlatforms(raw: Json) returns (platforms: seq<PlatformState>)
    ensures platforms == Platforms(raw)
  {
    platforms := [];
    if raw.Obj? {
      var names := Sort(Keys(raw.entries));
      for i := 0 to |names|
        invariant |platforms| == i
        invariant forall k | 0 <= k < i :: platforms[k] == PlatformOf(names[k], Get(raw.entries, names[k]))
      {
        platforms := platforms + [PlatformOf(names[i], Get(raw.entries, names[i]))];
      }
    }
  }

  /** The platforms read from a status body do not depend on the order the body lists them in. */
  lemma PlatformsIgnoreOrder(a: Json, b: Json)
    requires a.Obj? && b.Obj? && SameObject(a.entries, b.entries)
    ensures Platforms(a) == Platforms(b)
  {
    KeysMultiset(a.entries, b.entries);
    SortCanonical(Keys(a.entries), Keys(b.entries));
    ListedAlike(a.entries, b.entries, Sort(Keys(a.entries)));
  }

  lemma ListedAlike(a: seq<(string, Json)>, b: seq<(string, Json)>, names: seq<string>)
    requires SameObject(a, b) && multiset(names) == multiset(Keys(a))
    ensures PlatformsNamed(names, a) == PlatformsNamed(names, b)
  {
    forall i | 0 <= i < |names| ensures Get(a, names[i]) == Get(b, names[i]) {
      InMultiset(names[i], names);
      InMultiset(names[i], Keys(a));
      SameValue(a, b, names[i]);
    }
  }

  lemma SameValue(a: seq<(string, Json)>, b: seq<(string, Json)>, name: string)
    requires SameObject(a, b) && name in Keys(a)
    ensures Get(a, name) == Get(b, name)
  {
    var k :| 0 <= k < |a| && Keys(a)[k] == name;
  }

  // ----- Railway

  datatype DeploymentStatus =
    | INITIALIZING | QUEUED | BUILDING | DEPLOYING | WAITING | NEEDS_APPROVAL
    | SUCCESS | COMPLETED | FAILED | CRASHED | REMOVED | REMOVING | SLEEPING | SKIPPED
    | UNKNOWN

  /** A parsed timestamp; without an offset it cannot be compared with the clock. */
  datatype Stamp = Stamp(seconds: int, aware: bool)

  /** Text operations of the runtime that the model takes as given. */
  datatype TextOps = TextOps(upper: string -> string, lower: string -> string, strip: string -> string,
                             fromIso: string -> Option<Stamp>)

  function StatusNamed(name: string): DeploymentStatus {
    if name == "INITIALIZING" then INITIALIZING else if name == "QUEUED" then QUEUED
    else if name == "BUILDING" then BUILDING else if name == "DEPLOYING" then DEPLOYING
    else if name == "WAITING" then WAITING else if name == "NEEDS_APPROVAL" then NEEDS_APPROVAL
    else if name == "SUCCESS" then SUCCESS else if name == "COMPLETED" then COMPLETED
    else if name == "FAILED" then FAILED else if name == "CRASHED" then CRASHED
    else if name == "REMOVED" then REMOVED else if name == "REMOVING" then REMOVING
    else if name == "SLEEPING" then SLEEPING else if name == "SKIPPED" then SKIPPED
    else UNKNOWN
  }

  function ParseDeploymentStatus(ops: TextOps, raw: Json): DeploymentStatus {
    if raw.Str? then StatusNamed(ops.upper(ops.strip(raw.s))) else UNKNOWN
  }

  function ParseStamp(ops: TextOps, raw: Json): Option<Stamp> {
    if raw.Str? && raw.s != "" then ops.fromIso(raw.s) else None
  }

  datatype ServiceStatus = ServiceStatus(
    hasActiveDeployment: bool,
    restartable: Option<Json>,
    latestStatus: DeploymentStatus,
    latestCreatedAt: Option<Stamp>,
    latestUpdatedAt: Option<Stamp>,
    stopped: bool,
    instanceRunning: bool)

  /** What the client asks about: one service in one environment of one project. */
  datatype Scope = Scope(project: string, environment: string, service: string)

  /** The body proves that service and environment belong to the project that was asked for. */
  predicate Owned(data: seq<(string, Json)>, scope: Scope) {
    var service, environment, instance := Get(data, "service"), Get(data, "environment"), Get(data, "serviceInstance");
    && service.Obj? && environment.Obj? && instance.Obj?
    && Get(service.entries, "id") == Str(scope.service)
    && Get(service.entries, "projectId") == Str(scope.project)
    && Get(environment.entries, "id") == Str(scope.environment)
    && Get(environment.entries, "projectId") == Str(scope.project)
    && Get(instance.entries, "serviceId") == Str(scope.service)
    && Get(instance.entries, "environmentId") == Str(scope.environment)
  }

  /** `_expect_list`: absent is empty, anything else that is not a list is an unexpected shape. */
  function ExpectList(j: Json): Option<seq<Json>> {
    match j
    case Null => Some([])
    case Arr(items) => Some(items)
    case _ => None
  }

  predicate RunningInstance(ops: TextOps, inst: Json) {
    inst.Obj? && Get(inst.entries, "status").Str?
    && ops.upper(Get(inst.entries, "status").s) in {"RUNNING", "HEALTHY"}
  }

  /** Whether an instance of the deployment runs; `None` when the list has an unexpected shape. */
  function InstancesRun(ops: TextOps, deployment: seq<(string, Json)>): Option<bool> {
    match ExpectList(Get(deployment, "instances"))
    case None => None
    case Some(instances) =>
      if instances == [] then Some(false)
      else if !instances[0].Obj? then None
      else Some(exists i | 0 <= i < |instances| :: RunningInstance(ops, instances[i]))
  }

  /** The id the restart mutation is given: the latest deployment's, else the active one's. */
  function RestartableId(latest: Option<seq<(string, Json)>>, active: Option<seq<(string, Json)>>): Option<Json> {
    var id := if latest.Some? && latest.value != [] then Get(latest.value, "id") else Null;
    var chosen := if Truthy(id) then id
                  else if active.Some? && active.value != [] then Get(active.value, "id") else Null;
    if chosen == Null then None else Some(chosen)
  }

  /** `None` stands for a GraphQL error: the body has an unexpected shape or another owner. */
  function ParseStatus(ops: TextOps, data: seq<(string, Json)>, scope: Scope): Option<ServiceStatus> {
    if !Owned(data, scope) then None
    else
      var instance := Get(data, "serviceInstance").entries;
      match ExpectList(Get(instance, "activeDeployments"))
      case None => None
      case Some(deployments) =>
        var rawLatest := Get(instance, "latestDeployment");
        if rawLatest != Null && !rawLatest.Obj? then None
        else if deployments != [] && !deployments[0].Obj? then None
        else
          var latest := if rawLatest.Obj? then Some(rawLatest.entries) else None;
          var active := if deployments != [] then Some(deployments[0].entries) else None;
          var running := if active.Some? then InstancesRun(ops, active.value) else Some(false);
          if running.None? then None
          else
            var fields := if latest.Some? then latest.value else [];
            Some(ServiceStatus(
              deployments != [],
              RestartableId(latest, active),
              if fields != [] then ParseDeploymentStatus(ops, Get(fields, "status")) else UNKNOWN,
              if fields != [] then ParseStamp(ops, Get(fields, "createdAt")) else None,
              if fields != [] then ParseStamp(ops, Get(fields, "updatedAt")) else None,
              active.Some? && Truthy(Get(active.value, "deploymentStopped")),
              running.value))
  }
}
