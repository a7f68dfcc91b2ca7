/** What the body of a status reply says, read by its keys, and the classification it leads to. */
module StatusBody {
  import opened Wrappers
  import opened Json
  import opened Responses
  import opened State

  // ----- the fields of a body

  /** A field of a value, which may not be an object. */
  function Field(j: Json, key: string): Json {
    if j.Obj? then Get(j.entries, key) else Null
  }

  function Items(j: Json): seq<Json> {
    if j.Arr? then j.items else []
  }

  function First(j: Json): Json {
    if Items(j) != [] then Items(j)[0] else Null
  }

  function Instance(data: seq<(string, Json)>): Json {
    Field(Obj(data), "serviceInstance")
  }

  function Latest(data: seq<(string, Json)>): Json {
    Field(Instance(data), "latestDeployment")
  }

  function Active(data: seq<(string, Json)>): Json {
    First(Field(Instance(data), "activeDeployments"))
  }

  /** The service and the environment are the ones asked for, and both are the project's. */
  predicate IsOwn(data: seq<(string, Json)>, scope: Scope) {
    && Field(Field(Obj(data), "service"), "id") == Str(scope.service)
    && Field(Field(Obj(data), "service"), "projectId") == Str(scope.project)
    && Field(Field(Obj(data), "environment"), "id") == Str(scope.environment)
    && Field(Field(Obj(data), "environment"), "projectId") == Str(scope.project)
    && Field(Instance(data), "serviceId") == Str(scope.service)
    && Field(Instance(data), "environmentId") == Str(scope.environment)
  }

  predicate ListOrNothing(j: Json) {
    j.Arr? || j.Null?
  }

  /** Deployments and instances have the expected shapes; of each list only the first element matters. */
  predicate Readable(data: seq<(string, Json)>) {
    && ListOrNothing(Field(Instance(data), "activeDeployments"))
    && (Latest(data).Obj? || Latest(data).Null?)
    && (Items(Field(Instance(data), "activeDeployments")) != [] ==>
          && Active(data).Obj? && ListOrNothing(Field(Active(data), "instances"))
          && (Items(Field(Active(data), "instances")) != [] ==> First(Field(Active(data), "instances")).Obj?))
  }

  // ----- what they say

  predicate Says(ops: TextOps, j: Json, words: set<string>) {
    j.Str? && ops.upper(ops.strip(j.s)) in words
  }

  /** The latest deployment is on its way. */
  predicate UnderWay(ops: TextOps, data: seq<(string, Json)>) {
    Says(ops, Field(Latest(data), "status"),
      {"INITIALIZING", "QUEUED", "BUILDING", "DEPLOYING", "WAITING", "NEEDS_APPROVAL"})
  }

  /** The latest deployment is over. */
  predicate Ended(ops: TextOps, data: seq<(string, Json)>) {
    Says(ops, Field(Latest(data), "status"), {"COMPLETED", "FAILED", "CRASHED", "REMOVED", "SLEEPING", "SKIPPED"})
  }

  function Moment(ops: TextOps, j: Json): Option<Stamp> {
    if j.Str? && j.s != "" then ops.fromIso(j.s) else None
  }

  /** When the latest deployment last moved: its update, else its creation. */
  function LastMoved(ops: TextOps, data: seq<(string, Json)>): Option<Stamp> {
    var updated := Moment(ops, Field(Latest(data), "updatedAt"));
    if updated.Some? then updated else Moment(ops, Field(Latest(data), "createdAt"))
  }

  predicate Stopped(data: seq<(string, Json)>) {
    Truthy(Field(Active(data), "deploymentStopped"))
  }

  /** Some instance of the active deployment says that it runs. */
  predicate InstanceRuns(ops: TextOps, data: seq<(string, Json)>) {
    var instances := Items(Field(Active(data), "instances"));
    exists i | 0 <= i < |instances| :: Alive(ops, instances[i])
  }

  predicate Alive(ops: TextOps, inst: Json) {
    Field(inst, "status").Str? && ops.upper(Field(inst, "status").s) in {"RUNNING", "HEALTHY"}
  }

  /** The body shows the container up, with nothing on its way. */
  predicate ShowsUp(ops: TextOps, data: seq<(string, Json)>) {
    && !UnderWay(ops, data) && !Ended(ops, data)
    && Items(Field(Instance(data), "activeDeployments")) != [] && !Stopped(data) && InstanceRuns(ops, data)
  }

  /** The id of the latest deployment, else that of the active one; nothing when neither has one. */
  predicate NamesForRestart(data: seq<(string, Json)>, id: Option<Json>) {
    var latest, active := Field(Latest(data), "id"), Field(Active(data), "id");
    id == if Truthy(latest) then Some(latest) else if active.Null? then None else Some(active)
  }

  // ----- the parsed status says the same

  lemma FieldsOfBody(ops: TextOps, data: seq<(string, Json)>, scope: Scope)
    ensures Owned(data, scope) <==> IsOwn(data, scope)
  {
  }

  lemma StatusWords(name: string)
    ensures IsTransitional(StatusNamed(name))
       <==> name in {"INITIALIZING", "QUEUED", "BUILDING", "DEPLOYING", "WAITING", "NEEDS_APPROVAL"}
    ensures IsTerminal(StatusNamed(name))
       <==> name in {"COMPLETED", "FAILED", "CRASHED", "REMOVED", "SLEEPING", "SKIPPED"}
    ensures StatusNamed(name) == SUCCESS <==> name == "SUCCESS"
  {
  }

  lemma RunsIsParsed(ops: TextOps, data: seq<(string, Json)>)
    requires Active(data).Obj? && ListOrNothing(Field(Active(data), "instances"))
    requires Items(Field(Active(data), "instances")) != [] ==> First(Field(Active(data), "instances")).Obj?
    ensures InstancesRun(ops, Active(data).entries) == Some(InstanceRuns(ops, data))
  {
    var instances := Items(Field(Active(data), "instances"));
    forall i | 0 <= i < |instances| ensures Alive(ops, instances[i]) <==> RunningInstance(ops, instances[i]) { }
  }

  /** A status is read exactly from an own body of the expected shape. */
  lemma ReadableIsParsed(ops: TextOps, data: seq<(string, Json)>, scope: Scope)
    ensures ParseStatus(ops, data, scope).Some? <==> IsOwn(data, scope) && Readable(data)
  {
    FieldsOfBody(ops, data, scope);
    if Active(data).Obj? && ListOrNothing(Field(Active(data), "instances"))
       && (Items(Field(Active(data), "instances")) != [] ==> First(Field(Active(data), "instances")).Obj?)
    {
      RunsIsParsed(ops, data);
    }
  }

  /** The latest deployment's fields are read, and nothing is when there is no latest deployment. */
  lemma LatestIsParsed(ops: TextOps, data: seq<(string, Json)>, scope: Scope)
    requires ParseStatus(ops, data, scope).Some?
    ensures var s := ParseStatus(ops, data, scope).value;
      && (IsTransitional(s.latestStatus) <==> UnderWay(ops, data)) && (IsTerminal(s.latestStatus) <==> Ended(ops, data))
      && (s.latestStatus == SUCCESS <==> Says(ops, Field(Latest(data), "status"), {"SUCCESS"}))
      && StampOf(s) == LastMoved(ops, data)
  {
    var status := Field(Latest(data), "status");
    if status.Str? { StatusWords(ops.upper(ops.strip(status.s))); }
  }

  lemma ActiveIsParsed(ops: TextOps, data: seq<(string, Json)>, scope: Scope)
    requires ParseStatus(ops, data, scope).Some?
    ensures var s := ParseStatus(ops, data, scope).value;
      && (s.hasActiveDeployment <==> Items(Field(Instance(data), "activeDeployments")) != [])
      && (s.stopped <==> Stopped(data)) && (s.instanceRunning <==> InstanceRuns(ops, data))
      && NamesForRestart(data, s.restartable)
  {
    ReadableIsParsed(ops, data, scope);
    if Items(Field(Instance(data), "activeDeployments")) != [] { RunsIsParsed(ops, data); }
  }

  lemma UpIsParsed(ops: TextOps, data: seq<(string, Json)>, scope: Scope)
    requires ParseStatus(ops, data, scope).Some?
    ensures var s := ParseStatus(ops, data, scope).value;
      !IsTransitional(s.latestStatus) && ContainerUp(s) <==> ShowsUp(ops, data)
  {
    LatestIsParsed(ops, data, scope);
    ActiveIsParsed(ops, data, scope);
  }

  /** What a body and the health of the gateway classify as; nothing when a time without zone is compared. */
  function Judged(ops: TextOps, data: seq<(string, Json)>, scope: Scope, health: HealthProbe, now: int,
      threshold: int): Option<Classification>
    requires ParseStatus(ops, data, scope).Some?
  {
    Classify(ParseStatus(ops, data, scope).value, health, now, threshold)
  }

  predicate GatewayUp(health: HealthProbe) {
    health.Some? && health.value.statusOk && health.value.gatewayRunning
  }

  /** When a body leads to each of the four classifications, in terms of its fields. */
  lemma BodyDecides(ops: TextOps, data: seq<(string, Json)>, scope: Scope, health: HealthProbe, now: int,
      threshold: int)
    requires ParseStatus(ops, data, scope).Some?
    ensures var c, moved := Judged(ops, data, scope, health, now, threshold), LastMoved(ops, data);
      && IsOwn(data, scope) && Readable(data)
      && (c == Some(HEALTHY) <==> ShowsUp(ops, data) && GatewayUp(health))
      && (c == Some(GATEWAY_ONLY_FAILURE) <==> ShowsUp(ops, data) && health.Some? && !GatewayUp(health))
      && (c == Some(TRANSITIONAL) <==>
            UnderWay(ops, data) && moved.Some? && moved.value.aware && now <= moved.value.seconds + threshold)
      && (c == Some(CONTAINER_FAILURE) <==>
            if UnderWay(ops, data) then
              moved.None? || (moved.value.aware && now > moved.value.seconds + threshold)
            else !ShowsUp(ops, data) || health.None?)
      && (c.None? <==> UnderWay(ops, data) && moved.Some? && !moved.value.aware)
  {
    ReadableIsParsed(ops, data, scope);
    LatestIsParsed(ops, data, scope);
    UpIsParsed(ops, data, scope);
    ClassifyFour(ParseStatus(ops, data, scope).value, health, now, threshold);
  }
}
