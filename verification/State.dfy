/** Classification of one target from what the two services answered. */
module State {
  import opened Wrappers
  import opened Text
  import opened StringOrder
  import opened Responses

  datatype Classification =
    | HEALTHY | GATEWAY_ONLY_FAILURE | TRANSITIONAL | CONTAINER_FAILURE
    | HOST_UNREACHABLE | PLATFORM_DEGRADED | WEBUI_DOWN

  /** Outcome of probing the gateway: nothing when it was not reachable. */
  type HealthProbe = Option<HealthResult>

  predicate IsTransitional(s: DeploymentStatus) {
    s in {INITIALIZING, QUEUED, BUILDING, DEPLOYING, WAITING, NEEDS_APPROVAL}
  }

  predicate IsTerminal(s: DeploymentStatus) {
    s in {COMPLETED, FAILED, CRASHED, REMOVED, SLEEPING, SKIPPED}
  }

  /** The container is up as far as Railway reports. */
  predicate ContainerUp(s: ServiceStatus) {
    s.hasActiveDeployment && !IsTerminal(s.latestStatus) && !s.stopped && s.instanceRunning
  }

  /** `None` when the comparison of a zoneless timestamp with the clock raises. */
  function Classify(s: ServiceStatus, health: HealthProbe, now: int, threshold: int): Option<Classification> {
    if IsTransitional(s.latestStatus) then
      var stamp := if s.latestUpdatedAt.Some? then s.latestUpdatedAt else s.latestCreatedAt;
      if stamp.None? then Some(CONTAINER_FAILURE)
      else if !stamp.value.aware then None
      else if now - stamp.value.seconds <= threshold then Some(TRANSITIONAL)
      else Some(CONTAINER_FAILURE)
    else if !s.hasActiveDeployment then Some(CONTAINER_FAILURE)
    else if IsTerminal(s.latestStatus) then Some(CONTAINER_FAILURE)
    else if s.stopped then Some(CONTAINER_FAILURE)
    else if !s.instanceRunning then Some(CONTAINER_FAILURE)
    else if health.None? then Some(CONTAINER_FAILURE)
    else if health.value.Healthy() then Some(HEALTHY)
    else Some(GATEWAY_ONLY_FAILURE)
  }

  /** The timestamp a deployment under way is judged by. */
  function StampOf(s: ServiceStatus): Option<Stamp> {
    if s.latestUpdatedAt.Some? then s.latestUpdatedAt else s.latestCreatedAt
  }

  /** A deployment under way that moved within the threshold. */
  predicate Recent(s: ServiceStatus, now: int, threshold: int) {
    StampOf(s).Some? && StampOf(s).value.aware && now <= StampOf(s).value.seconds + threshold
  }

  /** Railway mode knows four classifications, and exactly when each is given. */
  lemma ClassifyFour(s: ServiceStatus, health: HealthProbe, now: int, threshold: int)
    ensures var c := Classify(s, health, now, threshold);
      && (c.Some? ==> c.value in {HEALTHY, GATEWAY_ONLY_FAILURE, TRANSITIONAL, CONTAINER_FAILURE})
      && (c == Some(HEALTHY) <==>
            !IsTransitional(s.latestStatus) && ContainerUp(s) && health.Some? && health.value.Healthy())
      && (c == Some(GATEWAY_ONLY_FAILURE) <==>
            !IsTransitional(s.latestStatus) && ContainerUp(s) && health.Some? && !health.value.Healthy())
      && (c == Some(TRANSITIONAL) <==> IsTransitional(s.latestStatus) && Recent(s, now, threshold))
      && (c.None? <==> IsTransitional(s.latestStatus) && StampOf(s).Some? && !StampOf(s).value.aware)
  {
  }

  /**
   * Fail closed: a status body leads to HEALTHY or to a gateway restart only if it proves
   * ownership, lists an active deployment that is not stopped, and shows a running instance of it.
   */
  lemma JudgedUpIsProven(ops: TextOps, data: seq<(string, Json.Json)>, scope: Scope, health: HealthProbe, now: int,
      threshold: int)
    requires var s := ParseStatus(ops, data, scope);
      s.Some? && Classify(s.value, health, now, threshold) in {Some(HEALTHY), Some(GATEWAY_ONLY_FAILURE)}
    ensures Owned(data, scope)
    ensures var deployments := Json.Get(Json.Get(data, "serviceInstance").entries, "activeDeployments");
      && deployments.Arr? && deployments.items != [] && deployments.items[0].Obj?
      && !Json.Truthy(Json.Get(deployments.items[0].entries, "deploymentStopped"))
      && Json.Get(deployments.items[0].entries, "instances").Arr?
      && exists i | 0 <= i < |Json.Get(deployments.items[0].entries, "instances").items| ::
           RunningInstance(ops, Json.Get(deployments.items[0].entries, "instances").items[i])
  {
    ClassifyFour(ParseStatus(ops, data, scope).value, health, now, threshold);
  }

  // ----- self-hosted mode

  datatype Verdict = Verdict(classification: Classification, detail: Option<string>, condition: Option<string>)

  /** The platforms that count as failing. */
  function Failing(platforms: seq<PlatformState>, ignored: set<string>, lower: string -> string): seq<PlatformState> {
    if platforms == [] then []
    else
      var rest := Failing(platforms[1..], ignored, lower);
      if platforms[0].state != "connected" && lower(platforms[0].name) !in ignored then [platforms[0]] + rest else rest
  }

  function Names(platforms: seq<PlatformState>): (names: seq<string>)
    ensures |names| == |platforms| && forall i | 0 <= i < |names| :: names[i] == platforms[i].name
  {
    seq(|platforms|, i requires 0 <= i < |platforms| => platforms[i].name)
  }

  const MAX_ERROR_CHARS := 160

  function Part(p: PlatformState): string {
    var code := if p.errorCode.Some? then p.errorCode.value else "";
    var message := if p.errorMessage.Some? then p.errorMessage.value else "";
    var extra := if code != "" && message != "" then code + ": " + message else code + message;
    p.name + "=" + p.state
    + if extra == "" then "" else " (" + (if |extra| > MAX_ERROR_CHARS then extra[..MAX_ERROR_CHARS] else extra) + ")"
  }

  function JoinParts(parts: seq<string>): string {
    if parts == [] then "" else if |parts| == 1 then parts[0] else parts[0] + "; " + JoinParts(parts[1..])
  }

  function Parts(bad: seq<PlatformState>): seq<string> {
    seq(|bad|, i requires 0 <= i < |bad| => Part(bad[i]))
  }

  const DEGRADED_PREFIX := "platform_degraded:"

  function DegradedCondition(names: seq<string>): string {
    DEGRADED_PREFIX + Join(Sort(names))
  }

  function ClassifySelfhosted(health: HealthProbe, ignored: set<string>, lower: string -> string): Verdict {
    if health.None? || !health.value.statusOk then Verdict(HOST_UNREACHABLE, None, Some("host_unreachable"))
    else if !health.value.gatewayRunning then Verdict(GATEWAY_ONLY_FAILURE, None, Some("gateway_only_failure"))
    else
      var bad := Failing(health.value.platforms, ignored, lower);
      if bad == [] then Verdict(HEALTHY, None, None)
      else Verdict(PLATFORM_DEGRADED, Some("platforms: " + JoinParts(Parts(bad))), Some(DegradedCondition(Names(bad))))
  }

  method ComputeSelfhosted(health: HealthProbe, ignored: set<string>, lower: string -> string) returns (v: Verdict)
    ensures v == ClassifySelfhosted(health, ignored, lower)
  {
    if health.None? || !health.value.statusOk {
      return Verdict(HOST_UNREACHABLE, None, Some("host_unreachable"));
    }
    if !health.value.gatewayRunning {
      return Verdict(GATEWAY_ONLY_FAILURE, None, Some("gateway_only_failure"));
    }
    var bad := Failing(health.value.platforms, ignored, lower);
    if bad == [] {
      return Verdict(HEALTHY, None, None);
    }
    var parts := [];
    for i := 0 to |bad|
      invariant parts == Parts(bad)[..i]
    {
      parts := parts + [Part(bad[i])];
    }
    assert parts == Parts(bad);
    return Verdict(PLATFORM_DEGRADED, Some("platforms: " + JoinParts(parts)), Some(DegradedCondition(Names(bad))));
  }

  /** `None` is a request that failed. */
  function ClassifyWebui(code: Option<int>, decimal: int -> string): Verdict {
    if code == Some(200) || code == Some(302) then Verdict(HEALTHY, None, None)
    else Verdict(WEBUI_DOWN, Some("webui: " + if code.None? then "unreachable" else "HTTP " + decimal(code.value)),
      Some("webui_down"))
  }

  /** The classification alone, without the words around it. */
  function ClassOf(health: HealthProbe, ignored: set<string>, lower: string -> string): Classification {
    if health.None? || !health.value.statusOk then HOST_UNREACHABLE
    else if !health.value.gatewayRunning then GATEWAY_ONLY_FAILURE
    else if forall p | p in health.value.platforms :: p.state == "connected" || lower(p.name) in ignored then HEALTHY
    else PLATFORM_DEGRADED
  }

  lemma {:induction false} NoneFailing(platforms: seq<PlatformState>, ignored: set<string>, lower: string -> string)
    ensures Failing(platforms, ignored, lower) == []
       <==> forall p | p in platforms :: p.state == "connected" || lower(p.name) in ignored
  {
    if platforms != [] {
      NoneFailing(platforms[1..], ignored, lower);
      assert platforms[0] in platforms;
    }
  }

  /** A healthy gateway is degraded exactly when some platform is neither connected nor ignored. */
  lemma ClassOfVerdict(health: HealthProbe, ignored: set<string>, lower: string -> string)
    ensures ClassifySelfhosted(health, ignored, lower).classification == ClassOf(health, ignored, lower)
  {
    if health.Some? { NoneFailing(health.value.platforms, ignored, lower); }
  }

  /** The condition a self-hosted classification is reported with, given the health it rests on. */
  function ConditionOf(cls: Classification, health: HealthProbe, ignored: set<string>,
      lower: string -> string): Option<string> {
    if cls == WEBUI_DOWN then Some("webui_down") else ClassifySelfhosted(health, ignored, lower).condition
  }

  // ----- what fails, read off the platforms themselves

  /** The places of the platforms of this name that are neither connected nor ignored. */
  function FailingAt(platforms: seq<PlatformState>, name: string, ignored: set<string>,
      lower: string -> string): set<nat> {
    set i: nat | i < |platforms|
      && platforms[i].name == name && platforms[i].state != "connected" && lower(name) !in ignored
  }

  /** A name is listed as often as a platform of that name fails. */
  lemma {:induction false} FailingCounted(platforms: seq<PlatformState>, name: string, ignored: set<string>,
      lower: string -> string)
    ensures multiset(Names(Failing(platforms, ignored, lower)))[name]
         == |FailingAt(platforms, name, ignored, lower)|
  {
    if platforms != [] {
      var n := |platforms| - 1;
      var front, p := platforms[..n], platforms[n];
      FailingCounted(front, name, ignored, lower);
      assert platforms == front + [p];
      FailingSplit(front, [p], ignored, lower);
      NamesSplit(Failing(front, ignored, lower), Failing([p], ignored, lower));
      OneFailing(p, name, ignored, lower);
      FailingAtLast(front, p, name, ignored, lower);
    }
  }

  lemma FailingAtLast(front: seq<PlatformState>, p: PlatformState, name: string, ignored: set<string>,
      lower: string -> string)
    ensures |FailingAt(front + [p], name, ignored, lower)| == |FailingAt(front, name, ignored, lower)|
      + if p.name == name && p.state != "connected" && lower(name) !in ignored then 1 else 0
  {
    var n, before, all := |front|, FailingAt(front, name, ignored, lower), FailingAt(front + [p], name, ignored, lower);
    var fails := p.name == name && p.state != "connected" && lower(name) !in ignored;
    forall i: nat ensures i in all <==> i in before || (i == n && fails) {
      if i < n { assert (front + [p])[i] == front[i]; }
    }
    assert n !in before;
    assert all == if fails then before + {n} else before;
  }

  lemma OneFailing(p: PlatformState, name: string, ignored: set<string>, lower: string -> string)
    ensures multiset(Names(Failing([p], ignored, lower)))[name]
         == if p.name == name && p.state != "connected" && lower(name) !in ignored then 1 else 0
  {
    var bad := Failing([p], ignored, lower);
    assert [p][1..] == [] && Failing([p][1..], ignored, lower) == [];
    assert bad == if p.state != "connected" && lower(p.name) !in ignored then [p] + [] else [];
    assert Names([p]) == [p.name] && Names([]) == [];
  }

  /** The dashboard answered. */
  predicate Reached(h: HealthProbe) {
    h.Some? && h.value.statusOk
  }

  /** The dashboard answered that the gateway runs. */
  predicate Running(h: HealthProbe) {
    Reached(h) && h.value.gatewayRunning
  }

  /** Both fail in one way: unreachable, without a gateway, or (no less often) with the same platforms. */
  ghost predicate SameFailure(h: HealthProbe, k: HealthProbe, ignored: set<string>, lower: string -> string) {
    && (Reached(h) <==> Reached(k)) && (Running(h) <==> Running(k))
    && (Running(h) && Running(k) ==> forall name: string ::
          |FailingAt(h.value.platforms, name, ignored, lower)| == |FailingAt(k.value.platforms, name, ignored, lower)|)
  }

  lemma SameFailingNames(a: seq<PlatformState>, b: seq<PlatformState>, ignored: set<string>, lower: string -> string)
    ensures multiset(Names(Failing(a, ignored, lower))) == multiset(Names(Failing(b, ignored, lower)))
       <==> forall name: string :: |FailingAt(a, name, ignored, lower)| == |FailingAt(b, name, ignored, lower)|
  {
    forall name: string
      ensures |FailingAt(a, name, ignored, lower)| == multiset(Names(Failing(a, ignored, lower)))[name]
      ensures |FailingAt(b, name, ignored, lower)| == multiset(Names(Failing(b, ignored, lower)))[name]
    {
      FailingCounted(a, name, ignored, lower);
      FailingCounted(b, name, ignored, lower);
    }
  }

  lemma SignatureIsFailure(h: HealthProbe, k: HealthProbe, ignored: set<string>, lower: string -> string)
    ensures SignatureOf(h, ignored, lower) == SignatureOf(k, ignored, lower) <==> SameFailure(h, k, ignored, lower)
  {
    if Running(h) && Running(k) {
      SameFailingNames(h.value.platforms, k.value.platforms, ignored, lower);
      var s, t := Names(Failing(h.value.platforms, ignored, lower)), Names(Failing(k.value.platforms, ignored, lower));
      assert s == [] <==> |multiset(s)| == 0;
      assert t == [] <==> |multiset(t)| == 0;
    }
  }

  /** A degraded condition spells the failing names, each as often as it fails, in order. */
  lemma ConditionSpelled(h: HealthProbe, ignored: set<string>, lower: string -> string) returns (names: seq<string>)
    requires ClassifySelfhosted(h, ignored, lower).classification == PLATFORM_DEGRADED
    ensures Running(h) && names != [] && Sorted(names)
    ensures forall name: string :: multiset(names)[name] == |FailingAt(h.value.platforms, name, ignored, lower)|
    ensures ClassifySelfhosted(h, ignored, lower).condition == Some("platform_degraded:" + Join(names))
  {
    var bad := Names(Failing(h.value.platforms, ignored, lower));
    names := Sort(bad);
    SortSorted(bad);
    assert |multiset(names)| == |multiset(bad)|;
    forall name: string ensures multiset(names)[name] == |FailingAt(h.value.platforms, name, ignored, lower)| {
      FailingCounted(h.value.platforms, name, ignored, lower);
    }
  }

  // ----- the detail names what fails

  /** The detail of a degraded verdict shows the name and the state of every failing platform. */
  lemma DetailTells(h: HealthProbe, ignored: set<string>, lower: string -> string, i: nat)
    requires Running(h) && i < |h.value.platforms|
    requires var p := h.value.platforms[i]; p.state != "connected" && lower(p.name) !in ignored
    ensures var v, p := ClassifySelfhosted(h, ignored, lower), h.value.platforms[i];
      v.classification == PLATFORM_DEGRADED && v.detail.Some? && Occurs(p.name + "=" + p.state, v.detail.value)
  {
    var platforms := h.value.platforms;
    var bad, p := Failing(platforms, ignored, lower), platforms[i];
    NoneFailing(platforms, ignored, lower);
    var j := KeptFailing(platforms, ignored, lower, i);
    PartShown(p);
    PartListed(bad, j, p.name + "=" + p.state);
    var detail := JoinParts(Parts(bad));
    assert "platforms: " + detail == "platforms: " + detail + "";
    OccursInPart(p.name + "=" + p.state, "platforms: ", detail, "");
  }

  lemma {:induction false} KeptFailing(platforms: seq<PlatformState>, ignored: set<string>, lower: string -> string,
      i: nat) returns (j: nat)
    requires i < |platforms| && platforms[i].state != "connected" && lower(platforms[i].name) !in ignored
    ensures j < |Failing(platforms, ignored, lower)| && Failing(platforms, ignored, lower)[j] == platforms[i]
  {
    if i == 0 {
      j := 0;
    } else {
      j := KeptFailing(platforms[1..], ignored, lower, i - 1);
      if platforms[0].state != "connected" && lower(platforms[0].name) !in ignored { j := j + 1; }
    }
  }

  lemma PartShown(p: PlatformState)
    ensures Occurs(p.name + "=" + p.state, Part(p))
  {
    var head := p.name + "=" + p.state;
    var tail := Part(p)[|head|..];
    assert Part(p) == "" + head + tail;
    WholeOccurs(head);
    OccursInPart(head, "", head, tail);
  }

  lemma {:induction false} PartListed(bad: seq<PlatformState>, j: nat, w: string)
    requires j < |bad| && Occurs(w, Part(bad[j]))
    ensures Occurs(w, JoinParts(Parts(bad)))
  {
    var parts, rest := Parts(bad), Parts(bad[1..]);
    assert parts == [Part(bad[0])] + rest;
    if |bad| > 1 {
      if j == 0 {
        assert JoinParts(parts) == "" + parts[0] + ("; " + JoinParts(rest));
        OccursInPart(w, "", parts[0], "; " + JoinParts(rest));
      } else {
        PartListed(bad[1..], j - 1, w);
        assert JoinParts(parts) == (parts[0] + "; ") + JoinParts(rest) + "";
        OccursInPart(w, parts[0] + "; ", JoinParts(rest), "");
      }
    }
  }

  // ----- the condition is a stable signature

  /** The part of a probe the condition may depend on. */
  datatype Signature = Unreachable | GatewayDown | Degraded(failing: multiset<string>) | Fine

  function SignatureOf(health: HealthProbe, ignored: set<string>, lower: string -> string): Signature {
    if health.None? || !health.value.statusOk then Unreachable
    else if !health.value.gatewayRunning then GatewayDown
    else
      var names := Names(Failing(health.value.platforms, ignored, lower));
      if names == [] then Fine else Degraded(multiset(names))
  }

  lemma DegradedConditionIff(a: seq<string>, b: seq<string>)
    requires a != [] && b != [] && CommaFree(a) && CommaFree(b)
    ensures DegradedCondition(a) == DegradedCondition(b) <==> multiset(a) == multiset(b)
  {
    SortCanonical(a, b);
    var x, y := Join(Sort(a)), Join(Sort(b));
    if DEGRADED_PREFIX + x == DEGRADED_PREFIX + y {
      assert x == (DEGRADED_PREFIX + x)[|DEGRADED_PREFIX|..] && y == (DEGRADED_PREFIX + y)[|DEGRADED_PREFIX|..];
      SortKeepsCommaFree(a);
      SortKeepsCommaFree(b);
      JoinInjective(Sort(a), Sort(b));
    }
  }

  lemma SortKeepsCommaFree(a: seq<string>)
    requires a != [] && CommaFree(a)
    ensures Sort(a) != [] && CommaFree(Sort(a))
  {
    assert |multiset(Sort(a))| == |multiset(a)|;
    forall s | s in Sort(a) ensures ',' !in s {
      InMultiset(s, Sort(a));
      InMultiset(s, a);
    }
  }

  predicate CommaFreeNames(health: HealthProbe) {
    health.Some? ==> CommaFree(Names(health.value.platforms))
  }

  lemma {:induction false} FailingNames(platforms: seq<PlatformState>, ignored: set<string>, lower: string -> string)
    requires CommaFree(Names(platforms))
    ensures CommaFree(Names(Failing(platforms, ignored, lower)))
  {
    if platforms != [] {
      assert Names(platforms) == [platforms[0].name] + Names(platforms[1..]);
      FailingNames(platforms[1..], ignored, lower);
      var rest := Failing(platforms[1..], ignored, lower);
      assert Names([platforms[0]] + rest) == [platforms[0].name] + Names(rest);
    }
  }

  lemma FixedConditions(x: string)
    ensures DEGRADED_PREFIX + x != "host_unreachable" && DEGRADED_PREFIX + x != "gateway_only_failure"
    ensures DEGRADED_PREFIX + x != "webui_down"
    ensures "host_unreachable" != "gateway_only_failure"
  {
    assert (DEGRADED_PREFIX + x)[0] == 'p';
    assert "host_unreachable"[0] == 'h' && "gateway_only_failure"[0] == 'g' && "webui_down"[0] == 'w';
  }

  /**
   * Two probes get the same condition exactly when they fail in the same way: order, state
   * words and error texts of the platforms never matter, the set of failing names always does.
   */
  lemma ConditionIsSignature(h: HealthProbe, k: HealthProbe, ignored: set<string>, lower: string -> string)
    requires CommaFreeNames(h) && CommaFreeNames(k)
    ensures ClassifySelfhosted(h, ignored, lower).condition == ClassifySelfhosted(k, ignored, lower).condition
       <==> SameFailure(h, k, ignored, lower)
  {
    SignatureIsFailure(h, k, ignored, lower);
    SignatureDecides(h, k, ignored, lower);
  }

  lemma SignatureDecides(h: HealthProbe, k: HealthProbe, ignored: set<string>, lower: string -> string)
    requires CommaFreeNames(h) && CommaFreeNames(k)
    ensures ClassifySelfhosted(h, ignored, lower).condition == ClassifySelfhosted(k, ignored, lower).condition
       <==> SignatureOf(h, ignored, lower) == SignatureOf(k, ignored, lower)
  {
    var s, t := SignatureOf(h, ignored, lower), SignatureOf(k, ignored, lower);
    var v, w := ClassifySelfhosted(h, ignored, lower), ClassifySelfhosted(k, ignored, lower);
    SignatureOfVerdict(h, ignored, lower);
    SignatureOfVerdict(k, ignored, lower);
    if s.Degraded? && t.Degraded? {
      FailingNames(h.value.platforms, ignored, lower);
      FailingNames(k.value.platforms, ignored, lower);
      DegradedConditionIff(Names(Failing(h.value.platforms, ignored, lower)),
        Names(Failing(k.value.platforms, ignored, lower)));
    } else if s.Degraded? {
      FixedConditions(Join(Sort(Names(Failing(h.value.platforms, ignored, lower)))));
    } else if t.Degraded? {
      FixedConditions(Join(Sort(Names(Failing(k.value.platforms, ignored, lower)))));
    } else {
      FixedConditions("");
    }
  }

  /** How the verdict's condition is built from what failed. */
  lemma SignatureOfVerdict(h: HealthProbe, ignored: set<string>, lower: string -> string)
    ensures var v := ClassifySelfhosted(h, ignored, lower);
      match SignatureOf(h, ignored, lower)
      case Unreachable => v.classification == HOST_UNREACHABLE && v.condition == Some("host_unreachable")
      case GatewayDown => v.classification == GATEWAY_ONLY_FAILURE && v.condition == Some("gateway_only_failure")
      case Degraded(_) => v.classification == PLATFORM_DEGRADED && h.Some?
          && v.condition == Some(DegradedCondition(Names(Failing(h.value.platforms, ignored, lower))))
      case Fine => v.classification == HEALTHY && v.condition == None
  {
  }

  /** Equal conditions of unhealthy verdicts mean equal classifications, so a change of kind always shows. */
  lemma ConditionFixesClassification(h: HealthProbe, k: HealthProbe, ignored: set<string>, lower: string -> string)
    requires CommaFreeNames(h) && CommaFreeNames(k)
    requires ClassifySelfhosted(h, ignored, lower).condition == ClassifySelfhosted(k, ignored, lower).condition
    ensures ClassifySelfhosted(h, ignored, lower).classification == ClassifySelfhosted(k, ignored, lower).classification
  {
    SignatureDecides(h, k, ignored, lower);
    SignatureOfVerdict(h, ignored, lower);
    SignatureOfVerdict(k, ignored, lower);
  }

  /** Flapping messages never re-alert: the same failing names give the same verdict but for its detail. */
  lemma FlappingKeepsCondition(h: HealthProbe, k: HealthProbe, ignored: set<string>, lower: string -> string)
    requires SameFailure(h, k, ignored, lower)
    ensures ClassifySelfhosted(h, ignored, lower).condition == ClassifySelfhosted(k, ignored, lower).condition
    ensures ClassifySelfhosted(h, ignored, lower).classification == ClassifySelfhosted(k, ignored, lower).classification
  {
    SignatureIsFailure(h, k, ignored, lower);
    SignatureOfVerdict(h, ignored, lower);
    SignatureOfVerdict(k, ignored, lower);
    if SignatureOf(h, ignored, lower).Degraded? {
      SortCanonical(Names(Failing(h.value.platforms, ignored, lower)),
        Names(Failing(k.value.platforms, ignored, lower)));
    }
  }

  lemma {:induction false} FailingSplit(a: seq<PlatformState>, b: seq<PlatformState>, ignored: set<string>,
      lower: string -> string)
    ensures Failing(a + b, ignored, lower) == Failing(a, ignored, lower) + Failing(b, ignored, lower)
  {
    if a == [] {
      assert a + b == b;
    } else {
      assert (a + b)[1..] == a[1..] + b;
      FailingSplit(a[1..], b, ignored, lower);
    }
  }

  lemma FailingAround(x: seq<PlatformState>, p: PlatformState, y: seq<PlatformState>, ignored: set<string>,
      lower: string -> string)
    ensures multiset(Names(Failing(x + [p] + y, ignored, lower)))
         == multiset(Names(Failing([p], ignored, lower))) + multiset(Names(Failing(x + y, ignored, lower)))
  {
    FailingSplit(x + [p], y, ignored, lower);
    FailingSplit(x, [p], ignored, lower);
    FailingSplit(x, y, ignored, lower);
    NamesAround(Failing(x, ignored, lower), Failing([p], ignored, lower), Failing(y, ignored, lower));
  }

  lemma NamesAround(x: seq<PlatformState>, p: seq<PlatformState>, y: seq<PlatformState>)
    ensures multiset(Names(x + p + y)) == multiset(Names(p)) + multiset(Names(x + y))
  {
    assert Names(x + p + y) == Names(x) + Names(p) + Names(y);
    assert Names(x + y) == Names(x) + Names(y);
  }

  /** Listing the platforms in another order fails the same names. */
  lemma {:induction false} FailingIgnoresOrder(a: seq<PlatformState>, b: seq<PlatformState>, ignored: set<string>,
      lower: string -> string)
    requires multiset(a) == multiset(b)
    ensures multiset(Names(Failing(a, ignored, lower))) == multiset(Names(Failing(b, ignored, lower)))
  {
    assert |a| == |multiset(a)| == |multiset(b)| == |b|;
    if a != [] {
      assert a[0] in multiset(b);
      var x, y := Around(b, a[0]);
      assert a == [a[0]] + a[1..];
      SameRest(x, a[0], y, a[1..]);
      FailingIgnoresOrder(a[1..], x + y, ignored, lower);
      FailingAround(x, a[0], y, ignored, lower);
      FailingSplit([a[0]], a[1..], ignored, lower);
      NamesSplit(Failing([a[0]], ignored, lower), Failing(a[1..], ignored, lower));
    }
  }

  lemma Around(b: seq<PlatformState>, p: PlatformState) returns (x: seq<PlatformState>, y: seq<PlatformState>)
    requires p in b
    ensures b == x + [p] + y
  {
    var j :| 0 <= j < |b| && b[j] == p;
    x, y := b[..j], b[j + 1..];
  }

  lemma NamesSplit(x: seq<PlatformState>, y: seq<PlatformState>)
    ensures multiset(Names(x + y)) == multiset(Names(x)) + multiset(Names(y))
  {
    assert Names(x + y) == Names(x) + Names(y);
  }

  lemma SameRest<T>(x: seq<T>, p: T, y: seq<T>, rest: seq<T>)
    requires multiset([p] + rest) == multiset(x + [p] + y)
    ensures multiset(rest) == multiset(x + y)
  {
    assert multiset([p] + rest) - multiset{p} == multiset(rest);
    assert multiset(x + [p] + y) - multiset{p} == multiset(x + y);
  }
}
