/** From the requests of whole runs to the emails they cause. */
module EndToEnd {
  import opened Wrappers
  import opened State
  import opened Outcomes
  import opened Notify
  import opened NotifyProofs
  import opened ReportProofs
  import opened Replies
  import opened Responses
  import opened Trace
  import Errors
  import Json
  import opened TraceProofs
  import opened StatusBody
  import opened BodyProofs
  import opened Alerting
  import opened Watchdog
  import Orchestrator

  /** A run over the targets of self-hosted mode, with what it left behind. */
  ghost predicate Ran(settings: Orchestrator.Settings, jobs: seq<Job>, runs: seq<Record>,
      outcomes: seq<TargetOutcome>) {
    && settings.selfhosted && |jobs| == |runs| == |outcomes|
    && (forall i | 0 <= i < |jobs| :: Suits(settings, jobs[i]))
    && AllWithinBounds(settings, jobs, runs) && AllBorne(settings, jobs, runs, outcomes)
  }

  /** What the last probe of a target's run found, as the monitor of its trace has it. */
  function Found(job: Job, run: Record): Monitor {
    Observe(job.ctx, run.trace)
  }

  /**
   * The host is called down only when, for every target, the last thing its run concluded was
   * that the gateway could not be reached.
   */
  lemma HostDownWasSeen(settings: Orchestrator.Settings, jobs: seq<Job>, runs: seq<Record>,
      outcomes: seq<TargetOutcome>,
      i: nat) returns (k: nat)
    requires Ran(settings, jobs, runs, outcomes) && HostDown(outcomes) && i < |jobs|
    ensures k < |runs[i].trace| && runs[i].trace[k].Judged? && runs[i].trace[k].cls == HOST_UNREACHABLE
    ensures runs[i].trace[k].health.None?
    ensures forall n | k < n < |runs[i].trace| :: !runs[i].trace[n].Judged? && !IsMutation(runs[i].trace[n])
  {
    var ctx, t := jobs[i].ctx, runs[i].trace;
    VerdictOfUnreachable(settings, jobs[i], runs[i], outcomes[i]);
    k := VerdictIsLast(ctx, t);
    OnlyJudged(ctx, t, k);
    var n, p := UnreachableWasTried(ctx, t, k);
  }

  lemma VerdictOfUnreachable(settings: Orchestrator.Settings, job: Job, run: Record, o: TargetOutcome)
    requires settings.selfhosted && Suits(settings, job) && Borne(settings, job, run, o)
    requires o.classification == Some(HOST_UNREACHABLE)
    ensures Found(job, run).verdict == Some(HOST_UNREACHABLE)
  {
  }

  /**
   * The host is called down exactly when there is more than one target and the last probe of each
   * concluded, without an exception after it, that the gateway could not be reached.
   */
  lemma HostDownIff(settings: Orchestrator.Settings, jobs: seq<Job>, runs: seq<Record>, outcomes: seq<TargetOutcome>)
    requires Ran(settings, jobs, runs, outcomes)
    ensures HostDown(outcomes) <==>
      && |jobs| > 1
      && forall i | 0 <= i < |jobs| ::
           outcomes[i].error.None? && Found(jobs[i], runs[i]).verdict == Some(HOST_UNREACHABLE)
  {
    forall i | 0 <= i < |jobs|
      ensures outcomes[i].classification == Some(HOST_UNREACHABLE)
         <==> outcomes[i].error.None? && Found(jobs[i], runs[i]).verdict == Some(HOST_UNREACHABLE)
    {
      ClassificationTold(settings, jobs[i], runs[i], outcomes[i]);
    }
  }

  lemma ClassificationTold(settings: Orchestrator.Settings, job: Job, run: Record, o: TargetOutcome)
    requires settings.selfhosted && Suits(settings, job) && Borne(settings, job, run, o)
    ensures o.classification == Some(HOST_UNREACHABLE)
       <==> o.error.None? && Found(job, run).verdict == Some(HOST_UNREACHABLE)
  {
  }

  /** A self-hosted run concludes its probes without Railway. */
  lemma OnlyJudged(ctx: Context, t: seq<Event>, k: nat)
    requires Lawful(ctx, t) && ctx.selfhosted && k < |t| && (t[k].Probed? || t[k].Judged?)
    ensures t[k].Judged?
  {
    LawfulAt(ctx, t, k);
  }

  /** The error of an event that raises one. */
  function ErrorAt(e: Event): Option<Errors.Error> {
    match e
    case CheckRaised(error) => Some(error)
    case RestartRaised(error) => Some(error)
    case _ => None
  }

  /**
   * A self-hosted failure is reported with a code other than a timeout only after the last probe or
   * restart raised the error of that code; "auth" stands for a rejected login and nothing else.
   */
  lemma ReasonWasRaised(settings: Orchestrator.Settings, job: Job, run: Record, o: TargetOutcome) returns (k: nat)
    requires settings.selfhosted && Suits(settings, job) && Borne(settings, job, run, o) && o.error.None?
    requires o.reason.Some? && o.reason != Some(Errors.TIMEOUT)
    ensures !o.recovered && k < |run.trace| && ErrorAt(run.trace[k]).Some?
    ensures forall n | k < n < |run.trace| :: !run.trace[n].ProbeStarted?
    ensures var error := ErrorAt(run.trace[k]).value;
      && (o.reason == Some(Errors.AUTH) <==> error.HermesAuth?)
      && (o.reason == Some(Errors.PROTOCOL) <==> error.HermesProtocol?)
      && (o.reason == Some(Errors.HTTP) <==> error.HermesHttp?)
  {
    assert Orchestrator.ReasonTold(Found(job, run), o,
      settings.deadline.Some? && run.end >= job.clock + settings.deadline.value);
    k := ErrorWasRaised(job.ctx, run.trace);
  }

  // ----- the numbers of the settings

  /** A number of times, of which a negative number is none. */
  function AtLeast0(n: int): nat {
    if n < 0 then 0 else n
  }

  /**
   * In any run, a container that the body shows up is restarted only when the gateway did not answer
   * as many health checks in that probe as the settings ask for.
   */
  lemma UpIsRestartedAfterAllChecks(settings: Orchestrator.Settings, job: Job, run: Record, i: nat)
      returns (k: nat, p: nat, q: nat)
    requires Suits(settings, job) && WithinBounds(settings, job, run)
    requires i < |run.trace| && run.trace[i].DeployCalled?
    ensures ReadFor(run.trace, k, p) && DirectlyBefore(run.trace, p, i)
    ensures ShowsUp(job.ctx.ops, BodyAt(run.trace, k)) ==>
      && q <= p && Raised(run.trace[..p], q) == AtLeast0(settings.healthRetries + 1)
      && forall n | q <= n < p :: !run.trace[n].ProbeStarted?
  {
    k, p, q := DeployRestsOnBody(job.ctx, run.trace, i);
  }

  /** What is sent to Railway and to Hermes in a Railway run, in the numbers of the settings. */
  lemma RequestsInNumbers(settings: Orchestrator.Settings, job: Job, run: Record)
    requires Suits(settings, job) && WithinBounds(settings, job, run) && !settings.selfhosted
    ensures var rounds := 5 + AtLeast0(settings.waitAttempts);
      && RailwayRequests(run.trace) <= AtLeast0(job.ctx.retry.maxRetries + 1) * rounds + 1
      && HermesRequests(run.trace) <= 4 * AtLeast0(settings.healthRetries + 1) * rounds + 4 + 4 * job.ctx.polls
  {
    LimitsOfSettings(settings, job);
    BoundsInNumbers(job.ctx, run.trace, AtLeast0(job.ctx.retry.maxRetries + 1), AtLeast0(settings.healthRetries + 1),
      5 + AtLeast0(settings.waitAttempts));
  }

  lemma BoundsInNumbers(ctx: Context, t: seq<Event>, tries: nat, checks: nat, rounds: nat)
    requires Bounded(ctx, t) && !ctx.selfhosted
    requires tries == ctx.retry.Reads() && checks == ctx.checks && rounds == 5 + ctx.waits
    ensures RailwayRequests(t) <= tries * rounds + 1 && HermesRequests(t) <= 4 * checks * rounds + 4 + 4 * ctx.polls
  {
    RequestsCounted(ctx, t);
  }

  lemma LimitsOfSettings(settings: Orchestrator.Settings, job: Job)
    requires Suits(settings, job)
    ensures job.ctx.retry.Reads() == AtLeast0(job.ctx.retry.maxRetries + 1)
    ensures job.ctx.waits == AtLeast0(settings.waitAttempts)
    ensures job.ctx.checks == AtLeast0(settings.healthRetries + 1)
  {
  }

  // ----- what a run tells the notifier

  /** A target that the run reports as failing, without an escaped exception. */
  ghost predicate Fails(outcomes: seq<TargetOutcome>, b: string, i: nat) {
    && SoleOutcome(outcomes, b, i) && !outcomes[i].recovered && !outcomes[i].deferred
    && outcomes[i].error.None? && !HostDown(outcomes)
  }

  lemma FailureIsFound(settings: Orchestrator.Settings, job: Job, run: Record, o: TargetOutcome)
    requires settings.selfhosted && Suits(settings, job) && Borne(settings, job, run, o)
    requires !o.recovered && !o.deferred && o.error.None?
    ensures Alerting.FailureOf(o, FoundClass(Found(job, run)), FoundHealth(Found(job, run)), job.ctx)
  {
    RunFailureIsJudged(job.ctx, Found(job, run), o,
      settings.deadline.Some? && run.end >= job.clock + settings.deadline.value);
  }

  /** The two runs found the same wrong with their targets. */
  ghost predicate FoundAlike(job: Job, run: Record, job': Job, run': Record) {
    SameTrouble(FoundClass(Found(job, run)), FoundHealth(Found(job, run)),
      FoundClass(Found(job', run')), FoundHealth(Found(job', run')), job.ctx)
  }

  /**
   * Whatever the two runs met: when both report a failure of a target, the second sends an incident
   * email for it exactly when its probes found something else wrong than those of the first.
   */
  lemma AlertsOnChangeOfTrouble(cfg: Config, env: Env, aliases: set<string>, box: Box, before: seq<seq<TargetOutcome>>,
      b: string, settings: Orchestrator.Settings,
      jobs: seq<Job>, runs: seq<Record>, r: seq<TargetOutcome>, i: nat,
      jobs': seq<Job>, runs': seq<Record>, s: seq<TargetOutcome>, j: nat)
    requires Setting(cfg, env, aliases) && FaultFree(env) && cfg.store && b in aliases && AllProper(cfg, box, aliases)
    requires AllWatched(before + [r] + [s], aliases)
    requires Ran(settings, jobs, runs, r) && Fails(r, b, i) && CommaFreeNames(FoundHealth(Found(jobs[i], runs[i])))
    requires Ran(settings, jobs', runs', s) && Fails(s, b, j) && CommaFreeNames(FoundHealth(Found(jobs'[j], runs'[j])))
    requires jobs[i].ctx == jobs'[j].ctx
    requires ToldApart(cfg, r[i].condition, s[j].condition)
    ensures Incidents(V(cfg, Runs(cfg, env, box, before + [r] + [s]), b).emails)
         == Incidents(V(cfg, Runs(cfg, env, box, before + [r]), b).emails)
            + if FoundAlike(jobs[i], runs[i], jobs'[j], runs'[j]) then 0 else 1
  {
    FailureIsFound(settings, jobs[i], runs[i], r[i]);
    FailureIsFound(settings, jobs'[j], runs'[j], s[j]);
    var m, n := Found(jobs[i], runs[i]), Found(jobs'[j], runs'[j]);
    RunsAlertIffFailsDifferently(cfg, env, aliases, box, before, r, i, FoundClass(m), FoundHealth(m),
      s, j, FoundClass(n), FoundHealth(n), b, jobs[i].ctx);
  }

  // ----- a mutation that no outcome tells of

  /** A Railway target without a budget whose gateway is never asked, and what it is answered. */
  ghost predicate Lost(ctx: Context, reply: Reply, st: ServiceStatus, id: Json.Json, now: int) {
    && !ctx.selfhosted && !ctx.dryRun && !ctx.budgeted && ctx.checks == 0 && ctx.retry.maxRetries >= 0
    && StatusOf(ctx, reply) == Some(st) && st.restartable == Some(id) && !CanRetry(ctx.retry, reply)
    && Classify(st, None, now, ctx.threshold) == Some(CONTAINER_FAILURE)
  }

  /** The monitor as long as such a run only probed. */
  ghost predicate OnlyProbed(m: Monitor, probes: nat) {
    && m.lawful && m.end.None? && m.deployCalls == 0 && m.gatewayCalls == 0 && m.probes == probes
    && (probes > 0 ==> m.first == Some(CONTAINER_FAILURE))
    && m.attempt == 0 && m.backoff.None? && !m.expired
  }

  /** The same, in a probe that has begun. */
  ghost predicate Probing(m: Monitor, probes: nat) {
    OnlyProbed(m, probes) && m.health.None? && m.tried == 0
  }

  lemma BeginLost(ctx: Context, m: Monitor, probes: nat)
    requires OnlyProbed(m, probes)
    ensures Probing(Next(ctx, m, ProbeStarted), probes)
  {
  }

  lemma ReadLost(ctx: Context, m: Monitor, probes: nat, reply: Reply, st: ServiceStatus, id: Json.Json, now: int)
    requires Lost(ctx, reply, st, id, now) && Probing(m, probes)
    ensures var n := Next(ctx, m, Railway(None, None, 0.0, reply)); Probing(n, probes) && n.read == Some(st)
  {
  }

  lemma DateLost(ctx: Context, m: Monitor, probes: nat, now: int)
    requires Probing(m, probes)
    ensures var n := Next(ctx, m, Dated(0.0, now)); Probing(n, probes) && n.read == m.read && n.date == Some(now)
  {
  }

  lemma ConcludeLost(ctx: Context, m: Monitor, probes: nat, reply: Reply, st: ServiceStatus, id: Json.Json, now: int)
    requires Lost(ctx, reply, st, id, now) && Probing(m, probes) && m.read == Some(st) && m.date == Some(now)
    requires probes == 0 ==> m.first.None?
    ensures var n := Next(ctx, m, Probed(st, None, now, CONTAINER_FAILURE));
      OnlyProbed(n, probes + 1) && n.permit == Classified(CONTAINER_FAILURE, Some(id))
  {
  }

  /** One probe of such a run. */
  lemma ProbeLost(ctx: Context, t: seq<Event>, probes: nat, reply: Reply, st: ServiceStatus, id: Json.Json, now: int)
      returns (u: seq<Event>)
    requires Lost(ctx, reply, st, id, now) && OnlyProbed(Observe(ctx, t), probes)
    requires probes == 0 ==> Observe(ctx, t) == START
    ensures OnlyProbed(Observe(ctx, u), probes + 1)
    ensures Observe(ctx, u).permit == Classified(CONTAINER_FAILURE, Some(id))
  {
    var begin, read, date := ProbeStarted, Railway(None, None, 0.0, reply), Dated(0.0, now);
    ObserveLast(ctx, t, begin);
    BeginLost(ctx, Observe(ctx, t), probes);
    u := ConcludeProbe(ctx, t + [begin], probes, reply, st, id, now);
  }

  lemma ConcludeProbe(ctx: Context, t: seq<Event>, probes: nat, reply: Reply, st: ServiceStatus, id: Json.Json,
      now: int)
      returns (u: seq<Event>)
    requires Lost(ctx, reply, st, id, now) && Probing(Observe(ctx, t), probes)
    requires probes == 0 ==> Observe(ctx, t).first.None?
    ensures OnlyProbed(Observe(ctx, u), probes + 1)
    ensures Observe(ctx, u).permit == Classified(CONTAINER_FAILURE, Some(id))
  {
    u := t + [Railway(None, None, 0.0, reply)];
    ObserveLast(ctx, t, Railway(None, None, 0.0, reply));
    ReadLost(ctx, Observe(ctx, t), probes, reply, st, id, now);
    u := DateAndConclude(ctx, u, probes, reply, st, id, now);
  }

  lemma DateAndConclude(ctx: Context, t: seq<Event>, probes: nat, reply: Reply, st: ServiceStatus, id: Json.Json,
      now: int)
      returns (u: seq<Event>)
    requires Lost(ctx, reply, st, id, now) && Probing(Observe(ctx, t), probes) && Observe(ctx, t).read == Some(st)
    requires probes == 0 ==> Observe(ctx, t).first.None?
    ensures OnlyProbed(Observe(ctx, u), probes + 1)
    ensures Observe(ctx, u).permit == Classified(CONTAINER_FAILURE, Some(id))
  {
    u := t + [Dated(0.0, now)];
    ObserveLast(ctx, t, Dated(0.0, now));
    DateLost(ctx, Observe(ctx, t), probes, now);
    var e := Probed(st, None, now, CONTAINER_FAILURE);
    ObserveLast(ctx, u, e);
    ConcludeLost(ctx, Observe(ctx, u), probes, reply, st, id, now);
    u := u + [e];
  }

  lemma CallLost(ctx: Context, m: Monitor, id: Json.Json)
    requires OnlyProbed(m, 2) && m.permit == Classified(CONTAINER_FAILURE, Some(id))
    requires !ctx.selfhosted && !ctx.dryRun && !ctx.budgeted
    ensures var n := Next(ctx, m, DeployCalled(id));
      n.lawful && n.deployCalls == 1 && n.first == Some(CONTAINER_FAILURE) && n.permit == MayDeploy(id) && n.end.None?
  {
  }

  lemma RequestLost(ctx: Context, m: Monitor, id: Json.Json)
    requires m.lawful && m.deployCalls == 1 && m.first == Some(CONTAINER_FAILURE) && m.permit == MayDeploy(id)
      && m.end.None?
    requires !ctx.selfhosted && !ctx.budgeted
    ensures var n := Next(ctx, m, Railway(Some(id), None, 0.0, Failed(TimedOut)));
      n.lawful && n.deployCalls == 1 && n.first == Some(CONTAINER_FAILURE)
  {
  }

  lemma RestartLost(ctx: Context, t: seq<Event>, id: Json.Json) returns (u: seq<Event>)
    requires OnlyProbed(Observe(ctx, t), 2) && Observe(ctx, t).permit == Classified(CONTAINER_FAILURE, Some(id))
    requires !ctx.selfhosted && !ctx.dryRun && !ctx.budgeted
    ensures Observe(ctx, u).lawful && Observe(ctx, u).deployCalls == 1
      && Observe(ctx, u).first == Some(CONTAINER_FAILURE)
  {
    var call, request := DeployCalled(id), Railway(Some(id), None, 0.0, Failed(TimedOut));
    ObserveLast(ctx, t, call);
    CallLost(ctx, Observe(ctx, t), id);
    ObserveLast(ctx, t + [call], request);
    RequestLost(ctx, Observe(ctx, t + [call]), id);
    u := t + [call] + [request];
  }

  lemma TwoProbesLost(ctx: Context, reply: Reply, st: ServiceStatus, id: Json.Json, now: int) returns (t: seq<Event>)
    requires Lost(ctx, reply, st, id, now)
    ensures OnlyProbed(Observe(ctx, t), 2) && Observe(ctx, t).permit == Classified(CONTAINER_FAILURE, Some(id))
  {
    t := ProbeLost(ctx, [], 0, reply, st, id, now);
    t := ProbeLost(ctx, t, 1, reply, st, id, now);
  }

  /** What is reported of a timeout. */
  function TimeoutOutcome(alias: string): TargetOutcome {
    TargetOutcome(alias, Some(CONTAINER_FAILURE), NoAction, false, false, Some(Errors.RailwayTimeout),
      Some(Errors.RAILWAY), None)
  }

  lemma TimeoutIsTruthful(ctx: Context, m: Monitor, alias: string, spent: bool)
    requires !ctx.selfhosted && m.first == Some(CONTAINER_FAILURE)
    ensures Orchestrator.Truthful(ctx, m, TimeoutOutcome(alias), spent)
  {
  }

  /**
   * A trace that keeps every rule and ends with the restart request timing out: the truthful
   * outcome says "none", though the deployment restart was called.
   */
  lemma ActionIsLost(ctx: Context, reply: Reply, st: ServiceStatus, id: Json.Json, now: int, alias: string, spent: bool)
      returns (t: seq<Event>, o: TargetOutcome)
    requires Lost(ctx, reply, st, id, now)
    ensures Lawful(ctx, t) && Observe(ctx, t).deployCalls == 1
    ensures Orchestrator.Truthful(ctx, Observe(ctx, t), o, spent) && o.error == Some(Errors.RailwayTimeout)
    ensures o.action == NoAction && Orchestrator.CalledAction(Observe(ctx, t)) == ContainerRestart
  {
    t := TwoProbesLost(ctx, reply, st, id, now);
    t := RestartLost(ctx, t, id);
    o := TimeoutOutcome(alias);
    TimeoutIsTruthful(ctx, Observe(ctx, t), alias, spent);
  }
}
