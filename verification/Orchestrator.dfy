/** One target's bounded recovery: probe, classify, recheck, mutate at most once, verify. */
module Orchestrator {
  import opened Wrappers
  import opened Errors
  import opened HttpPolicy
  import opened Responses
  import opened State
  import opened Outcomes
  import opened Replies
  import opened Trace
  import opened World
  import opened TraceProofs
  import RailwayClient
  import HermesClient

  datatype Settings = Settings(
    selfhosted: bool,
    dryRun: bool,
    deadline: Option<real>,
    healthRetries: int,
    waitAttempts: int,
    waitInterval: real,
    decimal: int -> string)

  datatype Target = Target(alias: string, webui: bool)

  /** The run is watched under its own settings. */
  predicate Agrees(ctx: Context, settings: Settings, target: Target) {
    && ctx.selfhosted == settings.selfhosted && ctx.dryRun == settings.dryRun
    && ctx.budgeted == settings.deadline.Some? && ctx.webui == target.webui && ctx.interval == settings.waitInterval
    && ctx.checks == Times(settings.healthRetries + 1) && ctx.waits == Times(settings.waitAttempts)
  }

  /** How often `range(n)` runs. */
  function Times(n: int): nat {
    if n < 0 then 0 else n
  }

  datatype Recovery = Recovery(recovered: bool, action: Action, deferred: bool)

  /** `n` operations of `k` requests each. */
  function Total(n: nat, k: nat): nat {
    if n == 0 then 0 else Total(n - 1, k) + k
  }

  lemma {:induction false} TotalIsProduct(n: nat, k: nat)
    ensures Total(n, k) == n * k
  {
    if n > 0 { TotalIsProduct(n - 1, k); }
  }

  lemma {:induction false} TotalGrows(m: nat, n: nat, k: nat)
    requires m <= n
    ensures Total(m, k) <= Total(n, k)
  {
    if m < n { TotalGrows(m, n - 1, k); }
  }

  /** The action that matches which mutations were called. */
  function CalledAction(m: Monitor): Action {
    if m.deployCalls > 0 then ContainerRestart else if m.gatewayCalls > 0 then GatewayRestart else NoAction
  }

  /**
   * No mutation the last probe justifies is left out, unless the budget is spent: each is
   * called, or was called before, or (for a container) the status names no deployment. And a
   * gateway restart is followed by a probe.
   */
  predicate NothingWithheld(m: Monitor, spent: bool) {
    || spent
    || (&& (m.verdict == Some(GATEWAY_ONLY_FAILURE) ==> m.gatewayCalls == 1)
        && (m.verdict == Some(CONTAINER_FAILURE) ==>
              m.deployCalls == 1 || m.gatewayCalls == 1 || m.permit == Classified(CONTAINER_FAILURE, None))
        && (m.gatewayCalls == 1 ==> m.verdict.Some?))
  }

  /**
   * What an outcome claims is what the monitor saw; an exception that escaped is reported
   * with no action, whatever was called before it.
   */
  predicate Truthful(ctx: Context, m: Monitor, o: TargetOutcome, spent: bool) {
    && (o.error.None? ==>
          && o.action == CalledAction(m) && m.probes >= 1
          && (o.recovered <==> m.verdict == Some(HEALTHY))
          && (o.deferred <==> m.verdict == Some(TRANSITIONAL) && m.gatewayCalls == 0)
          && (ctx.dryRun || NothingWithheld(m, spent)
            || (ctx.selfhosted && m.gatewayCalls == 1 && o.reason.Some?)))
    && (o.error.Some? ==>
          && o.action == NoAction && !o.recovered && !o.deferred
          && o.reason == Some(ReasonOf(o.error.value)) && o.condition.None?)
    && (!ctx.selfhosted ==>
      o.classification == m.first && (o.error.None? ==> o.reason.None? && o.condition.None?))
    && (ctx.selfhosted ==> if o.error.None? then VerdictTold(ctx, m, o) && ReasonTold(m, o, spent)
      else o.classification.None?)
  }

  /** A self-hosted outcome reports the last verdict; after a restart that was not verified, the one before. */
  predicate VerdictTold(ctx: Context, m: Monitor, o: TargetOutcome) {
    match m.verdict
    case Some(cls) =>
      o.classification == m.verdict && WebJudged(ctx, m, cls)
      && o.condition == ConditionOf(cls, m.health, ctx.ignored, ctx.ops.lower)
    case None =>
      o.classification == Some(GATEWAY_ONLY_FAILURE) && o.condition == Some("gateway_only_failure")
  }

  /** A self-hosted failure gives the code of the last error of the operation that failed, or a timeout. */
  predicate ReasonTold(m: Monitor, o: TargetOutcome, spent: bool) {
    if o.recovered then o.reason.None?
    else if (m.verdict.None? || m.verdict == Some(HOST_UNREACHABLE)) && m.raised.Some? then
      o.reason == Some(ReasonOf(m.raised.value))
    else o.reason.None? || (o.reason == Some(TIMEOUT) && spent)
  }

  class Orchestrator {
    const settings: Settings
    const target: Target
    const world: Outside
    const railway: RailwayClient.Client?
    const hermes: HermesClient.Client

    ghost predicate Ready()
      reads world
    {
      && world.Valid() && hermes.world == world && hermes.Fits() && Agrees(world.ctx, settings, target)
      && (railway != null ==> railway.world == world && (settings.selfhosted || railway.Fits()))
    }

    constructor (settings: Settings, target: Target, world: Outside, railway: RailwayClient.Client?,
        hermes: HermesClient.Client)
      requires world.Valid() && hermes.world == world && hermes.Fits() && Agrees(world.ctx, settings, target)
      requires railway != null ==> railway.world == world && (settings.selfhosted || railway.Fits())
      ensures this.settings == settings && this.target == target && this.world == world
      ensures this.railway == railway && this.hermes == hermes
      ensures Ready()
    {
      this.settings, this.target, this.world, this.railway, this.hermes := settings, target, world, railway, hermes;
    }

    // ----- bounds on one operation

    /** Health checks of one probe. */
    function Checks(): nat {
      Times(settings.healthRetries + 1)
    }

    /** Rounds of waiting for a container. */
    function Waits(): nat {
      Times(settings.waitAttempts)
    }

    /** Railway requests of one status read. */
    function K(): nat {
      if railway == null then 0 else railway.retry.Reads()
    }

    /** Hermes requests of one health probe. */
    function H(): nat {
      4 * Checks()
    }

    /** No mutation was called; at most so many requests to each service were made. */
    ghost predicate Read(a: Monitor, b: Monitor, railwayCalls: nat, hermesCalls: nat) {
      && (a.lawful ==> b.lawful) && b.probes >= a.probes && (a.first.Some? ==> b.first == a.first)
      && b.deployCalls == a.deployCalls && b.gatewayCalls == a.gatewayCalls
      && a.railway <= b.railway <= a.railway + railwayCalls && b.Hermes() <= a.Hermes() + hermesCalls
    }

    // ----- budget helpers

    /** A pause that is owed is owed for the orchestrator's own interval. */
    ghost predicate OwesInterval(m: Monitor) {
      m.debt.Owes? ==> m.debt.raw == settings.waitInterval
    }

    method SleepClipped(b: Budget?, interval: real) returns (ghost left: real)
      requires Ready() && world.OnTime(b) && (world.mon.debt.Owes? ==> world.mon.debt.raw == interval)
      modifies world
      ensures Ready() && world.OnTime(b)
      ensures world.mon.debt.Free?
      ensures b != null ==> b.end - world.clock <= left <= b.end - old(world.clock)
      ensures world.mon.asked == old(world.mon.asked) + Max0(if b == null then interval else Min(interval, left))
      ensures Harmless(old(world.mon), world.mon) && RailwayQuiet(old(world.mon), world.mon)
      ensures HermesQuiet(old(world.mon), world.mon) && Unchecked(old(world.mon), world.mon)
    {
      var d := interval;
      left := 0.0;
      if b != null {
        d := b.Clip(interval);
        left := b.end - world.clock;
      }
      Doze(d, b);
    }

    /** A pause of what the clipping left of it; nothing at all when that is nothing. */
    method Doze(d: real, b: Budget?)
      requires Ready() && world.OnTime(b) && MaySleep(world.ctx, world.mon, Max0(d))
      requires world.mon.debt.Owes? ==> Max0(d) == Clipped(world.mon, world.mon.debt.raw)
      requires b != null ==> Max0(d) <= Max0(b.end - world.clock)
      modifies world
      ensures Ready() && world.OnTime(b) && world.clock >= old(world.clock)
      ensures world.mon.debt.Free? && world.mon.asked == old(world.mon.asked) + Max0(d)
      ensures Harmless(old(world.mon), world.mon) && RailwayQuiet(old(world.mon), world.mon)
      ensures HermesQuiet(old(world.mon), world.mon) && Unchecked(old(world.mon), world.mon)
    {
      if d > 0.0 {
        var took := world.Sleep(d);
      } else {
        world.Record(PauseSkipped);
      }
    }

    /** What is known of the gateway and its web UI stayed the same. */
    static ghost predicate Unchecked(a: Monitor, b: Monitor) {
      b.health == a.health && b.tried == a.tried && b.rejects == a.rejects && b.web == a.web
    }

    // ----- probing

    /** The health check failed once and was tried again as often as the settings say. */
    predicate AllTried(m: Monitor) {
      m.tried == if settings.healthRetries < 0 then 0 else settings.healthRetries + 1
    }

    method HealthProbe(b: Budget?) returns (r: Result<HealthProbe, Error>)
      requires Ready() && world.OnTime(b) && !Unpaused(world.mon) && Fresh(world.mon) && OwesInterval(world.mon)
      modifies world, hermes`session
      ensures Ready() && world.OnTime(b) && OwesInterval(world.mon)
      ensures Harmless(old(world.mon), world.mon) && RailwayQuiet(old(world.mon), world.mon)
      ensures world.mon.downs == old(world.mon.downs)
      ensures world.mon.Hermes() <= old(world.mon.Hermes()) + H()
      ensures r.Ok? ==> world.mon.health == r.value
      ensures old(world.PastEnd(b)) ==> r == Ok(None)
      ensures r == Ok(None) ==> GaveUp(world.ctx, world.mon)
      ensures r == Ok(None) ==> world.mon.expired || AllTried(world.mon)
      ensures r.Err? ==> r.error in {Unexpected, Interrupt}
    {
      for attempt := 0 to Checks()
        invariant Ready() && world.OnTime(b) && (attempt < Checks() ==> !Unpaused(world.mon))
        invariant old(world.PastEnd(b)) ==> attempt == 0 && world.PastEnd(b)
        invariant Harmless(old(world.mon), world.mon) && RailwayQuiet(old(world.mon), world.mon)
        invariant world.mon.downs == old(world.mon.downs) && OwesInterval(world.mon)
        invariant world.mon.Hermes() <= old(world.mon.Hermes()) + 4 * attempt
        invariant world.mon.tried == attempt && world.mon.rejects == 0 && world.mon.health.None?
      {
        var spent := Spent(world, b);
        if spent {
          break;
        }
        var health := hermes.CheckHealth(b);
        if health.Ok? {
          return Ok(Some(health.value));
        }
        if !health.error.IsHermes() {
          return Err(health.error);
        }
        if attempt < settings.healthRetries {
          ghost var left := SleepClipped(b, settings.waitInterval);
        }
      }
      return Ok(None);
    }

    method ServiceStatus(b: Budget?) returns (r: Result<ServiceStatus, Error>)
      requires Ready() && world.OnTime(b) && !settings.selfhosted
      requires world.mon.backoff.None? && world.mon.attempt == 0
      modifies world
      ensures Ready() && world.OnTime(b)
      ensures Harmless(old(world.mon), world.mon) && HermesQuiet(old(world.mon), world.mon)
      ensures old(world.mon.railway) <= world.mon.railway <= old(world.mon.railway) + K()
      ensures r.Ok? ==>
        world.mon.read == Some(r.value) && world.mon.railway > old(world.mon.railway) && Fresh(world.mon)
      ensures r.Err? ==> !r.error.IsHermes()
      ensures r.Err? && railway != null ==>
        railway.retry.maxRetries < 0 || world.PastEnd(b) || RailwayClient.Client.ReadFailed(world.ctx, world.trace)
    {
      if railway == null {
        return Err(Unexpected);
      }
      r := railway.GetServiceStatus(b);
    }

    /** A probe was completed with this classification. */
    static ghost predicate ProbeDone(a: Monitor, b: Monitor, cls: Classification, deployment: Option<Json.Json>) {
      && b.permit == Classified(cls, deployment) && b.verdict == Some(cls)
      && b.probes == a.probes + 1 && b.first == (if a.first.Some? then a.first else Some(cls))
    }

    /** A complete probe: service status, gateway health, classification. */
    method Probe(b: Budget?) returns (r: Result<(ServiceStatus, Classification), Error>)
      requires Ready() && world.OnTime(b) && !settings.selfhosted && MayProbe(world.mon)
      modifies world, hermes`session
      ensures Ready() && world.OnTime(b)
      ensures Read(old(world.mon), world.mon, K(), H())
      ensures r.Err? ==> world.mon.first == old(world.mon.first)
      ensures r.Ok? ==>
        && ProbeDone(old(world.mon), world.mon, r.value.1, r.value.0.restartable)
        && r.value.1 in {HEALTHY, GATEWAY_ONLY_FAILURE, TRANSITIONAL, CONTAINER_FAILURE}
    {
      world.Record(ProbeStarted);
      var status :- ServiceStatus(b);
      var health :- HealthProbe(b);
      r := Conclude(status, health, b);
    }

    /** The classification of what the probe read. */
    method Conclude(status: ServiceStatus, health: HealthProbe, b: Budget?)
      returns (r: Result<(ServiceStatus, Classification), Error>)
      requires Ready() && world.OnTime(b) && !settings.selfhosted
      requires world.mon.read == Some(status) && world.mon.health == health
        && (health.Some? || GaveUp(world.ctx, world.mon))
      modifies world
      ensures Ready() && world.OnTime(b)
      ensures Read(old(world.mon), world.mon, 0, 0)
      ensures r.Err? ==> world.mon.first == old(world.mon.first)
      ensures r.Ok? ==>
        && ProbeDone(old(world.mon), world.mon, r.value.1, r.value.0.restartable)
        && r.value.1 in {HEALTHY, GATEWAY_ONLY_FAILURE, TRANSITIONAL, CONTAINER_FAILURE}
    {
      var now, took := world.WallClock();
      r := ConcludeAt(status, health, now, b);
    }

    /** The classification at a date that was read in this probe. */
    method ConcludeAt(status: ServiceStatus, health: HealthProbe, now: int, b: Budget?)
      returns (r: Result<(ServiceStatus, Classification), Error>)
      requires Ready() && world.OnTime(b) && !settings.selfhosted && world.mon.date == Some(now)
      requires world.mon.read == Some(status) && world.mon.health == health
        && (health.Some? || GaveUp(world.ctx, world.mon))
      modifies world
      ensures Ready() && world.OnTime(b)
      ensures Read(old(world.mon), world.mon, 0, 0)
      ensures r.Err? ==> world.mon.first == old(world.mon.first)
      ensures r.Ok? ==>
        && ProbeDone(old(world.mon), world.mon, r.value.1, r.value.0.restartable)
        && r.value.1 in {HEALTHY, GATEWAY_ONLY_FAILURE, TRANSITIONAL, CONTAINER_FAILURE}
    {
      var cls := Classify(status, health, now, world.ctx.threshold);
      ClassifyFour(status, health, now, world.ctx.threshold);
      if cls.None? {
        return Err(Unexpected);
      }
      world.Record(Probed(status, health, now, cls.value));
      return Ok((status, cls.value));
    }

    // ----- recovery strategies

    /** Railway mode, and not only looking. */
    predicate Acting() {
      !settings.selfhosted && !settings.dryRun
    }

    /** One look at the container: up exactly when a new status says so and the gateway then answered. */
    method ContainerIsUp(b: Budget?) returns (r: Result<bool, Error>)
      requires Ready() && world.OnTime(b) && Acting() && world.mon.gatewayCalls == 0
      requires world.mon.backoff.None? && world.mon.attempt == 0 && !Unpaused(world.mon) && OwesInterval(world.mon)
      modifies world, hermes`session
      ensures Ready() && world.OnTime(b) && OwesInterval(world.mon)
      ensures Looked(old(world.mon), world.mon) && world.mon.downs == old(world.mon.downs)
      ensures r.Ok? ==> RoundFound(world.ctx, world.mon, r.value)
    {
      var status :- ServiceStatus(b);
      var health :- HealthProbe(b);
      return Ok(Up(status) && health.Some?);
    }

    /** The reads of one look at the container. */
    ghost predicate Looked(a: Monitor, b: Monitor) {
      Read(a, b, K(), H()) && b.verdict == a.verdict && b.probes == a.probes && b.first == a.first
    }

    /** As many rounds as the settings say ended without the container up. */
    predicate AllWaited(m: Monitor) {
      m.downs == if settings.waitAttempts < 0 then 0 else settings.waitAttempts
    }

    method WaitContainerUp(b: Budget?) returns (r: Result<bool, Error>)
      requires Ready() && world.OnTime(b) && Acting() && world.mon.gatewayCalls == 0
      requires world.mon.debt.Free? && world.mon.downs == 0
      modifies world, hermes`session
      ensures Ready() && world.OnTime(b)
      ensures Read(old(world.mon), world.mon, Total(Waits(), K()), Total(Waits(), H()))
      ensures world.mon.verdict == old(world.mon.verdict)
      ensures world.mon.probes == old(world.mon.probes) && world.mon.first == old(world.mon.first)
      ensures r == Ok(true) ==> RoundFound(world.ctx, world.mon, true)
      ensures old(world.PastEnd(b)) ==> r == Ok(false)
      ensures r == Ok(false) ==> world.PastEnd(b) || AllWaited(world.mon)
    {
      for attempt := 0 to Waits()
        invariant Ready() && world.OnTime(b) && (attempt < Waits() ==> world.mon.debt.Free?)
        invariant Waiting(old(world.mon), world.mon, attempt)
        invariant old(world.PastEnd(b)) ==> attempt == 0 && world.PastEnd(b)
      {
        WaitingGrows(attempt);
        var ended := WaitStep(b, attempt == settings.waitAttempts - 1);
        if ended.Some? {
          return ended.value;
        }
      }
      return Ok(false);
    }

    /** The wait ends when the budget is spent, the container is up or something raised. */
    method WaitStep(b: Budget?, isLast: bool) returns (r: Option<Result<bool, Error>>)
      requires Ready() && world.OnTime(b) && Acting() && world.mon.debt.Free? && world.mon.gatewayCalls == 0
      modifies world, hermes`session
      ensures Ready() && world.OnTime(b) && Looked(old(world.mon), world.mon)
      ensures old(world.PastEnd(b)) ==> r == Some(Ok(false))
      ensures r == Some(Ok(true)) ==> RoundFound(world.ctx, world.mon, true)
      ensures r == Some(Ok(false)) ==> world.PastEnd(b)
      ensures r.None? ==> world.mon.downs == old(world.mon.downs) + 1 && (!isLast ==> world.mon.debt.Free?)
    {
      var spent := Spent(world, b);
      if spent {
        return Some(Ok(false));
      }
      var up := WaitRound(b, isLast);
      return if up == Ok(false) then None else Some(up);
    }

    /** So many rounds of waiting were made, and none of them found the container up. */
    ghost predicate Waiting(a: Monitor, b: Monitor, rounds: nat) {
      && Read(a, b, Total(rounds, K()), Total(rounds, H())) && b.downs == rounds
      && b.verdict == a.verdict && b.probes == a.probes && b.first == a.first
    }

    lemma WaitingGrows(n: nat)
      requires n < Waits()
      ensures Total(n, K()) + K() <= Total(Waits(), K()) && Total(n, H()) + H() <= Total(Waits(), H())
    {
      TotalGrows(n + 1, Waits(), K());
      TotalGrows(n + 1, Waits(), H());
    }

    /** The look of one round. */
    method BeginRound(b: Budget?) returns (r: Result<bool, Error>)
      requires Ready() && world.OnTime(b) && Acting() && world.mon.debt.Free? && world.mon.gatewayCalls == 0
      modifies world, hermes`session
      ensures Ready() && world.OnTime(b) && OwesInterval(world.mon)
      ensures Looked(old(world.mon), world.mon) && world.mon.downs == old(world.mon.downs)
      ensures r.Ok? ==> RoundFound(world.ctx, world.mon, r.value)
    {
      world.Record(RoundStarted);
      r := ContainerIsUp(b);
    }

    /** One round of waiting: a look, and a pause unless it was the last. */
    method WaitRound(b: Budget?, isLast: bool) returns (r: Result<bool, Error>)
      requires Ready() && world.OnTime(b) && Acting() && world.mon.debt.Free? && world.mon.gatewayCalls == 0
      modifies world, hermes`session
      ensures Ready() && world.OnTime(b) && (r == Ok(false) && !isLast ==> world.mon.debt.Free?)
      ensures Looked(old(world.mon), world.mon)
      ensures r == Ok(true) ==> RoundFound(world.ctx, world.mon, true)
      ensures r == Ok(false) ==> world.mon.downs == old(world.mon.downs) + 1
    {
      var up :- BeginRound(b);
      world.Record(RoundEnded(up));
      if !up && !isLast {
        ghost var left := SleepClipped(b, settings.waitInterval);
      }
      return Ok(up);
    }

    /** `a` to `b` made at most one call of the gateway restart and so many requests. */
    ghost predicate GatewayOnly(a: Monitor, b: Monitor, railwayCalls: nat, hermesCalls: nat) {
      && (a.lawful ==> b.lawful)
      && b.deployCalls == a.deployCalls && b.gatewayCalls <= a.gatewayCalls + 1
      && b.probes >= a.probes && (a.first.Some? ==> b.first == a.first)
      && b.railway <= a.railway + railwayCalls && b.Hermes() <= a.Hermes() + hermesCalls
    }

    /** Requests of a gateway restart operation. */
    function G(): nat {
      4 + 4 * hermes.Polls()
    }

    method DoGatewayRestart(b: Budget?, action: Action) returns (r: Result<Recovery, Error>)
      requires Ready() && world.OnTime(b) && Acting()
      requires world.mon.permit.Classified? && world.mon.permit.cls == GATEWAY_ONLY_FAILURE
        && world.mon.gatewayCalls == 0
      requires world.mon.verdict == Some(GATEWAY_ONLY_FAILURE)
      requires world.mon.probes >= 2
      requires action == if world.mon.deployCalls > 0 then ContainerRestart else GatewayRestart
      modifies world, hermes`session
      ensures Ready() && world.OnTime(b)
      ensures GatewayOnly(old(world.mon), world.mon, K(), G() + H())
      ensures old(world.PastEnd(b)) ==> r == Ok(Recovery(false, CalledAction(world.mon), false))
      ensures r.Ok? ==> r.value.action == CalledAction(world.mon) && !r.value.deferred
      ensures r.Ok? ==> (r.value.recovered <==> world.mon.verdict == Some(HEALTHY))
      ensures r.Ok? ==> world.PastEnd(b) || (world.mon.gatewayCalls == 1 && world.mon.verdict.Some?)
      ensures r.Ok? && world.mon.gatewayCalls == 0 ==> world.mon.verdict == Some(GATEWAY_ONLY_FAILURE)
    {
      var spent := Spent(world, b);
      if spent {
        return Ok(Recovery(false, if action == GatewayRestart then NoAction else action, false));
      }
      var ok :- hermes.RestartGateway(b);
      if !ok {
        return Ok(Recovery(false, action, false));
      }
      var healthy :- Verify(b);
      return Ok(Recovery(healthy, action, false));
    }

    /** After a restart: nothing more once the budget is spent, else a probe decides. */
    method Verify(b: Budget?) returns (r: Result<bool, Error>)
      requires Ready() && world.OnTime(b) && !settings.selfhosted
      modifies world, hermes`session
      ensures Ready() && world.OnTime(b)
      requires world.mon.verdict.None? && MayProbe(world.mon)
      ensures old(world.PastEnd(b)) ==> r == Ok(false)
      ensures Read(old(world.mon), world.mon, K(), H())
      ensures r.Ok? ==>
        (r.value <==> world.mon.verdict == Some(HEALTHY)) && (world.mon.verdict.Some? || world.PastEnd(b))
    {
      var spent := Spent(world, b);
      if spent {
        return Ok(false);
      }
      var probe :- Probe(b);
      return Ok(probe.1 == HEALTHY);
    }

    /** What a recovery reports is what the monitor saw. */
    predicate RecoveryTrue(m: Monitor, r: Recovery, spent: bool) {
      && r.action == CalledAction(m)
      && (r.recovered <==> m.verdict == Some(HEALTHY))
      && (r.deferred <==> m.verdict == Some(TRANSITIONAL) && m.gatewayCalls == 0)
      && NothingWithheld(m, spent)
    }

    /** A recovery that starts with nothing called yet. */
    ghost predicate Recovering(a: Monitor, b: Monitor, railwayCalls: nat, hermesCalls: nat,
        r: Result<Recovery, Error>, spent: bool) {
      && (a.lawful ==> b.lawful) && b.deployCalls <= 1 && b.gatewayCalls <= 1
      && b.probes >= a.probes && (a.first.Some? ==> b.first == a.first)
      && b.railway <= a.railway + railwayCalls && b.Hermes() <= a.Hermes() + hermesCalls
      && (r.Ok? ==> RecoveryTrue(b, r.value, spent))
    }

    method RecoverContainer(b: Budget?) returns (r: Result<Recovery, Error>)
      requires Ready() && world.OnTime(b) && Acting() && world.mon.deployCalls == 0 && world.mon.gatewayCalls == 0
        && world.mon.probes >= 1
      modifies world, hermes`session
      ensures Ready() && world.OnTime(b)
      ensures Recovering(old(world.mon), world.mon, 3 * K() + Total(Waits(), K()) + 1,
        3 * H() + Total(Waits(), H()) + G(), r, world.PastEnd(b))
    {
      var probe :- Probe(b);
      var (status, cls) := probe;
      if cls == HEALTHY {
        return Ok(Recovery(true, NoAction, false));
      }
      if cls == TRANSITIONAL {
        return Ok(Recovery(false, NoAction, true));
      }
      if cls == GATEWAY_ONLY_FAILURE {
        r := DoGatewayRestart(b, GatewayRestart);
        return;
      }
      r := RestartNamed(status.restartable, b);
    }

    /** Restarts the deployment the last status named, if it named one and there is time. */
    method RestartNamed(restartable: Option<Json.Json>, b: Budget?) returns (r: Result<Recovery, Error>)
      requires Ready() && world.OnTime(b) && Acting() && world.mon.deployCalls == 0 && world.mon.gatewayCalls == 0
      requires world.mon.permit == Classified(CONTAINER_FAILURE, restartable)
      requires world.mon.verdict == Some(CONTAINER_FAILURE) && world.mon.probes >= 2
      modifies world, hermes`session
      ensures Ready() && world.OnTime(b)
      ensures restartable.None? || old(world.PastEnd(b)) ==> r == Ok(Recovery(false, NoAction, false))
      ensures Recovering(old(world.mon), world.mon, 2 * K() + Total(Waits(), K()) + 1,
        2 * H() + Total(Waits(), H()) + G(), r, world.PastEnd(b))
    {
      if restartable.None? {
        return Ok(Recovery(false, NoAction, false));
      }
      var spent := Spent(world, b);
      if spent {
        return Ok(Recovery(false, NoAction, false));
      }
      r := RestartContainer(restartable.value, b);
    }

    /** The one restart call; an absent client raises before anything is called. */
    method CallDeploy(id: Json.Json, b: Budget?) returns (r: Result<bool, Error>)
      requires Ready() && world.OnTime(b) && Acting() && MayCall(world.ctx, world.mon) && world.mon.deployCalls == 0
        && world.mon.gatewayCalls == 0
      requires world.mon.permit == Classified(CONTAINER_FAILURE, Some(id)) && world.mon.probes >= 2
      modifies world
      ensures Ready() && world.OnTime(b)
      ensures DeployCalledOnce(old(world.mon), world.mon, r)
      ensures r.Ok? ==> RailwayClient.Client.RestartAnswered(world.trace, id, r.value)
    {
      if railway == null {
        return Err(Unexpected);
      }
      world.Record(DeployCalled(id));
      r := railway.RestartCurrentDeployment(id, b);
    }

    static ghost predicate DeployCalledOnce(a: Monitor, b: Monitor, r: Result<bool, Error>) {
      && (a.lawful ==> b.lawful) && b.gatewayCalls == a.gatewayCalls && b.first == a.first && b.probes == a.probes
      && a.railway <= b.railway <= a.railway + 1 && b.Hermes() == a.Hermes()
      && b.deployCalls <= a.deployCalls + 1
      && (r.Ok? ==> b.deployCalls == a.deployCalls + 1 && b.verdict.None? && b.debt.Free? && b.downs == 0)
    }

    /** The container restart of a justified deployment, and what follows it. */
    method RestartContainer(id: Json.Json, b: Budget?) returns (r: Result<Recovery, Error>)
      requires Ready() && world.OnTime(b) && Acting() && MayCall(world.ctx, world.mon) && world.mon.deployCalls == 0
        && world.mon.gatewayCalls == 0
      requires world.mon.permit == Classified(CONTAINER_FAILURE, Some(id)) && world.mon.probes >= 2
      modifies world, hermes`session
      ensures Ready() && world.OnTime(b)
      ensures Recovering(old(world.mon), world.mon, 2 * K() + Total(Waits(), K()) + 1,
        2 * H() + Total(Waits(), H()) + G(), r, world.PastEnd(b))
      ensures r.Ok? && world.mon.verdict.None? && !world.PastEnd(b) ==>
        RailwayClient.Client.RestartAnswered(world.trace, id, false) || AllWaited(world.mon)
    {
      var ok :- CallDeploy(id, b);
      if !ok {
        return Ok(Recovery(false, ContainerRestart, false));
      }
      var up :- WaitContainerUp(b);
      if !up {
        return Ok(Recovery(false, ContainerRestart, false));
      }
      r := AfterContainer(b);
    }

    /** The container is back: a fresh probe decides whether the gateway needs its one restart. */
    method AfterContainer(b: Budget?) returns (r: Result<Recovery, Error>)
      requires Ready() && world.OnTime(b) && Acting() && world.mon.deployCalls == 1 && world.mon.gatewayCalls == 0
      requires world.mon.verdict.None? && world.mon.probes >= 2 && MayProbe(world.mon)
      modifies world, hermes`session
      ensures Ready() && world.OnTime(b)
      ensures Recovering(old(world.mon), world.mon, 2 * K(), 2 * H() + G(), r, world.PastEnd(b))
      ensures r.Ok? ==> world.PastEnd(b) || world.mon.verdict.Some?
      ensures old(world.PastEnd(b)) ==> r == Ok(Recovery(false, ContainerRestart, false))
    {
      var spent := Spent(world, b);
      if spent {
        return Ok(Recovery(false, ContainerRestart, false));
      }
      var probe :- Probe(b);
      if probe.1 == HEALTHY {
        return Ok(Recovery(true, ContainerRestart, false));
      }
      if probe.1 == TRANSITIONAL {
        return Ok(Recovery(false, ContainerRestart, true));
      }
      if probe.1 == CONTAINER_FAILURE {
        return Ok(Recovery(false, ContainerRestart, false));
      }
      r := DoGatewayRestart(b, ContainerRestart);
    }

    method RecoverGatewayOnly(b: Budget?) returns (r: Result<Recovery, Error>)
      requires Ready() && world.OnTime(b) && Acting() && world.mon.deployCalls == 0 && world.mon.gatewayCalls == 0
        && world.mon.probes >= 1
      modifies world, hermes`session
      ensures Ready() && world.OnTime(b)
      ensures Recovering(old(world.mon), world.mon, 4 * K() + Total(Waits(), K()) + 1,
        4 * H() + Total(Waits(), H()) + G(), r, world.PastEnd(b))
    {
      var probe :- Probe(b);
      if probe.1 == HEALTHY {
        return Ok(Recovery(true, NoAction, false));
      }
      if probe.1 == TRANSITIONAL {
        return Ok(Recovery(false, NoAction, true));
      }
      if probe.1 == CONTAINER_FAILURE {
        r := RecoverContainer(b);
      } else {
        r := DoGatewayRestart(b, GatewayRestart);
      }
    }

    // ----- outcomes

    method Done(cls: Option<Classification>, action: Action, recovered: bool, deferred: bool, error: Option<Error>,
                reason: Option<FailureReason>, condition: Option<string>) returns (o: TargetOutcome)
      requires Ready()
      modifies world
      ensures Ready() && Quiet(old(world.mon), world.mon)
      ensures forall b: Budget? :: old(allocated(b)) && old(world.OnTime(b)) ==> world.OnTime(b)
      ensures world.clock >= old(world.clock)
      ensures o == TargetOutcome(target.alias, cls, action, recovered, deferred, error, reason, condition)
    {
      var now, took := world.Monotonic();
      o := TargetOutcome(target.alias, cls, action, recovered, deferred, error, reason, condition);
    }

    // ----- self-hosted mode

    /** A request to the web UI; a client error counts as no status code. */
    method CheckWebui(b: Budget?) returns (r: Result<Option<int>, Error>)
      requires Ready() && world.OnTime(b) && settings.selfhosted && target.webui && !world.mon.authRaised
      requires world.mon.web.None? && OwnClass(world.ctx, world.mon.health) == HEALTHY
      modifies world
      ensures Ready() && world.OnTime(b)
      ensures Harmless(old(world.mon), world.mon) && RailwayQuiet(old(world.mon), world.mon)
      ensures HermesQuiet(old(world.mon), world.mon) && world.mon.health == old(world.mon.health)
      ensures old(world.PastEnd(b)) ==> r == Ok(None)
      ensures r.Ok? && world.mon.web.None? ==> r.value.None? && world.mon.expired
      ensures r.Ok? && world.mon.web.Some? ==>
        r.value == if world.mon.web.value.Http? then Some(world.mon.web.value.status) else None
    {
      var spent := Spent(world, b);
      if spent {
        return Ok(None);
      }
      var reply, took := world.CallWebui();
      match reply
      case Http(status, _, _, _) => return Ok(Some(status));
      case Failed(fault) =>
        var error := ErrorOf(fault);
        return if error.IsHermes() then Ok(None) else Err(error);
    }

    /** The reason a probe gives: none when it reached the gateway, else its last error's code or a timeout. */
    predicate ProbeReason(m: Monitor, health: HealthProbe, reason: Option<FailureReason>, spent: bool) {
      if health.Some? then reason.None?
      else if m.raised.Some? then reason == Some(ReasonOf(m.raised.value))
      else reason.None? || (reason == Some(TIMEOUT) && spent)
    }

    /** The health checks of a probe are over: answered, used up, out of time, or ended by a rejected login. */
    ghost predicate Settled(m: Monitor) {
      && (m.health.Some? || GaveUp(world.ctx, m) || m.raised == Some(HermesAuth))
      && (m.authRaised ==> m.health.None?)
    }

    /** The health checks of a self-hosted probe: an authentication error ends them. */
    method SelfhostedHealth(b: Budget?) returns (r: Result<(HealthProbe, Option<FailureReason>), Error>)
      requires Ready() && world.OnTime(b) && !world.mon.authRaised && Fresh(world.mon) && world.mon.raised.None?
      requires world.mon.debt.Free?
      modifies world, hermes`session
      ensures Ready() && world.OnTime(b)
      ensures Harmless(old(world.mon), world.mon) && RailwayQuiet(old(world.mon), world.mon)
      ensures world.mon.afterAuth == old(world.mon.afterAuth) && world.mon.web == old(world.mon.web)
      ensures r.Ok? ==> world.mon.health == r.value.0 && Settled(world.mon)
      ensures r.Ok? && r.value.0.None? ==>
        world.mon.expired || world.mon.raised == Some(HermesAuth) || AllTried(world.mon)
      ensures r.Ok? && r.value.0.Some? ==> r.value.0.value.statusOk
      ensures r.Ok? ==> ProbeReason(world.mon, r.value.0, r.value.1, world.PastEnd(b))
      ensures r.Err? ==> r.error in {Unexpected, Interrupt}
    {
      var reason := None;
      for attempt := 0 to Checks()
        invariant Ready() && world.OnTime(b) && !world.mon.authRaised && OwesInterval(world.mon)
        invariant world.mon.tried == attempt && world.mon.rejects == 0 && world.mon.health.None?
        invariant attempt < Checks() ==> !Unpaused(world.mon)
        invariant Harmless(old(world.mon), world.mon) && RailwayQuiet(old(world.mon), world.mon)
        invariant world.mon.afterAuth == old(world.mon.afterAuth) && world.mon.web == old(world.mon.web)
        invariant reason == if world.mon.raised.Some? then Some(ReasonOf(world.mon.raised.value)) else None
      {
        var spent := Spent(world, b);
        if spent {
          return Ok((None, if reason.Some? then reason else Some(TIMEOUT)));
        }
        var health := hermes.CheckHealth(b);
        if health.Ok? {
          return Ok((Some(health.value), None));
        }
        if !health.error.IsHermes() {
          return Err(health.error);
        }
        reason := Some(ReasonOf(health.error));
        if health.error.HermesAuth? {
          return Ok((None, reason));
        }
        if attempt < settings.healthRetries {
          ghost var left := SleepClipped(b, settings.waitInterval);
        }
      }
      return Ok((None, reason));
    }

    /** A complete self-hosted probe and the reason it failed for, if it did. */
    method SelfhostedProbe(b: Budget?) returns (r: Result<(Verdict, Option<FailureReason>), Error>)
      requires Ready() && world.OnTime(b) && settings.selfhosted && !world.mon.authRaised && MayProbe(world.mon)
      modifies world, hermes`session
      ensures Ready() && world.OnTime(b)
      ensures SelfhostedRead(old(world.mon), world.mon)
      ensures r.Ok? ==>
        && ProbeDone(old(world.mon), world.mon, r.value.0.classification, None)
        && r.value.0.classification !in {TRANSITIONAL, CONTAINER_FAILURE}
        && (world.mon.authRaised ==> r.value.0.classification == HOST_UNREACHABLE)
        && WebJudged(world.ctx, world.mon, r.value.0.classification)
        && r.value.0.condition
          == ConditionOf(r.value.0.classification, world.mon.health, world.ctx.ignored, world.ctx.ops.lower)
        && ProbeReason(world.mon, world.mon.health, r.value.1, world.PastEnd(b))
        && (r.value.0.classification == HOST_UNREACHABLE <==> world.mon.health.None?)
        && (r.value.0.classification == GATEWAY_ONLY_FAILURE ==> r.value.0.condition == Some("gateway_only_failure"))
    {
      world.Record(ProbeStarted);
      var probe :- SelfhostedHealth(b);
      var (health, reason) := probe;
      var v :- Judge(health, b);
      return Ok((v, if health.None? then reason else None));
    }

    /** The verdict on what the health checks found, the web UI included. */
    method Judge(health: HealthProbe, b: Budget?) returns (r: Result<Verdict, Error>)
      requires Ready() && world.OnTime(b) && settings.selfhosted && world.mon.health == health
      requires Settled(world.mon) && world.mon.web.None?
      requires health.Some? ==> health.value.statusOk
      modifies world
      ensures Ready() && world.OnTime(b) && (health.None? ==> world.clock == old(world.clock))
      ensures SelfhostedRead(old(world.mon), world.mon) && world.mon.authRaised == old(world.mon.authRaised)
      ensures r.Ok? ==>
        && ProbeDone(old(world.mon), world.mon, r.value.classification, None)
        && r.value.classification !in {TRANSITIONAL, CONTAINER_FAILURE}
        && (health.None? <==> r.value.classification == HOST_UNREACHABLE)
        && world.mon.health == health && world.mon.raised == old(world.mon.raised)
        && WebJudged(world.ctx, world.mon, r.value.classification)
        && r.value.condition == ConditionOf(r.value.classification, health, world.ctx.ignored, world.ctx.ops.lower)
        && (r.value.classification == GATEWAY_ONLY_FAILURE ==> r.value.condition == Some("gateway_only_failure"))
    {
      var v := ComputeSelfhosted(health, world.ctx.ignored, world.ctx.ops.lower);
      ClassOfVerdict(health, world.ctx.ignored, world.ctx.ops.lower);
      if v.classification == HEALTHY && target.webui {
        v :- JudgeWebui(b);
      }
      world.Record(Judged(health, v.classification));
      return Ok(v);
    }

    /** The verdict on a healthy target that has a web UI. */
    method JudgeWebui(b: Budget?) returns (r: Result<Verdict, Error>)
      requires Ready() && world.OnTime(b) && settings.selfhosted && target.webui && !world.mon.authRaised
      requires world.mon.web.None? && OwnClass(world.ctx, world.mon.health) == HEALTHY
      modifies world
      ensures Ready() && world.OnTime(b)
      ensures Harmless(old(world.mon), world.mon) && RailwayQuiet(old(world.mon), world.mon)
      ensures HermesQuiet(old(world.mon), world.mon) && world.mon.health == old(world.mon.health)
      ensures r.Ok? ==>
        && r.value.condition == (if r.value.classification == HEALTHY then None else Some("webui_down"))
        && r.value.classification in {HEALTHY, WEBUI_DOWN} && WebJudged(world.ctx, world.mon, r.value.classification)
        && r.value.condition
          == ConditionOf(r.value.classification, world.mon.health, world.ctx.ignored, world.ctx.ops.lower)
    {
      ClassOfVerdict(world.mon.health, world.ctx.ignored, world.ctx.ops.lower);
      var code :- CheckWebui(b);
      return Ok(ClassifyWebui(code, settings.decimal));
    }

    /** No mutation, no Railway call, and nothing sent to Hermes once a login was rejected. */
    ghost predicate SelfhostedRead(a: Monitor, b: Monitor) {
      && (a.lawful ==> b.lawful) && b.deployCalls == a.deployCalls && b.gatewayCalls == a.gatewayCalls
      && b.railway == a.railway && b.afterAuth == a.afterAuth && b.probes >= a.probes
      && (a.first.Some? ==> b.first == a.first)
    }

    method SelfhostedDone(v: Verdict, action: Action, reason: Option<FailureReason>) returns (o: TargetOutcome)
      requires Ready()
      modifies world
      ensures Ready() && Quiet(old(world.mon), world.mon)
      ensures forall b: Budget? :: old(allocated(b)) && old(world.OnTime(b)) ==> world.OnTime(b)
      ensures world.clock >= old(world.clock)
      ensures o.alias == target.alias && o.action == action && !o.deferred && o.error.None?
      ensures o.recovered <==> v.classification == HEALTHY
      ensures o.classification == Some(v.classification) && o.condition == v.condition
      ensures o.reason == if o.recovered then None else reason
    {
      var healthy := v.classification == HEALTHY;
      o := Done(Some(v.classification), action, healthy, false, None, if healthy then None else reason, v.condition);
    }

    /** The run of a self-hosted target, nothing called yet. */
    ghost predicate SelfhostedRun(a: Monitor, b: Monitor, r: Result<TargetOutcome, Error>, spent: bool) {
      && (a.lawful ==> b.lawful) && b.railway == a.railway && b.deployCalls == a.deployCalls
      && b.gatewayCalls <= a.gatewayCalls + 1 && (settings.dryRun ==> b.gatewayCalls == a.gatewayCalls)
      && b.afterAuth == a.afterAuth
      && (r.Ok? ==> r.value.alias == target.alias && r.value.error.None? && Truthful(world.ctx, b, r.value, spent))
    }

    method SelfhostedOne(b: Budget?) returns (r: Result<TargetOutcome, Error>)
      requires Ready() && world.OnTime(b) && !world.mon.authRaised && world.mon.deployCalls == 0
        && world.mon.gatewayCalls == 0
      requires settings.selfhosted
      modifies world, hermes`session
      ensures Ready() && world.OnTime(b)
      ensures SelfhostedRun(old(world.mon), world.mon, r, world.PastEnd(b))
    {
      var probe :- SelfhostedProbe(b);
      if settings.dryRun || probe.0.classification != GATEWAY_ONLY_FAILURE {
        r := Passive(probe.0, probe.1, b);
        return;
      }
      r := SelfhostedRecheck(b);
    }

    /** The outcome of a run that restarts nothing. */
    method Passive(v: Verdict, reason: Option<FailureReason>, b: Budget?) returns (r: Result<TargetOutcome, Error>)
      requires Ready() && world.OnTime(b) && world.mon.deployCalls == 0 && world.mon.gatewayCalls == 0
      requires settings.selfhosted && world.mon.probes >= 1 && world.mon.verdict == Some(v.classification)
      requires v.classification !in {TRANSITIONAL, CONTAINER_FAILURE}
        && WebJudged(world.ctx, world.mon, v.classification)
      requires v.condition == ConditionOf(v.classification, world.mon.health, world.ctx.ignored, world.ctx.ops.lower)
      requires v.classification == GATEWAY_ONLY_FAILURE ==> settings.dryRun || world.PastEnd(b)
      requires
        || (reason == Some(TIMEOUT) && world.PastEnd(b) && v.classification == GATEWAY_ONLY_FAILURE)
        || (ProbeReason(world.mon, world.mon.health, reason, world.PastEnd(b))
            && (v.classification == HOST_UNREACHABLE <==> world.mon.health.None?))
      modifies world
      ensures Ready() && world.OnTime(b)
      ensures SelfhostedRun(old(world.mon), world.mon, r, world.PastEnd(b))
    {
      var o := SelfhostedDone(v, NoAction, reason);
      return Ok(o);
    }

    /** The fresh-state recheck immediately before the restart. */
    method SelfhostedRecheck(b: Budget?) returns (r: Result<TargetOutcome, Error>)
      requires Ready() && world.OnTime(b) && !world.mon.authRaised && world.mon.deployCalls == 0
        && world.mon.gatewayCalls == 0
      requires settings.selfhosted && !settings.dryRun && world.mon.probes >= 1
      modifies world, hermes`session
      ensures Ready() && world.OnTime(b)
      ensures SelfhostedRun(old(world.mon), world.mon, r, world.PastEnd(b))
    {
      var probe :- SelfhostedProbe(b);
      if probe.0.classification != GATEWAY_ONLY_FAILURE {
        r := Passive(probe.0, probe.1, b);
        return;
      }
      var spent := Spent(world, b);
      if spent {
        r := Passive(probe.0, Some(TIMEOUT), b);
        return;
      }
      r := SelfhostedRestart(probe.0, b);
    }

    /** The one gateway restart of a self-hosted run, and the probe after it. */
    method SelfhostedRestart(v: Verdict, b: Budget?) returns (r: Result<TargetOutcome, Error>)
      requires Ready() && world.OnTime(b) && MayCall(world.ctx, world.mon) && !world.mon.authRaised
        && world.mon.deployCalls == 0 && world.mon.gatewayCalls == 0
      requires v.classification == GATEWAY_ONLY_FAILURE && v.condition == Some("gateway_only_failure")
        && world.mon.permit == Classified(GATEWAY_ONLY_FAILURE, None)
      requires !settings.dryRun && settings.selfhosted && world.mon.probes >= 2
      modifies world, hermes`session
      ensures Ready() && world.OnTime(b)
      ensures SelfhostedRun(old(world.mon), world.mon, r, world.PastEnd(b))
    {
      var ok := hermes.RestartGateway(b);
      if ok.Err? && !ok.error.IsHermes() {
        return Err(ok.error);
      }
      if ok.Err? {
        var o := SelfhostedDone(v, GatewayRestart, Some(ReasonOf(ok.error)));
        return Ok(o);
      }
      var spent := false;
      if ok.value {
        spent := Spent(world, b);
      }
      if !ok.value || spent {
        var o := SelfhostedDone(v, GatewayRestart, None);
        return Ok(o);
      }
      var after :- SelfhostedProbe(b);
      var o := SelfhostedDone(after.0, GatewayRestart, after.1);
      return Ok(o);
    }

    // ----- one target

    /** A Railway-mode run, nothing called yet. */
    ghost predicate RailwayRun(a: Monitor, b: Monitor, r: Result<TargetOutcome, Error>, spent: bool) {
      && (a.lawful ==> b.lawful) && b.deployCalls <= 1 && b.gatewayCalls <= 1
      && (settings.dryRun ==> b.deployCalls == 0 && b.gatewayCalls == 0)
      && b.railway <= a.railway + 5 * K() + Total(Waits(), K()) + 1
      && b.Hermes() <= a.Hermes() + 5 * H() + Total(Waits(), H()) + G()
      && (r.Ok? ==> r.value.alias == target.alias && r.value.error.None? && Truthful(world.ctx, b, r.value, spent))
    }

    /** The guarded work of a Railway-mode run; `cls` is known once the first probe is complete. */
    method RailwayOne(b: Budget?) returns (r: Result<TargetOutcome, Error>, cls: Option<Classification>)
      requires Ready() && world.OnTime(b) && world.mon.deployCalls == 0 && world.mon.gatewayCalls == 0
      requires !settings.selfhosted && world.mon.first.None?
      modifies world, hermes`session
      ensures Ready() && world.OnTime(b)
      ensures RailwayRun(old(world.mon), world.mon, r, world.PastEnd(b))
      ensures cls == world.mon.first
    {
      var probe := Probe(b);
      if probe.Err? {
        return Err(probe.error), None;
      }
      cls := Some(probe.value.1);
      if settings.dryRun || cls == Some(HEALTHY) || cls == Some(TRANSITIONAL) {
        r := JustReport(probe.value.1, b);
      } else {
        r := RecoverAndReport(probe.value.1, b);
      }
    }

    /** The outcome of a run that only probed. */
    method JustReport(cls: Classification, b: Budget?) returns (r: Result<TargetOutcome, Error>)
      requires Ready() && world.OnTime(b) && world.mon.deployCalls == 0 && world.mon.gatewayCalls == 0
      requires !settings.selfhosted && world.mon.probes >= 1 && world.mon.first == Some(cls) == world.mon.verdict
      requires settings.dryRun || cls in {HEALTHY, TRANSITIONAL}
      modifies world
      ensures Ready() && world.OnTime(b) && Quiet(old(world.mon), world.mon)
      ensures r.Ok? && r.value.alias == target.alias && r.value.error.None?
      ensures Truthful(world.ctx, world.mon, r.value, world.PastEnd(b))
    {
      var o := Done(Some(cls), NoAction, cls == HEALTHY, cls == TRANSITIONAL, None, None, None);
      return Ok(o);
    }

    /** The recovery a first classification calls for, and its outcome. */
    method RecoverAndReport(cls: Classification, b: Budget?) returns (r: Result<TargetOutcome, Error>)
      requires Ready() && world.OnTime(b) && Acting() && world.mon.deployCalls == 0 && world.mon.gatewayCalls == 0
      requires world.mon.probes >= 1 && world.mon.first == Some(cls)
      modifies world, hermes`session
      ensures Ready() && world.OnTime(b) && world.mon.first == Some(cls)
      ensures (old(world.mon.lawful) ==> world.mon.lawful) && world.mon.deployCalls <= 1 && world.mon.gatewayCalls <= 1
      ensures world.mon.railway <= old(world.mon.railway) + 4 * K() + Total(Waits(), K()) + 1
      ensures world.mon.Hermes() <= old(world.mon.Hermes()) + 4 * H() + Total(Waits(), H()) + G()
      ensures r.Ok? ==>
        r.value.alias == target.alias && r.value.error.None?
          && Truthful(world.ctx, world.mon, r.value, world.PastEnd(b))
    {
      var rec :- Recover(cls, b);
      var o := Done(Some(cls), rec.action, rec.recovered, rec.deferred, None, None, None);
      return Ok(o);
    }

    method Recover(cls: Classification, b: Budget?) returns (r: Result<Recovery, Error>)
      requires Ready() && world.OnTime(b) && Acting() && world.mon.deployCalls == 0 && world.mon.gatewayCalls == 0
        && world.mon.probes >= 1
      modifies world, hermes`session
      ensures Ready() && world.OnTime(b)
      ensures Recovering(old(world.mon), world.mon, 4 * K() + Total(Waits(), K()) + 1,
        4 * H() + Total(Waits(), H()) + G(), r, world.PastEnd(b))
    {
      if cls == GATEWAY_ONLY_FAILURE {
        r := RecoverGatewayOnly(b);
      } else {
        r := RecoverContainer(b);
      }
    }

    /**
     * One target's run against an arbitrary environment. `factory` is the error of building
     * the Hermes client, if that failed. Only a shutdown signal escapes.
     */
    method RecoverOne(factory: Option<Error>) returns (r: Result<TargetOutcome, Error>)
      requires Ready() && world.trace == [] && world.mon == START
      modifies world, hermes`session
      ensures Ready() && world.mon.lawful && world.mon == Observe(world.ctx, world.trace)
      ensures r.Err? ==> r.error == Interrupt
      ensures r.Ok? ==> r.value.alias == target.alias
      ensures r.Ok? ==> Truthful(world.ctx, world.mon, r.value,
        settings.deadline.Some? && world.clock >= old(world.clock) + settings.deadline.value)
      ensures r.Ok? ==> (r.value.action == CalledAction(world.mon)
        <==> r.value.error.None? || (world.mon.deployCalls == 0 && world.mon.gatewayCalls == 0))
      ensures settings.dryRun ==> world.mon.deployCalls == 0 && world.mon.gatewayCalls == 0
      ensures settings.selfhosted ==> world.mon.railway == 0 && world.mon.afterAuth == 0
      ensures !settings.selfhosted ==>
        && world.mon.railway <= K() * (5 + Waits()) + 1
        && world.mon.Hermes() <= 4 * Checks() * (5 + Waits()) + 4 + 4 * hermes.Polls()
      ensures world.mon.end.Some? <==> settings.deadline.Some?
      ensures settings.deadline.Some? ==>
        && world.clock <= old(world.clock) + Max0(settings.deadline.value) + world.mon.overhead
        && (AllHonoured(world.trace) ==>
              world.clock <= old(world.clock) + Max0(settings.deadline.value) + ReadingTime(world.trace)
                + WebTime(world.trace))
        && (!settings.selfhosted && AllHonoured(world.trace) ==>
              world.clock <= old(world.clock) + Max0(settings.deadline.value) + ReadingTime(world.trace))
    {
      var b := Begin();
      r := Guarded(factory, b);
      ProductBounds();
      world.Audit();
      HonouredOverhead();
    }

    /** The start is read off the clock, and the budget made. */
    method Begin() returns (b: Budget?)
      requires Ready() && world.trace == [] && world.mon == START
      modifies world
      ensures Ready() && world.OnTime(b) && (b != null ==> fresh(b))
      ensures Harmless(START, world.mon) && RailwayQuiet(START, world.mon) && HermesQuiet(START, world.mon)
      ensures b != null ==> settings.deadline.Some? && b.end >= old(world.clock) + settings.deadline.value
      ensures b != null ==> b.end + b.slack - b.base == old(world.clock) + Max0(settings.deadline.value)
    {
      var start, took := world.Monotonic();
      b := null;
      if settings.deadline.Some? {
        b := new Budget(world, settings.deadline.value);
      }
    }

    lemma HonouredOverhead()
      requires Ready() && world.mon.lawful && world.mon == Observe(world.ctx, world.trace)
      ensures settings.deadline.Some? && AllHonoured(world.trace) ==>
        && world.mon.overhead == ReadingTime(world.trace) + WebTime(world.trace)
        && (!settings.selfhosted ==> WebTime(world.trace) == 0.0)
    {
      if settings.deadline.Some? && AllHonoured(world.trace) { OverheadIsReadingTime(world.ctx, world.trace); }
    }

    /** What a whole run may have done, from the monitor's start to its end. */
    ghost predicate RunDone(a: Monitor, b: Monitor, r: Result<TargetOutcome, Error>, spent: bool) {
      && (a.lawful ==> b.lawful)
      && (settings.dryRun ==> b.deployCalls == 0 && b.gatewayCalls == 0)
      && (settings.selfhosted ==> b.railway == a.railway && b.afterAuth == a.afterAuth)
      && (!settings.selfhosted ==>
            && b.railway <= a.railway + 5 * K() + Total(Waits(), K()) + 1
            && b.Hermes() <= a.Hermes() + 5 * H() + Total(Waits(), H()) + G())
      && (r.Ok? ==> r.value.alias == target.alias && Truthful(world.ctx, b, r.value, spent))
    }

    /** The work of either mode, if the client could be built. */
    method Work(factory: Option<Error>, b: Budget?)
        returns (r: Result<TargetOutcome, Error>, cls: Option<Classification>)
      requires Ready() && world.OnTime(b) && !world.mon.authRaised && world.mon.deployCalls == 0
        && world.mon.gatewayCalls == 0
      requires world.mon.first.None?
      modifies world, hermes`session
      ensures Ready() && world.OnTime(b)
      ensures RunDone(old(world.mon), world.mon, r, world.PastEnd(b))
      ensures r.Err? ==> cls == if settings.selfhosted then None else world.mon.first
    {
      cls := None;
      if factory.Some? {
        r := Err(factory.value);
      } else if settings.selfhosted {
        r := SelfhostedOne(b);
      } else {
        r, cls := RailwayOne(b);
      }
    }

    lemma ErrorIsDone(a: Monitor, b: Monitor, c: Monitor, work: Result<TargetOutcome, Error>,
        r: Result<TargetOutcome, Error>, spent: bool)
      requires work.Err? && RunDone(a, b, work, spent) && Quiet(b, c)
      requires r.Ok? && r.value.alias == target.alias && Truthful(world.ctx, c, r.value, spent)
      ensures RunDone(a, c, r, spent)
    {
    }

    /** The outcome of an ordinary exception: no action, whatever was called. */
    method ReportError(error: Error, cls: Option<Classification>, b: Budget?) returns (r: Result<TargetOutcome, Error>)
      requires Ready() && world.OnTime(b) && cls == if settings.selfhosted then None else world.mon.first
      modifies world
      ensures Ready() && world.OnTime(b) && Quiet(old(world.mon), world.mon)
      ensures r.Ok? && r.value.alias == target.alias && Truthful(world.ctx, world.mon, r.value, world.PastEnd(b))
    {
      var o := Done(cls, NoAction, false, false, Some(error), Some(ReasonOf(error)), None);
      return Ok(o);
    }

    /** The mode's work; ordinary exceptions become an outcome and the client is closed. */
    method Guarded(factory: Option<Error>, b: Budget?) returns (r: Result<TargetOutcome, Error>)
      requires Ready() && world.OnTime(b) && !world.mon.authRaised && world.mon.deployCalls == 0
        && world.mon.gatewayCalls == 0
      requires world.mon.first.None?
      modifies world, hermes`session
      ensures Ready() && world.OnTime(b)
      ensures RunDone(old(world.mon), world.mon, r, world.PastEnd(b))
      ensures r.Err? ==> r.error == Interrupt
    {
      var cls;
      r, cls := Work(factory, b);
      if r.Err? && r.error != Interrupt {
        ghost var work, before := r, world.mon;
        r := ReportError(r.error, cls, b);
        ErrorIsDone(old(world.mon), before, world.mon, work, r, world.PastEnd(b));
      }
      if factory.None? {
        hermes.Close();
      }
    }

    lemma ProductBounds()
      ensures 5 * K() + Total(Waits(), K()) == K() * (5 + Waits())
      ensures 5 * H() + Total(Waits(), H()) == 4 * Checks() * (5 + Waits())
    {
      TotalIsProduct(Waits(), K());
      TotalIsProduct(Waits(), H());
    }
  }
}
