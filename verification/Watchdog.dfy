/** A run over all selected targets, each isolated from the others. */
module Watchdog {
  import opened Wrappers
  import opened Errors
  import opened State
  import opened Outcomes
  import opened HttpPolicy
  import opened Trace
  import opened TraceProofs
  import opened World
  import Orchestrator
  import RailwayClient
  import HermesClient

  /** One target with everything its run meets: its scope, its environment and how its client is built. */
  datatype Job = Job(target: Orchestrator.Target, ctx: Context, script: nat -> Answer, clock: real,
      factory: Option<Error>)

  /** Every job is watched under the settings of the run and the limits of its clients. */
  ghost predicate Suits(settings: Orchestrator.Settings, job: Job) {
    && Orchestrator.Agrees(job.ctx, settings, job.target) && job.ctx.retry.base >= 0.0
  }

  /** What a run leaves behind: its trace and when it ended. */
  datatype Record = Record(trace: seq<Event>, end: real)

  /** The outcome of a target's run tells what its trace shows. */
  ghost predicate Borne(settings: Orchestrator.Settings, job: Job, run: Record, o: TargetOutcome) {
    && o.alias == job.target.alias
    && Orchestrator.Truthful(job.ctx, Observe(job.ctx, run.trace), o,
         settings.deadline.Some? && run.end >= job.clock + settings.deadline.value)
  }

  /** Every rule was kept, and nothing was asked for beyond the bounds of the settings. */
  ghost predicate Bounded(ctx: Context, t: seq<Event>) {
    var m := Observe(ctx, t);
    && m.lawful
    && (ctx.dryRun ==> forall i | 0 <= i < |t| :: !IsMutation(t[i]))
    && (ctx.selfhosted ==> (forall i | 0 <= i < |t| :: !t[i].Railway?) && m.afterAuth == 0)
    && (!ctx.selfhosted ==>
          && m.railway <= ctx.retry.Reads() * (5 + ctx.waits) + 1
          && m.Hermes() <= 4 * ctx.checks * (5 + ctx.waits) + 4 + 4 * ctx.polls)
  }

  /** A run that began at `start` ends in time if what it waited for kept to the time it was given. */
  ghost predicate EndsInTime(settings: Orchestrator.Settings, t: seq<Event>, start: real, end: real) {
    settings.deadline.Some? && AllHonoured(t) ==>
      end <= start + Max0(settings.deadline.value) + ReadingTime(t) + if settings.selfhosted then WebTime(t) else 0.0
  }

  lemma LawfulIsBounded(ctx: Context, t: seq<Event>)
    requires Observe(ctx, t).lawful
    ensures ctx.dryRun ==> forall i | 0 <= i < |t| :: !IsMutation(t[i])
    ensures ctx.selfhosted ==> forall i | 0 <= i < |t| :: !t[i].Railway?
  {
    forall i | 0 <= i < |t| ensures (ctx.dryRun ==> !IsMutation(t[i])) && (ctx.selfhosted ==> !t[i].Railway?) {
      if ctx.dryRun { DryRunOnlyLooks(ctx, t, i); }
      ModesStayApart(ctx, t, i);
    }
  }

  /** What a run says of its requests, `k` for a status read, in the limits of its scope. */
  lemma KeptIsBounded(ctx: Context, t: seq<Event>, k: nat)
    requires Observe(ctx, t).lawful && (k == 0 || k == ctx.retry.Reads())
    requires ctx.selfhosted ==> Observe(ctx, t).afterAuth == 0
    requires !ctx.selfhosted ==>
      && Observe(ctx, t).railway <= k * (5 + ctx.waits) + 1
      && Observe(ctx, t).Hermes() <= 4 * ctx.checks * (5 + ctx.waits) + 4 + 4 * ctx.polls
    ensures Bounded(ctx, t)
  {
    LawfulIsBounded(ctx, t);
    NoneIsLeast(ctx.retry.Reads(), 5 + ctx.waits);
  }

  lemma NoneIsLeast(n: nat, rounds: nat)
    ensures 0 * rounds <= n * rounds
  {
  }

  ghost predicate WithinBounds(settings: Orchestrator.Settings, job: Job, run: Record) {
    Bounded(job.ctx, run.trace) && EndsInTime(settings, run.trace, job.clock, run.end)
  }

  /** The clients and the world of one job. */
  method Prepare(settings: Orchestrator.Settings, railwayClient: bool, job: Job)
      returns (one: Orchestrator.Orchestrator)
    requires Suits(settings, job)
    ensures fresh(one) && fresh(one.world) && fresh(one.hermes) && one.Ready()
    ensures one.settings == settings && one.target == job.target && one.world.ctx == job.ctx
    ensures one.hermes.Polls() == job.ctx.polls && (one.railway != null ==> one.railway.retry == job.ctx.retry)
    ensures one.world.trace == [] && one.world.mon == START && one.world.clock == job.clock
  {
    var world := new Outside(job.ctx, job.script, job.clock);
    var railway: RailwayClient.Client? := null;
    if railwayClient {
      railway := new RailwayClient.Client(world, job.ctx.retry);
    }
    var hermes := new HermesClient.Client(world, job.ctx.polls, job.ctx.pollInterval);
    one := new Orchestrator.Orchestrator(settings, job.target, world, railway, hermes);
  }

  /** The run of one job against its own world. */
  method RunOne(settings: Orchestrator.Settings, railwayClient: bool, job: Job)
    returns (r: Result<TargetOutcome, Error>, ghost run: Record)
    requires Suits(settings, job)
    ensures WithinBounds(settings, job, run)
    ensures r.Err? ==> r.error == Interrupt
    ensures r.Ok? ==> Borne(settings, job, run, r.value)
  {
    var one := Prepare(settings, railwayClient, job);
    r, run := Carry(settings, job, one);
  }

  /** The run itself. */
  method Carry(settings: Orchestrator.Settings, job: Job, one: Orchestrator.Orchestrator)
      returns (r: Result<TargetOutcome, Error>, ghost run: Record)
    requires Suits(settings, job) && one.Ready() && one.settings == settings && one.target == job.target
    requires one.world.ctx == job.ctx && one.hermes.Polls() == job.ctx.polls
    requires one.railway != null ==> one.railway.retry == job.ctx.retry
    requires one.world.trace == [] && one.world.mon == START && one.world.clock == job.clock
    modifies one.world, one.hermes
    ensures WithinBounds(settings, job, run)
    ensures r.Err? ==> r.error == Interrupt
    ensures r.Ok? ==> Borne(settings, job, run, r.value)
  {
    r := one.RecoverOne(job.factory);
    run := Record(one.world.trace, one.world.clock);
    KeptIsBounded(job.ctx, run.trace, one.K());
  }

  ghost predicate AllWithinBounds(settings: Orchestrator.Settings, jobs: seq<Job>, runs: seq<Record>) {
    |runs| <= |jobs| && forall i | 0 <= i < |runs| :: WithinBounds(settings, jobs[i], runs[i])
  }

  lemma BoundsAppend(settings: Orchestrator.Settings, jobs: seq<Job>, runs: seq<Record>, run: Record)
    requires AllWithinBounds(settings, jobs, runs) && |runs| < |jobs| && WithinBounds(settings, jobs[|runs|], run)
    ensures AllWithinBounds(settings, jobs, runs + [run])
  {
  }

  lemma BorneAppend(settings: Orchestrator.Settings, jobs: seq<Job>, runs: seq<Record>, outcomes: seq<TargetOutcome>,
      run: Record, o: TargetOutcome)
    requires AllBorne(settings, jobs, runs, outcomes) && |runs| < |jobs| && Borne(settings, jobs[|runs|], run, o)
    ensures AllBorne(settings, jobs, runs + [run], outcomes + [o])
  {
  }

  ghost predicate AllBorne(settings: Orchestrator.Settings, jobs: seq<Job>, runs: seq<Record>,
      outcomes: seq<TargetOutcome>) {
    && |outcomes| == |runs| <= |jobs|
    && forall i | 0 <= i < |runs| :: Borne(settings, jobs[i], runs[i], outcomes[i])
  }

  /** The run ended on a probe that found the target well, or a deployment on its way. */
  ghost predicate Well(job: Job, run: Record, o: TargetOutcome) {
    var m := Observe(job.ctx, run.trace);
    o.error.None? && (m.verdict == Some(HEALTHY) || (m.verdict == Some(TRANSITIONAL) && m.gatewayCalls == 0))
  }

  /** Exit code 0 is given exactly when every run ended well. */
  lemma ExitCodeIsBorne(settings: Orchestrator.Settings, jobs: seq<Job>, runs: seq<Record>,
      outcomes: seq<TargetOutcome>)
    requires AllBorne(settings, jobs, runs, outcomes)
    ensures ExitCode(outcomes) == 0 <==> forall i | 0 <= i < |runs| :: Well(jobs[i], runs[i], outcomes[i])
  {
    forall i | 0 <= i < |runs|
      ensures Well(jobs[i], runs[i], outcomes[i]) <==> outcomes[i].recovered || outcomes[i].deferred
    {
      assert Borne(settings, jobs[i], runs[i], outcomes[i]);
    }
  }

  /**
   * One outcome for every target, in order, whatever its environment does; a run only fails
   * as a whole on a shutdown signal.
   */
  method Run(settings: Orchestrator.Settings, railwayClient: bool, jobs: seq<Job>)
    returns (r: Result<seq<TargetOutcome>, Error>, ghost runs: seq<Record>)
    requires forall i | 0 <= i < |jobs| :: Suits(settings, jobs[i])
    ensures r.Err? ==> r.error == Interrupt
    ensures |runs| == |jobs| && AllWithinBounds(settings, jobs, runs)
    ensures r.Ok? ==> AllBorne(settings, jobs, runs, r.value)
  {
    var outcomes: seq<TargetOutcome> := [];
    var failed := false;
    runs := [];
    for n := 0 to |jobs|
      invariant |runs| == n && AllWithinBounds(settings, jobs, runs)
      invariant !failed ==> AllBorne(settings, jobs, runs, outcomes)
    {
      ghost var run;
      var one;
      one, run := RunOne(settings, railwayClient, jobs[n]);
      BoundsAppend(settings, jobs, runs, run);
      if one.Ok? && !failed { BorneAppend(settings, jobs, runs, outcomes, run, one.value); }
      runs := runs + [run];
      if one.Ok? {
        outcomes := outcomes + [one.value];
      } else {
        failed := true;
      }
    }
    r := if failed then Err(Interrupt) else Ok(outcomes);
  }
}
