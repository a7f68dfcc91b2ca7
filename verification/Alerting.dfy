/**
 * From what a run found to whether anyone is told: the engine's outcome, the condition signature
 * and the alert automaton together.
 */
module Alerting {
  import opened Wrappers
  import opened Responses
  import opened State
  import opened StringOrder
  import opened Outcomes
  import opened Notify
  import opened NotifyProofs
  import opened ReportProofs
  import opened Trace
  import Orchestrator

  /** Both targets fail in one way: by their web UI, or by what the probes read. */
  ghost predicate SameTrouble(c: Classification, h: HealthProbe, d: Classification, k: HealthProbe, ctx: Context) {
    && (c == WEBUI_DOWN <==> d == WEBUI_DOWN)
    && (c != WEBUI_DOWN ==> SameFailure(h, k, ctx.ignored, ctx.ops.lower))
  }

  /** A self-hosted outcome that reports this classification of this health as a failure. */
  ghost predicate FailureOf(o: TargetOutcome, cls: Classification, h: HealthProbe, ctx: Context) {
    && !o.recovered && !o.deferred && cls != HEALTHY && JudgedOn(ctx, h, cls)
    && o.condition == ConditionOf(cls, h, ctx.ignored, ctx.ops.lower)
  }

  /**
   * Every failure a self-hosted run reports without an escaped exception is of this kind, on
   * the health its last probe read (or, after a restart that was not verified, a gateway failure).
   */
  lemma RunFailureIsJudged(ctx: Context, m: Monitor, o: TargetOutcome, spent: bool)
    requires ctx.selfhosted && Orchestrator.Truthful(ctx, m, o, spent) && o.error.None?
    requires !o.recovered && !o.deferred
    ensures FailureOf(o, FoundClass(m), FoundHealth(m), ctx)
  {
  }

  /** The last verdict, or the gateway failure a restart was called for that nothing verified. */
  function FoundClass(m: Monitor): Classification {
    if m.verdict.Some? then m.verdict.value else GATEWAY_ONLY_FAILURE
  }

  /** The health that classification rests on. */
  function FoundHealth(m: Monitor): HealthProbe {
    if m.verdict.Some? then m.health else Some(HealthResult(true, false, []))
  }

  lemma ConditionIsNonempty(cls: Classification, h: HealthProbe, ctx: Context)
    requires cls != HEALTHY && JudgedOn(ctx, h, cls)
    ensures ConditionOf(cls, h, ctx.ignored, ctx.ops.lower).Some?
    ensures ConditionOf(cls, h, ctx.ignored, ctx.ops.lower).value != ""
  {
    ClassOfVerdict(h, ctx.ignored, ctx.ops.lower);
    SignatureOfVerdict(h, ctx.ignored, ctx.ops.lower);
    assert DEGRADED_PREFIX[0] == 'p' && "host_unreachable"[0] == 'h' && "gateway_only_failure"[0] == 'g'
      && "webui_down"[0] == 'w';
  }

  lemma ConditionIsTrouble(c: Classification, h: HealthProbe, d: Classification, k: HealthProbe, ctx: Context)
    requires c != HEALTHY && d != HEALTHY && JudgedOn(ctx, h, c) && JudgedOn(ctx, k, d)
    requires CommaFreeNames(h) && CommaFreeNames(k)
    ensures ConditionOf(c, h, ctx.ignored, ctx.ops.lower) == ConditionOf(d, k, ctx.ignored, ctx.ops.lower)
       <==> SameTrouble(c, h, d, k, ctx)
  {
    ConditionIsSignature(h, k, ctx.ignored, ctx.ops.lower);
    if c == WEBUI_DOWN && d != WEBUI_DOWN { NotWebui(d, k, ctx); }
    if d == WEBUI_DOWN && c != WEBUI_DOWN { NotWebui(c, h, ctx); }
  }

  lemma NotWebui(cls: Classification, h: HealthProbe, ctx: Context)
    requires cls != HEALTHY && cls != WEBUI_DOWN && JudgedOn(ctx, h, cls)
    ensures ConditionOf(cls, h, ctx.ignored, ctx.ops.lower) != Some("webui_down")
  {
    ClassOfVerdict(h, ctx.ignored, ctx.ops.lower);
    SignatureOfVerdict(h, ctx.ignored, ctx.ops.lower);
    FixedConditions(if h.Some? then Join(Sort(Names(Failing(h.value.platforms, ctx.ignored, ctx.ops.lower)))) else "");
    assert "host_unreachable"[0] == 'h' && "gateway_only_failure"[0] == 'g' && "webui_down"[0] == 'w';
  }

  /** The hash does not confuse the two conditions. */
  predicate ToldApart(cfg: Config, a: Option<string>, b: Option<string>) {
    a.Some? && b.Some? && cfg.hash(a.value) == cfg.hash(b.value) ==> a == b
  }

  /**
   * Of two failures in a row the second is announced exactly when it is another failure:
   * another kind or another set of failing platforms, and never for other texts.
   */
  lemma AnnouncedIffFailsDifferently(cfg: Config, v: View, ctx: Context, o: TargetOutcome, c: Classification,
      h: HealthProbe, p: TargetOutcome, d: Classification, k: HealthProbe)
    requires cfg.store && FailureOf(o, c, h, ctx) && FailureOf(p, d, k, ctx)
    requires CommaFreeNames(h) && CommaFreeNames(k)
    requires ToldApart(cfg, o.condition, p.condition)
    ensures var w := Auto(cfg, v, o);
      Incidents(Auto(cfg, w, p).emails)
      == Incidents(w.emails) + if SameTrouble(c, h, d, k, ctx) then 0 else 1
  {
    var w := Auto(cfg, v, o);
    ConditionIsTrouble(c, h, d, k, ctx);
    ConditionIsNonempty(c, h, ctx);
    ConditionIsNonempty(d, k, ctx);
    EmailsExactlyOnChange(cfg, v, o, cfg.hash(o.condition.value));
    EmailsExactlyOnChange(cfg, w, p, cfg.hash(p.condition.value));
  }

  lemma {:induction false} AutoRunsLast(cfg: Config, v: View, runs: seq<seq<TargetOutcome>>, run: seq<TargetOutcome>,
      b: string)
    ensures AutoRuns(cfg, v, runs + [run], b) == AutoRun(cfg, AutoRuns(cfg, v, runs, b), run, b)
    decreases |runs|
  {
    if runs == [] {
      assert [] + [run] == [run] && [run][1..] == [];
    } else {
      assert (runs + [run])[1..] == runs[1..] + [run];
      AutoRunsLast(cfg, AutoRun(cfg, v, runs[0], b), runs[1..], run, b);
    }
  }

  /** A run that reports this failure of the alias, and has nothing else to say about it. */
  ghost predicate RunFails(cfg: Config, run: seq<TargetOutcome>, b: string, i: nat, c: Classification, h: HealthProbe,
      ctx: Context) {
    && SoleOutcome(run, b, i) && FailureOf(run[i], c, h, ctx) && CommaFreeNames(h)
    && !(cfg.selfhosted && HostDown(run))
  }

  lemma RunFollowsOutcome(cfg: Config, v: View, run: seq<TargetOutcome>, aliases: set<string>, b: string, i: nat,
                          c: Classification, h: HealthProbe, ctx: Context)
    requires RunFails(cfg, run, b, i, c, h, ctx) && Watched(run, aliases)
    ensures AutoRun(cfg, v, run, b) == Auto(cfg, v, run[i])
  {
    assert run[i].alias != HOST_ALIAS;
    SoleOutcomeDecides(cfg, v, run, b, i);
  }

  /**
   * The same for runs: after any runs without delivery faults, when two runs in a row report a
   * failure of a target, the second sends an incident email exactly when it is another failure.
   */
  lemma RunsAlertIffFailsDifferently(cfg: Config, env: Env, aliases: set<string>, box: Box,
      before: seq<seq<TargetOutcome>>, r: seq<TargetOutcome>, i: nat, c: Classification, h: HealthProbe,
      s: seq<TargetOutcome>, j: nat, d: Classification, k: HealthProbe, b: string, ctx: Context)
    requires Setting(cfg, env, aliases) && FaultFree(env) && cfg.store && b in aliases && AllProper(cfg, box, aliases)
    requires AllWatched(before + [r] + [s], aliases)
    requires RunFails(cfg, r, b, i, c, h, ctx) && RunFails(cfg, s, b, j, d, k, ctx)
    requires ToldApart(cfg, r[i].condition, s[j].condition)
    ensures Incidents(V(cfg, Runs(cfg, env, box, before + [r] + [s]), b).emails)
         == Incidents(V(cfg, Runs(cfg, env, box, before + [r]), b).emails)
            + if SameTrouble(c, h, d, k, ctx) then 0 else 1
  {
    var v := V(cfg, box, b);
    var all := before + [r] + [s];
    assert all[|before|] == r && all[|before| + 1] == s;
    assert Watched(r, aliases) && Watched(s, aliases);
    forall n | 0 <= n < |before + [r]| ensures Watched((before + [r])[n], aliases) {
      assert (before + [r])[n] == all[n];
    }
    RunsRefineAutomaton(cfg, env, aliases, box, before + [r], b);
    RunsRefineAutomaton(cfg, env, aliases, box, all, b);
    AutoRunsLast(cfg, v, before, r, b);
    AutoRunsLast(cfg, v, before + [r], s, b);
    var u := AutoRuns(cfg, v, before, b);
    RunFollowsOutcome(cfg, u, r, aliases, b, i, c, h, ctx);
    RunFollowsOutcome(cfg, Auto(cfg, u, r[i]), s, aliases, b, j, d, k, ctx);
    AnnouncedIffFailsDifferently(cfg, u, ctx, r[i], c, h, s[j], d, k);
  }
}
