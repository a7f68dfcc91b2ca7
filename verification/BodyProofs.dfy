/** What the probes and restarts of a lawful trace rest on, in the bodies that were read. */
module BodyProofs {
  import opened Wrappers
  import opened Json
  import Responses
  import opened State
  import opened Replies
  import opened Trace
  import opened TraceProofs
  import opened StatusBody
  import opened HealthBody

  /** A status read of Railway whose body was read, with no new probe begun before `p`. */
  predicate ReadFor(t: seq<Event>, k: nat, p: nat) {
    && k < p < |t| && t[k].Railway? && t[k].restart.None? && DataOf(t[k].reply).Some?
    && forall n | k < n < p :: !t[n].ProbeStarted?
  }

  function BodyAt(t: seq<Event>, k: nat): seq<(string, Json)>
    requires k < |t| && t[k].Railway? && DataOf(t[k].reply).Some?
  {
    DataOf(t[k].reply).value
  }

  /** The status of a probe is what was last read in it. */
  lemma ProbeReadStatus(ctx: Context, t: seq<Event>, p: nat) returns (k: nat)
    requires Lawful(ctx, t) && p < |t| && t[p].Probed?
    ensures ReadFor(t, k, p) && ParseStatusAt(ctx, t, k) == Some(t[p].status)
    ensures Classify(t[p].status, t[p].health, t[p].now, ctx.threshold) == Some(t[p].cls)
  {
    LawfulAt(ctx, t, p);
    k := ReadComesFromReply(ctx, t[..p]);
    assert forall n | 0 <= n < p :: t[..p][n] == t[n];
  }

  function ParseStatusAt(ctx: Context, t: seq<Event>, k: nat): Option<Responses.ServiceStatus>
    requires k < |t| && t[k].Railway? && DataOf(t[k].reply).Some?
  {
    Responses.ParseStatus(ctx.ops, BodyAt(t, k), ctx.scope)
  }

  /** The health of a probe is what the gateway answered in it, if it did. */
  lemma ProbeReadHealth(ctx: Context, t: seq<Event>, p: nat) returns (h: nat)
    requires Lawful(ctx, t) && p < |t| && (t[p].Probed? || t[p].Judged?) && t[p].health.Some?
    ensures h < p && t[h].StatusRead? && Answers(t[h].reply) && HealthOf(t[h].reply) == t[p].health
    ensures GatewayUp(t[p].health) <==> SaysRunning(t[h].reply.body.value)
    ensures forall n | h < n < p :: !t[n].ProbeStarted? && !t[n].StatusRead?
  {
    ProbedOnRead(ctx, t, p);
    h := HealthComesFromReply(ctx, t[..p]);
    assert forall n | 0 <= n < p :: t[..p][n] == t[n];
    HealthIsRead(t[h].reply);
  }

  /** The classification of a probe, in terms of the body that was read in it. */
  lemma ProbeRestsOnBody(ctx: Context, t: seq<Event>, p: nat) returns (k: nat)
    requires Lawful(ctx, t) && p < |t| && t[p].Probed?
    ensures ReadFor(t, k, p)
    ensures var data, moved := BodyAt(t, k), LastMoved(ctx.ops, BodyAt(t, k));
      && IsOwn(data, ctx.scope) && Readable(data)
      && (t[p].cls == HEALTHY <==> ShowsUp(ctx.ops, data) && GatewayUp(t[p].health))
      && (t[p].cls == GATEWAY_ONLY_FAILURE <==>
            ShowsUp(ctx.ops, data) && t[p].health.Some? && !GatewayUp(t[p].health))
      && (t[p].cls == TRANSITIONAL <==>
            && UnderWay(ctx.ops, data) && moved.Some? && moved.value.aware
            && t[p].now <= moved.value.seconds + ctx.threshold)
      && (t[p].cls == CONTAINER_FAILURE <==>
            if UnderWay(ctx.ops, data) then
              moved.None? || (moved.value.aware && t[p].now > moved.value.seconds + ctx.threshold)
            else !ShowsUp(ctx.ops, data) || t[p].health.None?)
  {
    k := ProbeReadStatus(ctx, t, p);
    BodyDecides(ctx.ops, BodyAt(t, k), ctx.scope, t[p].health, t[p].now, ctx.threshold);
  }

  /**
   * A deployment is restarted only on its probe's own body: the one the body names for a restart,
   * never while a deployment moves within the threshold, and never while the container shows up
   * unless every health check of that probe was made and failed.
   */
  lemma DeployRestsOnBody(ctx: Context, t: seq<Event>, i: nat) returns (k: nat, p: nat, q: nat)
    requires Lawful(ctx, t) && i < |t| && t[i].DeployCalled?
    ensures ReadFor(t, k, p) && DirectlyBefore(t, p, i) && t[p].Probed?
    ensures IsOwn(BodyAt(t, k), ctx.scope) && NamesForRestart(BodyAt(t, k), Some(t[i].id))
    ensures var moved := LastMoved(ctx.ops, BodyAt(t, k));
      UnderWay(ctx.ops, BodyAt(t, k)) ==>
        moved.None? || (moved.value.aware && t[p].now > moved.value.seconds + ctx.threshold)
    ensures ShowsUp(ctx.ops, BodyAt(t, k)) ==>
      t[p].health.None? && q <= p && Raised(t[..p], q) == ctx.checks && forall n | q <= n < p :: !t[n].ProbeStarted?
  {
    p, q := UpIsRestartedOnlyUnreached(ctx, t, i);
    k := ProbeReadStatus(ctx, t, p);
    NamedByProbe(ctx, t, i, p);
    BodyDecides(ctx.ops, BodyAt(t, k), ctx.scope, t[p].health, t[p].now, ctx.threshold);
    ActiveIsParsed(ctx.ops, BodyAt(t, k), ctx.scope);
    UpIsParsed(ctx.ops, BodyAt(t, k), ctx.scope);
  }

  /** The probe right before the call is the one that justified it. */
  lemma NamedByProbe(ctx: Context, t: seq<Event>, i: nat, p: nat)
    requires Lawful(ctx, t) && i < |t| && t[i].DeployCalled? && DirectlyBefore(t, p, i) && t[p].Probed?
    ensures t[p].cls == CONTAINER_FAILURE && t[p].status.restartable == Some(t[i].id)
  {
    var k := DeployIsJustified(ctx, t, i);
    assert !t[p].Tick? && !t[k].Tick?;
    assert k == p;
    LawfulAt(ctx, t, p);
  }

  /** The gateway is restarted only after it answered, in the same probe, that it does not run. */
  lemma GatewaySaidDown(ctx: Context, t: seq<Event>, i: nat) returns (h: nat)
    requires Lawful(ctx, t) && i < |t| && t[i].GatewayCalled?
    ensures h < i && t[h].StatusRead? && Answers(t[h].reply) && !SaysRunning(t[h].reply.body.value)
    ensures forall n | h < n < i :: !t[n].ProbeStarted? && !t[n].StatusRead?
  {
    h := GatewayDownWasRead(ctx, t, i);
    HealthIsRead(t[h].reply);
  }

  /**
   * After a container restart the next probe begins only once a body has shown a running instance,
   * not stopped, of a deployment that succeeded, and the gateway has answered after that.
   */
  lemma UpWasShown(ctx: Context, t: seq<Event>, d: nat, i: nat) returns (k: nat, h: nat)
    requires Lawful(ctx, t) && d < i < |t| && t[d].DeployCalled? && t[i].ProbeStarted?
    requires forall n | d < n < i :: !t[n].Probed? && !t[n].Judged? && !t[n].GatewayCalled?
    ensures d < k < h < i && t[k].Railway? && t[k].restart.None? && DataOf(t[k].reply).Some?
    ensures IsOwn(BodyAt(t, k), ctx.scope) && InstanceRuns(ctx.ops, BodyAt(t, k)) && !Stopped(BodyAt(t, k))
    ensures Says(ctx.ops, Field(Latest(BodyAt(t, k)), "status"), {"SUCCESS"})
    ensures t[h].StatusRead? && Answers(t[h].reply)
  {
    k, h := ProbeAfterRestartSawUp(ctx, t, d, i);
    ReadableIsParsed(ctx.ops, BodyAt(t, k), ctx.scope);
    LatestIsParsed(ctx.ops, BodyAt(t, k), ctx.scope);
    ActiveIsParsed(ctx.ops, BodyAt(t, k), ctx.scope);
    HealthIsRead(t[h].reply);
  }

  /** The classification of a self-hosted probe that was answered, in terms of the answer. */
  lemma JudgedOnReply(ctx: Context, t: seq<Event>, p: nat) returns (h: nat)
    requires Lawful(ctx, t) && p < |t| && t[p].Judged? && t[p].health.Some?
    ensures h < p && t[h].StatusRead? && Answers(t[h].reply) && forall n | h < n < p :: !t[n].ProbeStarted?
    ensures ListsOnce(t[h].reply.body.value) ==>
      var body := t[h].reply.body.value;
      && (t[p].cls == GATEWAY_ONLY_FAILURE <==> !SaysRunning(body))
      && (t[p].cls == PLATFORM_DEGRADED <==>
            SaysRunning(body) && exists name :: FailsIn(body, name, ctx.ignored, ctx.ops.lower))
      && t[p].cls in {GATEWAY_ONLY_FAILURE, PLATFORM_DEGRADED, HEALTHY, WEBUI_DOWN}
  {
    h := ProbeReadHealth(ctx, t, p);
    JudgedByOwnClass(ctx, t, p);
    var body := t[h].reply.body.value;
    if ListsOnce(body) {
      var names := ReplyDecides(t[h].reply, ctx.ignored, ctx.ops.lower);
      ClassOfVerdict(t[p].health, ctx.ignored, ctx.ops.lower);
      if names != [] {
        assert names[0] in multiset(names);
        assert FailsIn(body, names[0], ctx.ignored, ctx.ops.lower);
      }
    }
  }

  lemma JudgedByOwnClass(ctx: Context, t: seq<Event>, p: nat)
    requires Lawful(ctx, t) && p < |t| && t[p].Judged?
    ensures JudgedOn(ctx, t[p].health, t[p].cls)
  {
    LawfulAt(ctx, t, p);
  }
}
