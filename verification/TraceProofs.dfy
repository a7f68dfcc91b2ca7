/** What a lawful trace means, event by event. */
module TraceProofs {
  import opened Wrappers
  import opened Errors
  import opened HttpPolicy
  import opened Responses
  import opened State
  import opened Replies
  import opened Trace

  ghost predicate Lawful(ctx: Context, t: seq<Event>) {
    Observe(ctx, t).lawful
  }

  /** Every event of a lawful trace was allowed when it happened. */
  lemma {:induction false} LawfulAt(ctx: Context, t: seq<Event>, i: nat)
    requires Lawful(ctx, t) && i < |t|
    ensures Lawful(ctx, t[..i]) && Allowed(ctx, Observe(ctx, t[..i]), t[i])
  {
    var n := |t| - 1;
    if i < n {
      LawfulAt(ctx, t[..n], i);
      assert t[..n][..i] == t[..i];
    }
  }

  predicate Ticks(t: seq<Event>, from: nat) {
    forall k | from <= k < |t| :: t[k].Tick?
  }

  /** Clock readings and successful logins only. */
  predicate Relogging(t: seq<Event>, from: nat) {
    forall k | from <= k < |t| :: t[k].Tick? || (t[k].Login? && LoginOk(t[k].reply))
  }

  /** The event that gave the permit a trace ends with. */
  ghost predicate Origin(t: seq<Event>, k: nat, p: Permit) {
    && k < |t|
    && match p
       case Nothing => true
       case Classified(cls, deployment) =>
         && ((t[k].Probed? && t[k].cls == cls && t[k].status.restartable == deployment)
           || (t[k].Judged? && t[k].cls == cls && deployment.None?))
         && Ticks(t, k + 1)
       case MayDeploy(id) => t[k] == DeployCalled(id) && Ticks(t, k + 1)
       case MayPost => t[k].GatewayCalled? && Relogging(t, k + 1)
       case Rejected => t[k].RestartPost? && Unauthorized(t[k].reply) && Ticks(t, k + 1)
       case MayRepost =>
         && t[k].RestartPost? && Unauthorized(t[k].reply) && Relogging(t, k + 1)
         && exists j | k < j < |t| :: t[j].Login?
  }

  lemma {:induction false} PermitHasOrigin(ctx: Context, t: seq<Event>) returns (k: nat)
    requires !Observe(ctx, t).permit.Nothing?
    ensures Origin(t, k, Observe(ctx, t).permit)
    ensures Observe(ctx, t).permit.Rejected? || Observe(ctx, t).permit.MayRepost? ==>
      Observe(ctx, t[..k]).permit.MayPost?
  {
    var n := |t| - 1;
    var before, e := t[..n], t[n];
    var p := Observe(ctx, before).permit;
    if e.Tick? || e.Login? {
      k := PermitHasOrigin(ctx, before);
      OriginStays(before, e, k, p);
      assert before + [e] == t && before[..k] == t[..k];
    } else {
      k := n;
      OriginHere(before, e, p);
      assert before + [e] == t;
    }
  }

  lemma OriginHere(t: seq<Event>, e: Event, p: Permit)
    requires !e.Tick? && !e.Login? && !NextPermit(p, e).Nothing?
    ensures Origin(t + [e], |t|, NextPermit(p, e))
  {
  }

  lemma OriginStays(t: seq<Event>, e: Event, k: nat, p: Permit)
    requires Origin(t, k, p) && (e.Tick? || e.Login?) && !NextPermit(p, e).Nothing?
    ensures Origin(t + [e], k, NextPermit(p, e))
  {
    var u := t + [e];
    assert u[|t|] == e && u[k] == t[k];
    if p.MayRepost? {
      var j :| k < j < |t| && t[j].Login?;
      assert u[j].Login?;
    }
  }

  /** Calls are counted, and the restart operation's permits exist only after its call. */
  lemma {:induction false} CallsCounted(ctx: Context, t: seq<Event>)
    ensures var m := Observe(ctx, t);
      && (m.permit.MayPost? || m.permit.Rejected? || m.permit.MayRepost? ==> m.gatewayCalls >= 1)
      && (m.permit.MayDeploy? ==> m.deployCalls >= 1)
      && (forall i | 0 <= i < |t| && t[i].GatewayCalled? :: m.gatewayCalls >= 1)
      && (forall i | 0 <= i < |t| && t[i].DeployCalled? :: m.deployCalls >= 1)
  {
    if t != [] { CallsCounted(ctx, t[..|t| - 1]); }
  }

  // ----- at most once

  /** Each of the two mutations is called at most once. */
  lemma AtMostOneCall(ctx: Context, t: seq<Event>, i: nat, j: nat)
    requires Lawful(ctx, t) && i < j < |t|
    ensures !(t[i].DeployCalled? && t[j].DeployCalled?) && !(t[i].GatewayCalled? && t[j].GatewayCalled?)
  {
    LawfulAt(ctx, t, j);
    CallsCounted(ctx, t[..j]);
    assert t[..j][i] == t[i];
  }

  /** At most one deployment-restart request reaches the wire. */
  lemma AtMostOneDeployRequest(ctx: Context, t: seq<Event>, i: nat, j: nat)
    requires Lawful(ctx, t) && i < j < |t| && t[i].Railway? && t[j].Railway?
    ensures t[i].restart.None? || t[j].restart.None?
  {
    if t[i].restart.Some? && t[j].restart.Some? {
      var k := RequestBelongsToCall(ctx, t, i);
      var l := RequestBelongsToCall(ctx, t, j);
      AtMostOneCall(ctx, t, k, l);
    }
  }

  lemma FirstPostOnly(ctx: Context, t: seq<Event>, i: nat, j: nat)
    requires Lawful(ctx, t) && i < j < |t| && t[i].RestartPost? && t[j].RestartPost?
    ensures !Observe(ctx, t[..j]).permit.MayPost?
  {
    if Observe(ctx, t[..j]).permit.MayPost? {
      var l := PermitHasOrigin(ctx, t[..j]);
      assert t[..j][i] == t[i] && t[..j][l] == t[l];
      var k := PostBelongsToCall(ctx, t, i);
      AtMostOneCall(ctx, t, k, l);
    }
  }

  /**
   * A second restart request is sent only after the first was answered 401 and a new login
   * succeeded: never after a timeout, another error or a success.
   */
  lemma RepostOnlyAfterRejection(ctx: Context, t: seq<Event>, i: nat, j: nat) returns (login: nat)
    requires Lawful(ctx, t) && i < j < |t| && t[i].RestartPost? && t[j].RestartPost?
    ensures Unauthorized(t[i].reply)
    ensures i < login < j && t[login].Login? && LoginOk(t[login].reply)
    ensures forall k | i < k < j :: t[k].Tick? || t[k].Login?
  {
    SecondPostIsRepost(ctx, t, i, j);
    var k := PermitHasOrigin(ctx, t[..j]);
    assert forall n | 0 <= n < j :: t[..j][n] == t[n];
    assert t[..j][..k] == t[..k];
    if i < k { FirstPostOnly(ctx, t, i, k); }
    assert i == k;
    login :| k < login < j && t[..j][login].Login?;
  }

  lemma SecondPostIsRepost(ctx: Context, t: seq<Event>, i: nat, j: nat)
    requires Lawful(ctx, t) && i < j < |t| && t[i].RestartPost? && t[j].RestartPost?
    ensures Observe(ctx, t[..j]).permit.MayRepost?
  {
    LawfulAt(ctx, t, j);
    FirstPostOnly(ctx, t, i, j);
  }

  /** At most two restart requests, and only the last can be anything but a 401. */
  lemma AtMostTwoPosts(ctx: Context, t: seq<Event>, i: nat, j: nat, k: nat)
    requires Lawful(ctx, t) && i < j < k < |t| && t[i].RestartPost? && t[j].RestartPost?
    ensures !t[k].RestartPost?
  {
    assert !t[j].Tick? && !t[j].Login?;
    if t[k].RestartPost? {
      var login := RepostOnlyAfterRejection(ctx, t, i, k);
    }
  }

  // ----- fresh justification

  /** What directly precedes event `i`, clock readings aside. */
  predicate DirectlyBefore(t: seq<Event>, k: nat, i: nat) {
    k < i < |t| && forall n | k < n < i :: t[n].Tick?
  }

  /**
   * A deployment restart is called directly after a probe that classified CONTAINER_FAILURE
   * from the status and health read during that probe, and on the deployment that status names.
   */
  lemma DeployIsJustified(ctx: Context, t: seq<Event>, i: nat) returns (k: nat)
    requires Lawful(ctx, t) && i < |t| && t[i].DeployCalled?
    ensures DirectlyBefore(t, k, i) && t[k].Probed?
    ensures Classify(t[k].status, t[k].health, t[k].now, ctx.threshold) == Some(CONTAINER_FAILURE)
    ensures t[k].status.restartable == Some(t[i].id)
  {
    LawfulAt(ctx, t, i);
    k := PermitHasOrigin(ctx, t[..i]);
    assert forall n | 0 <= n < i :: t[..i][n] == t[n];
    ProbedIsClassified(ctx, t, k);
  }

  lemma ProbedIsClassified(ctx: Context, t: seq<Event>, k: nat)
    requires Lawful(ctx, t) && k < |t| && t[k].Probed?
    ensures Classify(t[k].status, t[k].health, t[k].now, ctx.threshold) == Some(t[k].cls)
  {
    LawfulAt(ctx, t, k);
  }

  /**
   * A container that Railway shows up, with no deployment under way, is restarted only when every
   * health check of that probe was made and failed: `p` is where the probe began to ask.
   */
  lemma UpIsRestartedOnlyUnreached(ctx: Context, t: seq<Event>, i: nat) returns (k: nat, p: nat)
    requires Lawful(ctx, t) && i < |t| && t[i].DeployCalled?
    ensures DirectlyBefore(t, k, i) && t[k].Probed?
    ensures !IsTransitional(t[k].status.latestStatus) && ContainerUp(t[k].status) ==>
      && t[k].health.None? && p <= k && Raised(t[..k], p) == ctx.checks
      && forall n | p <= n < k :: !t[n].ProbeStarted?
  {
    k := DeployIsJustified(ctx, t, i);
    p := TriedIsRaised(ctx, t[..k]);
    ProbedAfterChecks(ctx, t, k);
    NeverExpired(ctx, t, k, i);
    ClassifyFour(t[k].status, t[k].health, t[k].now, ctx.threshold);
    assert forall n | 0 <= n < k :: t[..k][n] == t[n];
  }

  lemma ProbedAfterChecks(ctx: Context, t: seq<Event>, k: nat)
    requires Lawful(ctx, t) && k < |t| && t[k].Probed?
    ensures t[k].health.Some? || GaveUp(ctx, Observe(ctx, t[..k]))
  {
    LawfulAt(ctx, t, k);
  }

  /** Before a mutation no clock reading showed the budget spent. */
  lemma NeverExpired(ctx: Context, t: seq<Event>, k: nat, i: nat)
    requires Lawful(ctx, t) && k <= i < |t| && (t[i].DeployCalled? || t[i].GatewayCalled?)
    ensures !Observe(ctx, t[..k]).expired
  {
    CalledInTime(ctx, t, i);
    assert t[..i][..k] == t[..k];
    if Observe(ctx, t[..k]).expired { ExpiredStays(ctx, t[..i], k); }
  }

  lemma CalledInTime(ctx: Context, t: seq<Event>, i: nat)
    requires Lawful(ctx, t) && i < |t| && (t[i].DeployCalled? || t[i].GatewayCalled?)
    ensures !Observe(ctx, t[..i]).expired
  {
    LawfulAt(ctx, t, i);
  }

  /** The failed health checks among the events from `from` on. */
  function Raised(t: seq<Event>, from: nat): nat {
    if |t| <= from then 0 else Raised(t[..|t| - 1], from) + if t[|t| - 1].CheckRaised? then 1 else 0
  }

  /** The monitor's count of failed checks is that since the run last looked afresh. */
  lemma {:induction false} TriedIsRaised(ctx: Context, t: seq<Event>) returns (p: nat)
    ensures p <= |t| && Raised(t, p) == Observe(ctx, t).tried
    ensures forall n | p <= n < |t| :: !Outdates(t[n])
  {
    var n := |t| - 1;
    if t == [] || Outdates(t[n]) {
      p := |t|;
    } else {
      p := TriedIsRaised(ctx, t[..n]);
      assert forall i | 0 <= i < n :: t[..n][i] == t[i];
    }
  }

  lemma {:induction false} ExpiredStays(ctx: Context, t: seq<Event>, i: nat)
    requires i <= |t| && Observe(ctx, t[..i]).expired
    ensures Observe(ctx, t).expired
  {
    if i == |t| {
      assert t[..i] == t;
    } else {
      assert t[..|t| - 1][..i] == t[..i];
      ExpiredStays(ctx, t[..|t| - 1], i);
    }
  }

  /** A spent budget was read off the clock. */
  lemma {:induction false} ExpiredWasRead(ctx: Context, t: seq<Event>) returns (k: nat)
    requires Lawful(ctx, t) && Observe(ctx, t).expired
    ensures k < |t| && t[k].Tick? && Observe(ctx, t).end.Some? && Observe(ctx, t).end.value <= t[k].reading
  {
    var n := |t| - 1;
    if Observe(ctx, t[..n]).expired {
      k := ExpiredWasRead(ctx, t[..n]);
      assert t[..n][k] == t[k];
    } else {
      k := n;
    }
  }

  /** An event that is this request to Hermes and got this reply. */
  predicate IsRequest(e: Event, op: Op, reply: Reply) {
    match op
    case LoginOp => e.Login? && e.reply == reply
    case StatusOp => e.StatusRead? && e.reply == reply
    case RestartOp => e.RestartPost? && e.reply == reply
  }

  lemma {:induction false} LastWasRequest(ctx: Context, t: seq<Event>) returns (k: nat)
    requires Observe(ctx, t).last.Some?
    ensures k < |t| && IsRequest(t[k], Observe(ctx, t).last.value.0, Observe(ctx, t).last.value.1)
    ensures forall n | k < n < |t| :: !t[n].Login? && !t[n].StatusRead? && !t[n].RestartPost? && !Outdates(t[n])
  {
    var n := |t| - 1;
    if t[n].Login? || t[n].StatusRead? || t[n].RestartPost? {
      k := n;
    } else {
      k := LastWasRequest(ctx, t[..n]);
      assert forall i | 0 <= i < n :: t[..n][i] == t[i];
    }
  }

  /**
   * No health check fails for nothing: its error is what the reply to its last request calls
   * for, or a timeout once a clock reading showed the budget spent.
   */
  lemma CheckFailureIsExplained(ctx: Context, t: seq<Event>, i: nat) returns (k: nat)
    requires Lawful(ctx, t) && i < |t| && t[i].CheckRaised?
    ensures k < i
    ensures
      || (t[k].Tick? && t[i].error == HermesTimeout && Observe(ctx, t[..i]).end.Some?
          && Observe(ctx, t[..i]).end.value <= t[k].reading)
      || ((exists op: Op, reply: Reply :: IsRequest(t[k], op, reply) && FailureOf(op, reply) == Some(t[i].error))
          && forall n | k < n < i :: !t[n].Login? && !t[n].StatusRead? && !t[n].RestartPost?)
  {
    LawfulAt(ctx, t, i);
    var m := Observe(ctx, t[..i]);
    assert forall n | 0 <= n < i :: t[..i][n] == t[n];
    if LastFailure(m) == Some(t[i].error) {
      k := LastWasRequest(ctx, t[..i]);
      assert IsRequest(t[k], m.last.value.0, m.last.value.1);
    } else {
      k := ExpiredWasRead(ctx, t[..i]);
    }
  }

  /** A gateway restart is called directly after a probe that found the gateway down. */
  lemma GatewayIsJustified(ctx: Context, t: seq<Event>, i: nat) returns (k: nat)
    requires Lawful(ctx, t) && i < |t| && t[i].GatewayCalled?
    ensures DirectlyBefore(t, k, i) && (t[k].Probed? || t[k].Judged?) && t[k].cls == GATEWAY_ONLY_FAILURE
    ensures t[k].health.Some? && !t[k].health.value.Healthy()
  {
    LawfulAt(ctx, t, i);
    k := PermitHasOrigin(ctx, t[..i]);
    assert forall n | 0 <= n < i :: t[..i][n] == t[n];
    GatewayFound(ctx, t, k);
  }

  lemma GatewayFound(ctx: Context, t: seq<Event>, k: nat)
    requires Lawful(ctx, t) && k < |t| && (t[k].Probed? || t[k].Judged?) && t[k].cls == GATEWAY_ONLY_FAILURE
    ensures t[k].health.Some? && !t[k].health.value.Healthy()
  {
    LawfulAt(ctx, t, k);
    if t[k].Probed? { ClassifyFour(t[k].status, t[k].health, t[k].now, ctx.threshold); }
  }

  lemma {:induction false} OneProbe(ctx: Context, t: seq<Event>) returns (p: nat)
    requires Observe(ctx, t).probes >= 1
    ensures p < |t| && (t[p].Probed? || t[p].Judged?)
    ensures Observe(ctx, t[..p]).probes == Observe(ctx, t).probes - 1
  {
    var n := |t| - 1;
    if t[n].Probed? || t[n].Judged? {
      p := n;
    } else {
      p := OneProbe(ctx, t[..n]);
      assert t[..n][p] == t[p] && t[..n][..p] == t[..p];
    }
  }

  /** Every mutation has a first probe and a separate recheck before it. */
  lemma RecheckedFirst(ctx: Context, t: seq<Event>, i: nat) returns (p: nat, q: nat)
    requires Lawful(ctx, t) && i < |t| && (t[i].DeployCalled? || t[i].GatewayCalled?)
    ensures p < q < i && (t[p].Probed? || t[p].Judged?) && (t[q].Probed? || t[q].Judged?)
  {
    CalledAfterTwoProbes(ctx, t, i);
    q := OneProbe(ctx, t[..i]);
    assert t[..i][..q] == t[..q] && t[..i][q] == t[q];
    p := OneProbe(ctx, t[..q]);
    assert t[..q][p] == t[p];
  }

  lemma CalledAfterTwoProbes(ctx: Context, t: seq<Event>, i: nat)
    requires Lawful(ctx, t) && i < |t| && (t[i].DeployCalled? || t[i].GatewayCalled?)
    ensures Observe(ctx, t[..i]).probes >= 2
  {
    LawfulAt(ctx, t, i);
  }

  lemma {:induction false} CallOfPermit(ctx: Context, t: seq<Event>) returns (k: nat)
    requires var p := Observe(ctx, t).permit; p.MayPost? || p.Rejected? || p.MayRepost?
    ensures k < |t| && t[k].GatewayCalled?
    ensures forall n | k < n < |t| :: t[n].Tick? || t[n].Login? || (t[n].RestartPost? && Unauthorized(t[n].reply))
  {
    var n := |t| - 1;
    if t[n].GatewayCalled? {
      k := n;
    } else {
      k := CallOfPermit(ctx, t[..n]);
      assert forall i | 0 <= i < n :: t[..n][i] == t[i];
    }
  }

  /** A restart request is part of a restart call: nothing but logins and its own first request in between. */
  lemma PostBelongsToCall(ctx: Context, t: seq<Event>, i: nat) returns (k: nat)
    requires Lawful(ctx, t) && i < |t| && t[i].RestartPost?
    ensures k < i && t[k].GatewayCalled?
    ensures forall n | k < n < i :: t[n].Tick? || t[n].Login? || (t[n].RestartPost? && Unauthorized(t[n].reply))
  {
    LawfulAt(ctx, t, i);
    k := CallOfPermit(ctx, t[..i]);
    assert forall n | 0 <= n < i :: t[..i][n] == t[n];
  }

  /** The status a probe was classified by was read during that probe and proves ownership. */
  lemma {:induction false} ReadComesFromReply(ctx: Context, t: seq<Event>) returns (k: nat)
    requires Observe(ctx, t).read.Some?
    ensures k < |t| && t[k].Railway? && t[k].restart.None? && StatusOf(ctx, t[k].reply) == Observe(ctx, t).read
    ensures DataOf(t[k].reply).Some? && Owned(DataOf(t[k].reply).value, ctx.scope)
    ensures forall n | k < n < |t| ::
      !t[n].ProbeStarted? && !t[n].DeployCalled? && !(t[n].Railway? && t[n].restart.None?)
  {
    var n := |t| - 1;
    if t[n].Railway? && t[n].restart.None? {
      k := n;
    } else {
      k := ReadComesFromReply(ctx, t[..n]);
      assert forall i | 0 <= i < n :: t[..n][i] == t[i];
    }
  }

  /** No deployment is restarted unless a response just read proves it belongs to the watched service. */
  lemma RestartsOnlyOwned(ctx: Context, t: seq<Event>, i: nat) returns (k: nat, p: nat)
    requires Lawful(ctx, t) && i < |t| && t[i].Railway? && t[i].restart.Some?
    ensures k < p < i && t[p].Probed? && t[k].Railway? && t[k].restart.None?
    ensures forall n | p < n < i :: t[n].Tick? || t[n].DeployCalled?
    ensures forall n | k < n < p :: !t[n].ProbeStarted?
    ensures DataOf(t[k].reply).Some? && Owned(DataOf(t[k].reply).value, ctx.scope)
    ensures StatusOf(ctx, t[k].reply).Some? && StatusOf(ctx, t[k].reply).value.restartable == t[i].restart
  {
    var c := RequestBelongsToCall(ctx, t, i);
    p := DeployIsJustified(ctx, t, c);
    LawfulAt(ctx, t, p);
    k := ReadComesFromReply(ctx, t[..p]);
    assert forall n | 0 <= n < p :: t[..p][n] == t[n];
  }

  /**
   * After a container restart the next probe begins only once the last status read has shown
   * the container up and the gateway has answered after that.
   */
  lemma ProbeAfterRestartSawUp(ctx: Context, t: seq<Event>, d: nat, i: nat) returns (k: nat, h: nat)
    requires Lawful(ctx, t) && d < i < |t| && t[d].DeployCalled? && t[i].ProbeStarted?
    requires forall n | d < n < i :: !t[n].Probed? && !t[n].Judged? && !t[n].GatewayCalled?
    ensures d < k < i && t[k].Railway? && t[k].restart.None?
    ensures StatusOf(ctx, t[k].reply).Some? && Up(StatusOf(ctx, t[k].reply).value)
    ensures k < h < i && t[h].StatusRead? && HealthOf(t[h].reply).Some?
  {
    LawfulAt(ctx, t, i);
    assert forall n | 0 <= n < i :: t[..i][n] == t[n];
    StillRestarting(ctx, t[..i], d);
    k := ReadComesFromReply(ctx, t[..i]);
    h := HealthComesFromReply(ctx, t[..i]);
    assert !(k < d) && k != d;
    assert !(h < k) && h != k;
  }

  lemma {:induction false} StillRestarting(ctx: Context, t: seq<Event>, d: nat)
    requires Lawful(ctx, t) && d < |t| && t[d].DeployCalled?
    requires forall n | d < n < |t| :: !t[n].Probed? && !t[n].Judged? && !t[n].GatewayCalled?
    ensures var m := Observe(ctx, t); m.deployCalls == 1 && m.gatewayCalls == 0 && m.verdict.None?
  {
    var n := |t| - 1;
    if d < n {
      assert forall k | 0 <= k < n :: t[..n][k] == t[k];
      StillRestarting(ctx, t[..n], d);
    }
  }

  lemma {:induction false} HealthComesFromReply(ctx: Context, t: seq<Event>) returns (k: nat)
    requires Observe(ctx, t).health.Some?
    ensures k < |t| && t[k].StatusRead? && HealthOf(t[k].reply) == Observe(ctx, t).health
    ensures forall n | k < n < |t| :: !Outdates(t[n]) && !t[n].StatusRead?
  {
    var n := |t| - 1;
    if t[n].StatusRead? {
      k := n;
    } else {
      k := HealthComesFromReply(ctx, t[..n]);
      assert forall i | 0 <= i < n :: t[..n][i] == t[i];
    }
  }

  /** A probe is concluded on the health that was read. */
  lemma ProbedOnRead(ctx: Context, t: seq<Event>, p: nat)
    requires Lawful(ctx, t) && p < |t| && (t[p].Probed? || t[p].Judged?)
    ensures Observe(ctx, t[..p]).health == t[p].health
  {
    LawfulAt(ctx, t, p);
  }

  /** The gateway is restarted only after it answered, in the same probe, that it is not running. */
  lemma GatewayDownWasRead(ctx: Context, t: seq<Event>, i: nat) returns (k: nat)
    requires Lawful(ctx, t) && i < |t| && t[i].GatewayCalled?
    ensures k < i && t[k].StatusRead? && HealthOf(t[k].reply).Some? && !HealthOf(t[k].reply).value.gatewayRunning
    ensures forall n | k < n < i :: !t[n].ProbeStarted? && !t[n].StatusRead?
  {
    var p := GatewayIsJustified(ctx, t, i);
    ProbedOnRead(ctx, t, p);
    k := HealthComesFromReply(ctx, t[..p]);
    assert forall n | 0 <= n < p :: t[..p][n] == t[n];
  }

  // ----- session discipline

  /** Status reads and restart requests are sent only while a session cookie is held. */
  lemma SessionHeld(ctx: Context, t: seq<Event>, i: nat)
    requires Lawful(ctx, t) && i < |t|
    ensures (t[i].StatusRead? || t[i].RestartPost?) ==> t[i].session
  {
    LawfulAt(ctx, t, i);
  }

  /** The monitor's count of calls after an authentication error, in terms of the trace. */
  lemma {:induction false} QuietAfterAuth(ctx: Context, t: seq<Event>, i: nat, j: nat)
    requires Observe(ctx, t).afterAuth == 0 && i < j < |t|
    requires t[i] == CheckRaised(HermesAuth) || t[i] == RestartRaised(HermesAuth)
    ensures !t[j].Login? && !t[j].StatusRead? && !t[j].RestartPost? && !t[j].Webui?
  {
    var n := |t| - 1;
    if j < n {
      assert t[..n][i] == t[i] && t[..n][j] == t[j];
      QuietAfterAuth(ctx, t[..n], i, j);
    } else {
      RaisedIsKept(ctx, t[..n], i);
    }
  }

  lemma {:induction false} RaisedIsKept(ctx: Context, t: seq<Event>, i: nat)
    requires i < |t| && RaisesAuth(t[i])
    ensures Observe(ctx, t).authRaised
  {
    if i < |t| - 1 { RaisedIsKept(ctx, t[..|t| - 1], i); }
  }

  // ----- pauses

  /** Requests of the Hermes client. */
  predicate IsHermesRequest(e: Event) {
    e.Login? || e.StatusRead? || e.RestartPost?
  }

  /** Event `k` is a pause of this length, clipped by what the last clock reading left. */
  ghost predicate PausesAt(ctx: Context, t: seq<Event>, k: nat, raw: real) {
    k < |t| && Pays(Observe(ctx, t[..k]), t[k], raw)
  }

  lemma PauseInPrefix(ctx: Context, t: seq<Event>, n: nat, k: nat, raw: real)
    requires k < n <= |t| && PausesAt(ctx, t[..n], k, raw)
    ensures PausesAt(ctx, t, k, raw)
  {
    assert t[..n][..k] == t[..k];
  }

  /** What is owed after a failed check is owed still, or something at `k` ended the debt. */
  lemma {:induction false} CheckDebtPaid(ctx: Context, t: seq<Event>, i: nat) returns (k: nat)
    requires i < |t| && t[i].CheckRaised?
    ensures k <= |t| && (k == |t| ==> Observe(ctx, t).debt == Owes(true, ctx.interval))
    ensures k < |t| ==> i < k && (IsStep(t[k]) || PausesAt(ctx, t, k, ctx.interval))
  {
    var n := |t| - 1;
    if i == n {
      k := |t|;
    } else {
      k := CheckDebtPaid(ctx, t[..n], i);
      if k < n {
        if !IsStep(t[k]) { PauseInPrefix(ctx, t, n, k, ctx.interval); }
      } else if !IsStep(t[n]) && !PausesAt(ctx, t, n, ctx.interval) {
        k := |t|;
      }
    }
  }

  /** After a failed health check Hermes is asked nothing before a pause of the interval or another step. */
  lemma PausedAfterCheck(ctx: Context, t: seq<Event>, i: nat, j: nat) returns (k: nat)
    requires Lawful(ctx, t) && i < j < |t| && t[i].CheckRaised? && IsHermesRequest(t[j])
    ensures i < k < j && (IsStep(t[k]) || PausesAt(ctx, t, k, ctx.interval))
  {
    k := CheckDebtPaid(ctx, t[..j], i);
    if k == j {
      LawfulAt(ctx, t, j);
    } else if !IsStep(t[k]) {
      PauseInPrefix(ctx, t, j, k, ctx.interval);
    }
  }

  /** The pause of a wait for a container, or of a wait for a gateway. */
  ghost predicate PausesRound(ctx: Context, t: seq<Event>, k: nat) {
    PausesAt(ctx, t, k, ctx.interval) || PausesAt(ctx, t, k, ctx.pollInterval)
  }

  lemma RoundInPrefix(ctx: Context, t: seq<Event>, n: nat, k: nat)
    requires k < n <= |t| && PausesRound(ctx, t[..n], k)
    ensures PausesRound(ctx, t, k)
  {
    var raw := if PausesAt(ctx, t[..n], k, ctx.interval) then ctx.interval else ctx.pollInterval;
    PauseInPrefix(ctx, t, n, k, raw);
  }

  lemma {:induction false} RoundDebtPaid(ctx: Context, t: seq<Event>, i: nat) returns (k: nat)
    requires i < |t| && t[i].RoundStarted? && Observe(ctx, t[..i]).debt.Free?
    ensures k <= |t|
    ensures k == |t| ==> Observe(ctx, t).debt.Owes? && Observe(ctx, t).debt.raw in {ctx.interval, ctx.pollInterval}
    ensures k < |t| ==> i < k && (IsStep(t[k]) || PausesRound(ctx, t, k))
  {
    var n := |t| - 1;
    if i == n {
      k := |t|;
    } else {
      assert t[..n][..i] == t[..i];
      k := RoundDebtPaid(ctx, t[..n], i);
      if k < n {
        if !IsStep(t[k]) { RoundInPrefix(ctx, t, n, k); }
      } else if !IsStep(t[n]) && !PausesRound(ctx, t, n) {
        RoundDebtStays(ctx, t);
        k := |t|;
      }
    }
  }

  lemma RoundDebtStays(ctx: Context, t: seq<Event>)
    requires t != [] && !IsStep(t[|t| - 1]) && !PausesRound(ctx, t, |t| - 1)
    requires Observe(ctx, t[..|t| - 1]).debt.Owes?
      && Observe(ctx, t[..|t| - 1]).debt.raw in {ctx.interval, ctx.pollInterval}
    ensures Observe(ctx, t).debt.Owes? && Observe(ctx, t).debt.raw in {ctx.interval, ctx.pollInterval}
  {
  }

  /** Rounds of waiting or polling do not follow each other without a pause or another step in between. */
  lemma PausedBetweenRounds(ctx: Context, t: seq<Event>, i: nat, j: nat) returns (k: nat)
    requires Lawful(ctx, t) && i < j < |t| && t[i].RoundStarted? && t[j].RoundStarted?
    ensures i < k < j && (IsStep(t[k]) || PausesRound(ctx, t, k))
  {
    RoundsStartFree(ctx, t, i);
    assert t[..j][..i] == t[..i];
    k := RoundDebtPaid(ctx, t[..j], i);
    if k == j {
      RoundsStartFree(ctx, t, j);
    } else if !IsStep(t[k]) {
      RoundInPrefix(ctx, t, j, k);
    }
  }

  lemma RoundsStartFree(ctx: Context, t: seq<Event>, i: nat)
    requires Lawful(ctx, t) && i < |t| && t[i].RoundStarted?
    ensures Observe(ctx, t[..i]).debt.Free?
  {
    LawfulAt(ctx, t, i);
  }

  /** A sleep of the backoff that is owed, or a step after which it is not. */
  ghost predicate EndsBackoff(ctx: Context, t: seq<Event>, k: nat, raw: real) {
    k < |t| && (IsStep(t[k]) || t[k].RoundStarted? || (t[k].Slept? && PausesAt(ctx, t, k, raw)))
  }

  lemma {:induction false} BackoffPaid(ctx: Context, t: seq<Event>, i: nat, raw: real) returns (k: nat)
    requires i < |t| && Observe(ctx, t[..i + 1]).backoff == Some(raw)
    ensures i < k <= |t|
    ensures if k == |t| then Observe(ctx, t).backoff == Some(raw) else EndsBackoff(ctx, t, k, raw)
  {
    var n := |t| - 1;
    if i == n {
      k := |t|;
      assert t[..i + 1] == t;
    } else {
      assert t[..n][..i + 1] == t[..i + 1];
      k := BackoffPaid(ctx, t[..n], i, raw);
      if k < n {
        EndInPrefix(ctx, t, n, k, raw);
      } else if !EndsBackoff(ctx, t, n, raw) {
        k := |t|;
      }
    }
  }

  lemma EndInPrefix(ctx: Context, t: seq<Event>, n: nat, k: nat, raw: real)
    requires k < n <= |t| && EndsBackoff(ctx, t[..n], k, raw)
    ensures EndsBackoff(ctx, t, k, raw)
  {
    if t[k].Slept? { PauseInPrefix(ctx, t, n, k, raw); }
  }

  /** A status read that may be tried again leaves its backoff owed. */
  lemma ReadOwesBackoff(ctx: Context, t: seq<Event>, i: nat)
    requires Lawful(ctx, t) && i < |t| && t[i].Railway? && t[i].restart.None? && CanRetry(ctx.retry, t[i].reply)
    ensures Observe(ctx, t[..i + 1]).backoff == Some(ctx.retry.BackoffFor(Observe(ctx, t[..i]).attempt))
  {
    LawfulAt(ctx, t, i);
    assert t[..i + 1][..i] == t[..i];
  }

  lemma ReadsStartRested(ctx: Context, t: seq<Event>, j: nat)
    requires Lawful(ctx, t) && j < |t| && t[j].Railway? && t[j].restart.None?
    ensures Observe(ctx, t[..j]).backoff.None?
  {
    LawfulAt(ctx, t, j);
  }

  /**
   * A status read that failed is tried again only after a sleep of its exponential backoff, as
   * clipped by what the last clock reading left (or in another step of the run).
   */
  lemma RetriedAfterBackoff(ctx: Context, t: seq<Event>, i: nat, j: nat) returns (k: nat)
    requires Lawful(ctx, t) && i < j < |t| && t[i].Railway? && t[j].Railway?
    requires t[i].restart.None? && t[j].restart.None? && CanRetry(ctx.retry, t[i].reply)
    ensures i < k < j && EndsBackoff(ctx, t, k, ctx.retry.BackoffFor(Observe(ctx, t[..i]).attempt))
  {
    var raw := ctx.retry.BackoffFor(Observe(ctx, t[..i]).attempt);
    ReadOwesBackoff(ctx, t, i);
    assert t[..j][..i + 1] == t[..i + 1];
    k := BackoffPaid(ctx, t[..j], i, raw);
    if k == j {
      ReadsStartRested(ctx, t, j);
    } else {
      EndInPrefix(ctx, t, j, k, raw);
    }
  }

  // ----- what a self-hosted conclusion rests on

  /** A web UI answer that counts was given in this probe. */
  lemma {:induction false} WebWasAsked(ctx: Context, t: seq<Event>) returns (k: nat)
    requires Observe(ctx, t).web.Some?
    ensures k < |t| && t[k].Webui? && Some(t[k].reply) == Observe(ctx, t).web
    ensures forall n | k < n < |t| :: !t[n].ProbeStarted?
  {
    var n := |t| - 1;
    if t[n].Webui? {
      k := n;
    } else {
      k := WebWasAsked(ctx, t[..n]);
      assert forall i | 0 <= i < n :: t[..n][i] == t[i];
    }
  }

  /** A target with a web UI is judged healthy only when its web UI answered 200 or 302 in that probe. */
  lemma HealthyWebAnswered(ctx: Context, t: seq<Event>, i: nat) returns (k: nat)
    requires Lawful(ctx, t) && i < |t| && t[i].Judged? && t[i].cls == HEALTHY && ctx.webui
    ensures k < i && t[k].Webui? && t[k].reply.Http? && (t[k].reply.status == 200 || t[k].reply.status == 302)
    ensures forall n | k < n < i :: !t[n].ProbeStarted?
  {
    JudgedOnWeb(ctx, t, i);
    k := WebWasAsked(ctx, t[..i]);
    assert forall n | 0 <= n < i :: t[..i][n] == t[n];
  }

  /** WEBUI_DOWN is said only of a reply that is neither 200 nor 302, or once the budget was read as spent. */
  lemma WebDownWasSeen(ctx: Context, t: seq<Event>, i: nat) returns (k: nat)
    requires Lawful(ctx, t) && i < |t| && t[i].Judged? && t[i].cls == WEBUI_DOWN
    ensures k < i
    ensures
      || (t[k].Webui? && !WebOk(t[k].reply) && forall n | k < n < i :: !t[n].ProbeStarted?)
      || (t[k].Tick? && Observe(ctx, t[..i]).end.Some? && Observe(ctx, t[..i]).end.value <= t[k].reading)
  {
    JudgedOnWeb(ctx, t, i);
    assert forall n | 0 <= n < i :: t[..i][n] == t[n];
    if Observe(ctx, t[..i]).web.Some? {
      k := WebWasAsked(ctx, t[..i]);
    } else {
      k := ExpiredWasRead(ctx, t[..i]);
    }
  }

  lemma JudgedOnWeb(ctx: Context, t: seq<Event>, i: nat)
    requires Lawful(ctx, t) && i < |t| && t[i].Judged?
    ensures Lawful(ctx, t[..i])
    ensures var m := Observe(ctx, t[..i]);
      && (t[i].cls == WEBUI_DOWN ==> if m.web.Some? then !WebOk(m.web.value) else m.expired)
      && (t[i].cls == HEALTHY && ctx.webui ==> m.web.Some? && WebOk(m.web.value))
  {
    LawfulAt(ctx, t, i);
  }

  lemma {:induction false} ErrorWasRaised(ctx: Context, t: seq<Event>) returns (k: nat)
    requires Observe(ctx, t).raised.Some?
    ensures k < |t| && (t[k] == CheckRaised(Observe(ctx, t).raised.value)
      || t[k] == RestartRaised(Observe(ctx, t).raised.value))
    ensures forall n | k < n < |t| :: !t[n].ProbeStarted?
  {
    var n := |t| - 1;
    if t[n].CheckRaised? || t[n].RestartRaised? {
      k := n;
    } else {
      k := ErrorWasRaised(ctx, t[..n]);
      assert forall i | 0 <= i < n :: t[..n][i] == t[i];
    }
  }

  /**
   * HOST_UNREACHABLE is said only when all health checks of that probe were made and failed, a
   * login was rejected in it, or a clock reading showed the budget spent.
   */
  lemma UnreachableWasTried(ctx: Context, t: seq<Event>, i: nat) returns (k: nat, p: nat)
    requires Lawful(ctx, t) && i < |t| && t[i].Judged? && t[i].cls == HOST_UNREACHABLE
    ensures t[i].health.None? && p <= i && forall n | p <= n < i :: !t[n].ProbeStarted?
    ensures
      || Raised(t[..i], p) == ctx.checks
      || (k < i && RaisesAuth(t[k])
          && forall n | k < n < i :: !t[n].ProbeStarted?)
      || (k < i && t[k].Tick? && Observe(ctx, t[..i]).end.Some? && Observe(ctx, t[..i]).end.value <= t[k].reading)
  {
    JudgedUnread(ctx, t, i);
    var m := Observe(ctx, t[..i]);
    assert forall n | 0 <= n < i :: t[..i][n] == t[n];
    p := TriedIsRaised(ctx, t[..i]);
    k := 0;
    if m.tried != ctx.checks {
      if m.expired { k := ExpiredWasRead(ctx, t[..i]); } else { k := ErrorWasRaised(ctx, t[..i]); }
    }
  }

  lemma JudgedUnread(ctx: Context, t: seq<Event>, i: nat)
    requires Lawful(ctx, t) && i < |t| && t[i].Judged? && t[i].cls == HOST_UNREACHABLE
    ensures Lawful(ctx, t[..i]) && t[i].health.None?
    ensures GaveUp(ctx, Observe(ctx, t[..i])) || Observe(ctx, t[..i]).raised == Some(HermesAuth)
  {
    LawfulAt(ctx, t, i);
    UnreachableIsUnread(ctx, t[..i]);
  }

  /** Health that was read never classifies as unreachable. */
  lemma UnreachableIsUnread(ctx: Context, t: seq<Event>)
    ensures OwnClass(ctx, Observe(ctx, t).health) == HOST_UNREACHABLE ==> Observe(ctx, t).health.None?
  {
    if Observe(ctx, t).health.Some? {
      var k := HealthComesFromReply(ctx, t);
    }
  }

  // ----- requests counted

  function RailwayRequests(t: seq<Event>): nat {
    if t == [] then 0 else RailwayRequests(t[..|t| - 1]) + if t[|t| - 1].Railway? then 1 else 0
  }

  function HermesRequests(t: seq<Event>): nat {
    if t == [] then 0 else HermesRequests(t[..|t| - 1]) + if IsHermesRequest(t[|t| - 1]) then 1 else 0
  }

  /** The monitor's counts are those of the events. */
  lemma {:induction false} RequestsCounted(ctx: Context, t: seq<Event>)
    ensures Observe(ctx, t).railway == RailwayRequests(t) && Observe(ctx, t).Hermes() == HermesRequests(t)
  {
    if t != [] { RequestsCounted(ctx, t[..|t| - 1]); }
  }

  // ----- modes

  /** A dry run mutates nothing. */
  lemma DryRunOnlyLooks(ctx: Context, t: seq<Event>, i: nat)
    requires Lawful(ctx, t) && i < |t| && ctx.dryRun
    ensures !t[i].DeployCalled? && !t[i].GatewayCalled? && !t[i].RestartPost?
    ensures t[i].Railway? ==> t[i].restart.None?
  {
    LawfulAt(ctx, t, i);
    if t[i].Railway? && t[i].restart.Some? {
      var k := RequestBelongsToCall(ctx, t, i);
      LawfulAt(ctx, t, k);
    } else if t[i].RestartPost? {
      var k := PostBelongsToCall(ctx, t, i);
      LawfulAt(ctx, t, k);
    }
  }

  /** A deployment-restart request directly follows its call. */
  lemma RequestBelongsToCall(ctx: Context, t: seq<Event>, i: nat) returns (k: nat)
    requires Lawful(ctx, t) && i < |t| && t[i].Railway? && t[i].restart.Some?
    ensures DirectlyBefore(t, k, i) && t[k] == DeployCalled(t[i].restart.value)
  {
    LawfulAt(ctx, t, i);
    k := PermitHasOrigin(ctx, t[..i]);
    assert forall n | 0 <= n < i :: t[..i][n] == t[n];
  }

  /** A self-hosted run asks nothing of Railway, and only a self-hosted run asks a web UI. */
  lemma ModesStayApart(ctx: Context, t: seq<Event>, i: nat)
    requires Lawful(ctx, t) && i < |t|
    ensures ctx.selfhosted ==> !t[i].Railway? && !t[i].DeployCalled?
    ensures !ctx.selfhosted ==> !t[i].Webui?
  {
    LawfulAt(ctx, t, i);
  }

  // ----- the last verdict

  /** A verdict the monitor still holds was reached by the last probe, with no mutation after it. */
  lemma {:induction false} VerdictIsLast(ctx: Context, t: seq<Event>) returns (k: nat)
    requires Observe(ctx, t).verdict.Some?
    ensures k < |t| && (t[k].Probed? || t[k].Judged?) && Some(t[k].cls) == Observe(ctx, t).verdict
    ensures forall n | k < n < |t| :: !t[n].Probed? && !t[n].Judged? && !IsMutation(t[n])
  {
    var n := |t| - 1;
    if t[n].Probed? || t[n].Judged? {
      k := n;
    } else {
      k := VerdictIsLast(ctx, t[..n]);
      assert forall i | 0 <= i < n :: t[..n][i] == t[i];
    }
  }

  // ----- the budget is read live

  /** The budget a trace was given is the one its monitor measures by. */
  lemma {:induction false} EndIsBudget(ctx: Context, t: seq<Event>) returns (j: nat)
    requires Lawful(ctx, t) && Observe(ctx, t).end.Some?
    ensures j < |t| && t[j].Budgeted? && t[j].end == Observe(ctx, t).end.value
  {
    var n := |t| - 1;
    if t[n].Budgeted? {
      j := n;
    } else {
      j := EndIsBudget(ctx, t[..n]);
      assert t[..n][j] == t[j];
    }
  }

  /** A margin was left by a clock reading with nothing but clock readings after it. */
  lemma {:induction false} MarginWasRead(ctx: Context, t: seq<Event>) returns (k: nat)
    requires Observe(ctx, t).margin.Some?
    ensures k < |t| && Ticks(t, k)
    ensures Observe(ctx, t).end.Some? && Observe(ctx, t).margin == Some(Observe(ctx, t).end.value - t[k].reading)
  {
    var n, m := |t| - 1, Observe(ctx, t);
    if m.end.Some? && m.margin == Some(m.end.value - t[n].reading) {
      k := n;
    } else {
      k := MarginWasRead(ctx, t[..n]);
      assert forall i | 0 <= i < n :: t[..n][i] == t[i];
    }
  }

  /** Events that send a request or begin a mutation. */
  predicate Starts(e: Event) {
    e.Railway? || IsHermesCall(e) || e.DeployCalled? || e.GatewayCalled?
  }

  /**
   * In a budgeted run nothing is sent and no mutation begins before the budget is made, nor
   * unless a clock reading directly before it left time.
   */
  lemma StartedInTime(ctx: Context, t: seq<Event>, i: nat) returns (j: nat, k: nat)
    requires Lawful(ctx, t) && i < |t| && ctx.budgeted && Starts(t[i])
    ensures j < i && t[j].Budgeted?
    ensures DirectlyBefore(t, k, i) && t[k].Tick? && t[k].reading < t[j].end
  {
    LawfulAt(ctx, t, i);
    j := EndIsBudget(ctx, t[..i]);
    k := MarginWasRead(ctx, t[..i]);
    assert forall n | 0 <= n < i :: t[..i][n] == t[n];
  }

  /** What a request may take or a sleep is asked to. */
  function AllowanceOf(e: Event): Option<real> {
    match e
    case Railway(_, wall, _, _) => wall
    case Login(wall, _, _) => wall
    case StatusRead(_, wall, _, _) => wall
    case RestartPost(_, wall, _, _) => wall
    case Slept(asked, _) => Some(asked)
    case _ => None
  }

  /**
   * In a budgeted run no wall or sleep comes from a stale reading: each is bounded by what the
   * clock reading right before it left, and a request is given exactly that.
   */
  lemma AllowanceIsLive(ctx: Context, t: seq<Event>, i: nat) returns (j: nat)
    requires Lawful(ctx, t) && i < |t| && ctx.budgeted
    requires t[i].Slept? || t[i].Railway? || IsHermesRequest(t[i])
    ensures j < i && t[j].Budgeted? && t[i - 1].Tick?
    ensures AllowanceOf(t[i]).Some? && AllowanceOf(t[i]).value <= Max0(t[j].end - t[i - 1].reading)
    ensures !t[i].Slept? ==> AllowanceOf(t[i]).value == t[j].end - t[i - 1].reading
  {
    LawfulAt(ctx, t, i);
    j := EndIsBudget(ctx, t[..i]);
    assert t[..i][j] == t[j] && i > 0 && t[..i][i - 1] == t[i - 1];
  }

  // ----- time

  /** A wait that took no longer than it was allowed to. */
  predicate Honoured(e: Event) {
    match e
    case Slept(asked, took) => took <= Max0(asked)
    case Railway(_, wall, took, _) => wall.Some? ==> took <= Max0(wall.value)
    case Login(wall, took, _) => wall.Some? ==> took <= Max0(wall.value)
    case StatusRead(_, wall, took, _) => wall.Some? ==> took <= Max0(wall.value)
    case RestartPost(_, wall, took, _) => wall.Some? ==> took <= Max0(wall.value)
    case _ => true
  }

  predicate AllHonoured(t: seq<Event>) {
    forall i | 0 <= i < |t| :: Honoured(t[i])
  }

  /** The time spent between the readings of the clock and the date, when nothing is waited for. */
  function ReadingTime(t: seq<Event>): real {
    if t == [] then 0.0
    else
      var e := t[|t| - 1];
      ReadingTime(t[..|t| - 1]) + if e.Tick? || e.Dated? then e.took else 0.0
  }

  /** The time of requests to the web UI, which have a timeout for each phase and no wall. */
  function WebTime(t: seq<Event>): real {
    if t == [] then 0.0
    else WebTime(t[..|t| - 1]) + if t[|t| - 1].Webui? then t[|t| - 1].took else 0.0
  }

  /** When sleeps and walls are honoured, the overhead is only the time between readings and that of the web UI. */
  lemma {:induction false} OverheadIsReadingTime(ctx: Context, t: seq<Event>)
    requires Lawful(ctx, t) && ctx.budgeted && AllHonoured(t)
    ensures Observe(ctx, t).overhead == ReadingTime(t) + WebTime(t)
    ensures !ctx.selfhosted ==> WebTime(t) == 0.0
  {
    if t != [] {
      var n := |t| - 1;
      assert forall i | 0 <= i < n :: t[..n][i] == t[i];
      OverheadIsReadingTime(ctx, t[..n]);
      OverheadOfEvent(ctx, Observe(ctx, t[..n]), t[n]);
    }
  }

  lemma OverheadOfEvent(ctx: Context, m: Monitor, e: Event)
    requires Allowed(ctx, m, e) && ctx.budgeted && Honoured(e)
    ensures Overhead(e) == if e.Tick? || e.Dated? || e.Webui? then e.took else 0.0
    ensures !ctx.selfhosted ==> !e.Webui?
  {
  }
}
