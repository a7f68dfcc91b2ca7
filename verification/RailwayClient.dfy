/** The Railway client: safe reads are retried with backoff, the restart mutation is sent once. */
module RailwayClient {
  import opened Wrappers
  import opened Errors
  import opened Json
  import opened HttpPolicy
  import opened Responses
  import opened Replies
  import opened Trace
  import opened World

  /** No request is among the events a call added. */
  ghost predicate NoRequest(old_: seq<Event>, new_: seq<Event>) {
    old_ <= new_ && forall k | |old_| <= k < |new_| :: !new_[k].Railway?
  }

  class Client {
    const world: Outside
    const retry: RetryPolicy

    constructor (world: Outside, retry: RetryPolicy)
      ensures this.world == world && this.retry == retry
    {
      this.world, this.retry := world, retry;
    }

    /** The retry policy is the one the run is watched by; there is no Railway in self-hosted mode. */
    ghost predicate Fits() {
      retry == world.ctx.retry && retry.base >= 0.0 && !world.ctx.selfhosted
    }

    method ClipBackoff(attempt: nat, b: Budget?) returns (d: real)
      requires world.Valid() && world.OnTime(b) && Fits()
      modifies world
      ensures world.Valid() && world.OnTime(b)
      ensures b == null ==> d == retry.BackoffFor(attempt)
      ensures b != null ==> d == Max0(Min(retry.BackoffFor(attempt), b.end - world.clock))
      ensures MaySleep(world.ctx, world.mon, d) && Max0(d) == Clipped(world.mon, retry.BackoffFor(attempt))
      ensures Quiet(old(world.mon), world.mon)
      ensures NoRequest(old(world.trace), world.trace)
    {
      BackoffPositive(retry, attempt);
      d := retry.BackoffFor(attempt);
      if b != null {
        var left := b.Remaining();
        d := Max0(Min(d, left));
      }
    }

    /** Waits before the next attempt. */
    method Pause(attempt: nat, b: Budget?)
      requires world.Valid() && world.OnTime(b) && Fits()
      requires world.mon.backoff == Some(retry.BackoffFor(attempt))
      modifies world
      ensures world.Valid() && world.OnTime(b)
      ensures Harmless(old(world.mon), world.mon) && RailwayQuiet(old(world.mon), world.mon)
      ensures HermesQuiet(old(world.mon), world.mon)
      ensures world.mon.backoff.None? && world.mon.attempt == old(world.mon.attempt)
      ensures world.mon.asked <= old(world.mon.asked) + retry.BackoffFor(attempt)
      ensures NoRequest(old(world.trace), world.trace)
    {
      BackoffPositive(retry, attempt);
      var d := ClipBackoff(attempt, b);
      var took := world.Sleep(d);
    }

    method Execute(restart: Option<Json>, b: Budget?) returns (reply: Reply)
      requires world.Valid() && world.OnTime(b) && Fits() && InTime(world.ctx, world.mon)
      requires restart.None? ==> MayRead(world.mon)
      modifies world
      ensures world.Valid() && world.OnTime(b)
      ensures HermesQuiet(old(world.mon), world.mon)
      ensures world.mon.railway == old(world.mon.railway) + 1 && world.mon.asked == old(world.mon.asked)
      ensures restart.None? ==>
        && Harmless(old(world.mon), world.mon) && world.mon.read == StatusOf(world.ctx, reply) && Fresh(world.mon)
        && Tried(old(world.mon), world.mon, reply)
      ensures restart.Some? ==> RestartSent(restart.value, old(world.mon), world.mon)
      ensures OneRequest(old(world.trace), world.trace, restart, reply)
    {
      var wall := None;
      if b != null {
        var left := b.Remaining();
        wall := Some(left);
      }
      ghost var took;
      reply, took := world.CallRailway(restart, wall);
    }

    /** A status read is due: none before it, or the last has been waited after. */
    ghost predicate MayRead(m: Monitor) {
      m.backoff.None? && m.attempt <= retry.maxRetries
    }

    /** What a status read leaves to be done before the next. */
    ghost predicate Tried(a: Monitor, b: Monitor, reply: Reply) {
      CanRetry(retry, reply) ==> b.attempt == a.attempt + 1 && b.backoff == Some(retry.BackoffFor(a.attempt))
    }

    /** The restart request: permitted if it follows its call directly. */
    static ghost predicate RestartSent(id: Json, a: Monitor, b: Monitor) {
      && b.deployCalls == a.deployCalls && b.gatewayCalls == a.gatewayCalls && b.verdict == None
      && b.first == a.first && b.probes == a.probes
      && (a.lawful && a.permit == MayDeploy(id) ==> b.lawful) && b.read == a.read
    }

    static ghost predicate OneRequest(old_: seq<Event>, new_: seq<Event>, restart: Option<Json>, reply: Reply) {
      var n := |new_| - 1;
      && old_ <= new_ && |old_| < |new_|
      && new_[n].Railway? && new_[n].restart == restart && new_[n].reply == reply
      && forall k | |old_| <= k < n :: !new_[k].Railway?
    }

    /** Requests from `from` on: each but the last was answered so that a retry is allowed. */
    ghost predicate RetriedRightly(from: nat, t: seq<Event>, retryable: bool) {
      forall i, j | from <= i < j < |t| && t[i].Railway? && t[j].Railway? :: retryable && CanRetry(retry, t[i].reply)
    }

    ghost predicate AllRetryable(from: nat, t: seq<Event>) {
      forall i | from <= i < |t| && t[i].Railway? :: CanRetry(retry, t[i].reply)
    }

    lemma RequestAdded(from: nat, t: seq<Event>, u: seq<Event>, restart: Option<Json>, reply: Reply, retryable: bool)
      requires from <= |t| && AllRetryable(from, t) && OneRequest(t, u, restart, reply)
      requires retryable || forall i | from <= i < |t| :: !t[i].Railway?
      ensures RetriedRightly(from, u, retryable)
      ensures CanRetry(retry, reply) ==> AllRetryable(from, u)
    {
      forall i | from <= i < |t| ensures u[i] == t[i] { }
    }

    lemma PauseAdded(from: nat, t: seq<Event>, u: seq<Event>)
      requires from <= |t| && AllRetryable(from, t) && NoRequest(t, u)
      ensures AllRetryable(from, u)
    {
      forall i | from <= i < |t| ensures u[i] == t[i] { }
    }

    /** Decoding a response below 400. */
    static function Decode(reply: Reply): Result<seq<(string, Json)>, Error>
      requires reply.Http?
    {
      if reply.body.None? || !reply.body.value.Obj? then Err(RailwayGraphQL)
      else if Truthy(Get(reply.body.value.entries, "errors")) then Err(RailwayGraphQL)
      else if !Get(reply.body.value.entries, "data").Obj? then Err(RailwayGraphQL)
      else Ok(Get(reply.body.value.entries, "data").entries)
    }

    /** How an attempt ends the call; `None` is another attempt after a pause. */
    function Settle(restart: Option<Json>, reply: Reply, isLast: bool): (r: Option<Result<seq<(string, Json)>, Error>>)
      ensures r.None? ==> !isLast && CanRetry(retry, reply)
      ensures restart.None? && !isLast && CanRetry(retry, reply) ==> r.None?
      ensures r.Some? && r.value.Ok? ==> DataOf(reply) == Some(r.value.value)
      ensures r.Some? && r.value.Err? ==> !r.value.error.IsHermes() && DataOf(reply).None?
    {
      match reply
      case Failed(TimedOut) => if isLast then Some(Err(RailwayTimeout)) else None
      case Failed(Disconnected) => if isLast then Some(Err(RailwayHttp)) else None
      case Failed(Interrupted) => Some(Err(Interrupt))
      case Failed(_) => Some(Err(Unexpected))
      case Http(status, _, _, _) =>
        if status == 401 || status == 403 then Some(Err(RailwayAuth))
        else if status < 400 then Some(Decode(reply))
        else if restart.None? && status in retry.statuses && !isLast then None
        else Some(Err(RailwayHttp))
    }

    /** The call's result is what its last reply settles. */
    ghost predicate Concluded(t: seq<Event>, restart: Option<Json>, isLast: bool,
        r: Result<seq<(string, Json)>, Error>) {
      t != [] && t[|t| - 1].Railway? && t[|t| - 1].restart == restart
        && Settle(restart, t[|t| - 1].reply, isLast) == Some(r)
    }

    /** A last reply that may be tried again is that of the last retry. */
    ghost predicate RetriesUsedUp(t: seq<Event>, made: int) {
      t != [] && t[|t| - 1].Railway? && (CanRetry(retry, t[|t| - 1].reply) ==> made == retry.maxRetries + 1)
    }

    /** One attempt; `None` is another attempt after a pause. */
    method Attempt(restart: Option<Json>, isLast: bool, b: Budget?, ghost from: nat)
      returns (settled: Option<Result<seq<(string, Json)>, Error>>)
      requires world.Valid() && world.OnTime(b) && Fits() && from <= |world.trace| && AllRetryable(from, world.trace)
      requires restart.None? ==> MayRead(world.mon)
      requires restart.Some? ==> from == |world.trace|
      modifies world
      ensures world.Valid() && world.OnTime(b)
      ensures HermesQuiet(old(world.mon), world.mon) && world.mon.asked == old(world.mon.asked)
      ensures old(world.mon.railway) <= world.mon.railway <= old(world.mon.railway) + 1
      ensures settled.None? ==> world.mon.railway == old(world.mon.railway) + 1
      ensures old(world.PastEnd(b)) ==>
        settled == Some(Err(RailwayTimeout)) && world.mon.railway == old(world.mon.railway)
      ensures settled.Some? ==>
        || (settled.value == Err(RailwayTimeout) && world.PastEnd(b))
        || (world.mon.railway == old(world.mon.railway) + 1 && Concluded(world.trace, restart, isLast, settled.value))
      ensures old(world.trace) <= world.trace && RetriedRightly(from, world.trace, restart.None?)
      ensures settled.None? ==> !isLast && AllRetryable(from, world.trace)
      ensures restart.None? ==> Harmless(old(world.mon), world.mon)
      ensures restart.None? && settled.Some? && settled.value.Ok? ==>
        world.mon.read == ParseStatus(world.ctx.ops, settled.value.value, world.ctx.scope) && Fresh(world.mon)
      ensures settled.None? && restart.None? ==>
        && world.mon.attempt == old(world.mon.attempt) + 1
        && world.mon.backoff == Some(retry.BackoffFor(old(world.mon.attempt)))
      ensures restart.Some? ==>
        RestartSent(restart.value, old(world.mon), world.mon) || Unsent(old(world.mon), world.mon)
      ensures settled.Some? && settled.value.Err? ==> !settled.value.error.IsHermes()
    {
      ghost var start := world.trace;
      var spent := Spent(world, b);
      PauseAdded(from, start, world.trace);
      if spent {
        return Some(Err(RailwayTimeout));
      }
      ghost var before := world.trace;
      var reply := Execute(restart, b);
      RequestAdded(from, before, world.trace, restart, reply, restart.None?);
      settled := Settle(restart, reply, isLast);
    }

    /**
     * One GraphQL call: a read (`restart` is None) is retried, the mutation is not. `fell` says
     * that the loop was left without a verdict.
     */
    method Post(restart: Option<Json>, b: Budget?) returns (r: Result<seq<(string, Json)>, Error>, ghost fell: bool)
      requires world.Valid() && world.OnTime(b) && Fits()
      requires restart.None? ==> world.mon.backoff.None? && world.mon.attempt == 0
      modifies world
      ensures world.Valid() && world.OnTime(b)
      ensures HermesQuiet(old(world.mon), world.mon)
      ensures fell <==> retry.Attempts(restart.None?) <= 0
      ensures old(world.mon.railway) <= world.mon.railway <= old(world.mon.railway)
        + (if fell then 0 else retry.Attempts(restart.None?))
      ensures old(world.PastEnd(b)) && !fell ==> r == Err(RailwayTimeout) && world.mon.railway == old(world.mon.railway)
      ensures fell ==> world.mon == old(world.mon) && r == Err(RailwayHttp)
      ensures !fell ==>
        || (r == Err(RailwayTimeout) && world.PastEnd(b))
        || (world.mon.railway > old(world.mon.railway)
            && Concluded(world.trace, restart,
              world.mon.railway - old(world.mon.railway) == retry.Attempts(restart.None?), r))
      ensures restart.None? && !fell ==>
        || (r == Err(RailwayTimeout) && world.PastEnd(b))
        || RetriesUsedUp(world.trace, world.mon.railway - old(world.mon.railway))
      ensures !fell ==> world.mon.asked <= old(world.mon.asked) + retry.BackoffSum(retry.Attempts(restart.None?) - 1)
      ensures old(world.trace) <= world.trace && RetriedRightly(|old(world.trace)|, world.trace, restart.None?)
      ensures restart.None? ==> Harmless(old(world.mon), world.mon)
      ensures restart.None? && r.Ok? ==>
        world.mon.read == ParseStatus(world.ctx.ops, r.value, world.ctx.scope) && Fresh(world.mon)
      ensures restart.Some? ==>
        RestartSent(restart.value, old(world.mon), world.mon) || Unsent(old(world.mon), world.mon)
      ensures r.Err? ==> !r.error.IsHermes()
    {
      var attempts := retry.Attempts(restart.None?);
      var attempt := 0;
      fell := false;
      ghost var from := |world.trace|;
      while attempt < attempts
        invariant 0 <= attempt && (attempt > 0 ==> restart.None? && attempt < attempts)
        invariant world.Valid() && world.OnTime(b)
        invariant HermesQuiet(old(world.mon), world.mon)
        invariant world.mon.railway == old(world.mon.railway) + attempt
        invariant restart.None? ==> world.mon.backoff.None? && world.mon.attempt == attempt
        invariant world.mon.asked <= old(world.mon.asked) + retry.BackoffSum(attempt)
        invariant old(world.trace) <= world.trace && AllRetryable(from, world.trace)
        invariant Harmless(old(world.mon), world.mon)
        invariant attempt == 0 ==> world.mon == old(world.mon) && world.trace == old(world.trace)
        invariant old(world.PastEnd(b)) ==> attempt == 0 && world.PastEnd(b)
      {
        var isLast := attempt == attempts - 1;
        BackoffSumGrows(retry, attempt, attempts - 1);
        var settled := Attempt(restart, isLast, b, from);
        if settled.Some? {
          return settled.value, false;
        }
        ghost var sent := world.trace;
        Pause(attempt, b);
        PauseAdded(from, sent, world.trace);
        attempt := attempt + 1;
      }
      return Err(RailwayHttp), true;
    }

    /** The call ended before the restart request. */
    static ghost predicate Unsent(a: Monitor, b: Monitor) {
      Harmless(a, b) && b.railway == a.railway && b.read == a.read
    }

    method GetServiceStatus(b: Budget?) returns (r: Result<ServiceStatus, Error>)
      requires world.Valid() && world.OnTime(b) && Fits()
      requires world.mon.backoff.None? && world.mon.attempt == 0
      modifies world
      ensures world.Valid() && world.OnTime(b)
      ensures HermesQuiet(old(world.mon), world.mon) && Harmless(old(world.mon), world.mon)
      ensures old(world.mon.railway) <= world.mon.railway <= old(world.mon.railway) + retry.Reads()
      ensures r.Ok? ==>
        world.mon.read == Some(r.value) && world.mon.railway > old(world.mon.railway) && Fresh(world.mon)
      ensures r.Err? ==>
        !r.error.IsHermes() && (retry.maxRetries < 0 || world.PastEnd(b) || ReadFailed(world.ctx, world.trace))
      ensures r.Err? && retry.maxRetries >= 0 && !world.PastEnd(b) ==>
        RetriesUsedUp(world.trace, world.mon.railway - old(world.mon.railway))
    {
      ghost var fell;
      var data;
      data, fell := Post(None, b);
      if data.Err? {
        return Err(data.error);
      }
      var status := ParseStatus(world.ctx.ops, data.value, world.ctx.scope);
      return if status.Some? then Ok(status.value) else Err(RailwayGraphQL);
    }

    /** The last reply was to a status read and told no status. */
    static ghost predicate ReadFailed(ctx: Context, t: seq<Event>) {
      t != [] && t[|t| - 1].Railway? && t[|t| - 1].restart.None? && StatusOf(ctx, t[|t| - 1].reply).None?
    }

    /** The last reply was to the restart request and decoded, with or without an explicit `true`. */
    static ghost predicate RestartAnswered(t: seq<Event>, id: Json, accepted: bool) {
      && t != [] && t[|t| - 1].Railway? && t[|t| - 1].restart == Some(id) && DataOf(t[|t| - 1].reply).Some?
      && (Get(DataOf(t[|t| - 1].reply).value, "deploymentRestart") == Bool(true) <==> accepted)
    }

    /** The mutation: only an explicit `true` is success. */
    method RestartCurrentDeployment(id: Json, b: Budget?) returns (r: Result<bool, Error>)
      requires world.Valid() && world.OnTime(b) && Fits()
      requires world.mon.permit == MayDeploy(id)
      modifies world
      ensures world.Valid() && world.OnTime(b)
      ensures HermesQuiet(old(world.mon), world.mon)
      ensures old(world.mon.lawful) ==> world.mon.lawful
      ensures world.mon.deployCalls == old(world.mon.deployCalls)
        && world.mon.gatewayCalls == old(world.mon.gatewayCalls)
      ensures world.mon.first == old(world.mon.first) && world.mon.probes == old(world.mon.probes)
      ensures old(world.mon.verdict).None? ==> world.mon.verdict.None?
      ensures old(world.mon.railway) <= world.mon.railway <= old(world.mon.railway) + 1
      ensures r.Ok? ==> RestartAnswered(world.trace, id, r.value)
      ensures r.Err? ==> !r.error.IsHermes()
    {
      ghost var fell;
      var data;
      data, fell := Post(Some(id), b);
      if data.Err? {
        return Err(data.error);
      }
      return Ok(Get(data.value, "deploymentRestart") == Bool(true));
    }
  }
}
