/** The Hermes client: a cookie session, health checks, and the gateway restart with its polling. */
module HermesClient {
  import opened Wrappers
  import opened Errors
  import opened Json
  import opened Responses
  import opened State
  import opened Replies
  import opened Trace
  import opened World

  /** The event a request shows up as. */
  function TimedEvent(op: Op, session: bool, wall: Option<real>, took: Duration, reply: Reply): Event {
    match op
    case LoginOp => Login(wall, took, reply)
    case StatusOp => StatusRead(session, wall, took, reply)
    case RestartOp => RestartPost(session, wall, took, reply)
  }

  /** The same with its timing left out. */
  function OpEvent(op: Op, session: bool, reply: Reply): Event {
    TimedEvent(op, session, None, 0.0, reply)
  }

  /** One request was sent and answered; clock readings aside, nothing else happened. */
  ghost predicate Requested(ctx: Context, op: Op, session: bool, reply: Reply, a: Monitor, b: Monitor) {
    && (a.lawful && Founded(ctx, a, OpEvent(op, session, reply)) ==> b.lawful)
    && b.permit == NextPermit(a.permit, OpEvent(op, session, reply))
    && b.read == a.read && b.railway == a.railway
    && b.health == (if op.StatusOp? then HealthOf(reply) else a.health)
    && b.verdict == (if op.RestartOp? then None else a.verdict)
    && b.deployCalls == a.deployCalls && b.gatewayCalls == a.gatewayCalls && b.first == a.first && b.probes == a.probes
    && b.last == Some((op, reply))
    && b.rejects == a.rejects + (if !op.LoginOp? && Unauthorized(reply) then 1 else 0)
    && Unaffected(a, b)
    && b.logins == a.logins + (if op.LoginOp? then 1 else 0)
    && b.statusReads == a.statusReads + (if op.StatusOp? then 1 else 0)
    && b.posts == a.posts + (if op.RestartOp? then 1 else 0)
  }

  /** What no request changes. */
  ghost predicate Unaffected(a: Monitor, b: Monitor) {
    && b.tried == a.tried && b.raised == a.raised && b.downs == a.downs && b.debt == a.debt && b.web == a.web
    && b.authRaised == a.authRaised && (!a.authRaised ==> b.afterAuth == a.afterAuth)
  }

  lemma NextIsRequested(ctx: Context, op: Op, session: bool, wall: Option<real>, took: Duration, reply: Reply,
      a: Monitor)
    requires MayRequest(ctx, a, wall)
    ensures Requested(ctx, op, session, reply, a, Next(ctx, a, TimedEvent(op, session, wall, took, reply)))
    ensures Next(ctx, a, TimedEvent(op, session, wall, took, reply)).overhead == a.overhead + Overrun(wall, took)
    ensures Next(ctx, a, TimedEvent(op, session, wall, took, reply)).expired == a.expired
    ensures Next(ctx, a, TimedEvent(op, session, wall, took, reply)).end == a.end
  {
  }

  /** Logins and status reads only, at most so many of each. */
  ghost predicate Visited(a: Monitor, b: Monitor, logins: nat, statusReads: nat) {
    && Harmless(a, b) && RailwayQuiet(a, b) && b.raised == a.raised
    && b.logins <= a.logins + logins && a.statusReads <= b.statusReads <= a.statusReads + statusReads
      && b.posts == a.posts
    && b.authRaised == a.authRaised && (!a.authRaised ==> b.afterAuth == a.afterAuth)
  }

  /** The last request was a login, and its response left a session cookie. */
  ghost predicate SessionGranted(m: Monitor) {
    m.last.Some? && m.last.value.0.LoginOp? && m.last.value.1.Http? && m.last.value.1.session
  }

  /** The last request was a restart request that was accepted. */
  ghost predicate PostAccepted(m: Monitor) {
    m.last.Some? && m.last.value.0.RestartOp? && RestartAccepted(m.last.value.1)
  }

  class Client {
    const world: Outside
    const pollAttempts: int
    const pollInterval: real
    var session: bool

    constructor (world: Outside, pollAttempts: int, pollInterval: real)
      ensures this.world == world && this.pollAttempts == pollAttempts && this.pollInterval == pollInterval && !session
    {
      this.world, this.pollAttempts, this.pollInterval := world, pollAttempts, pollInterval;
      session := false;
    }

    /** The polling limits are those the run is watched by. */
    ghost predicate Fits() {
      Polls() == world.ctx.polls && pollInterval == world.ctx.pollInterval
    }

    /** Cookies are all a client keeps. */
    method Close()
      modifies this`session
      ensures !session
    {
      session := false;
    }

    /** Puts the request on the wire, with the remaining budget just read as its wall. */
    method Dispatch(op: Op, wall: Option<real>, b: Budget?) returns (reply: Reply)
      requires world.Valid() && world.OnTime(b)
      requires b != null ==> wall == Some(b.end - world.clock)
      requires MayRequest(world.ctx, world.mon, wall)
      modifies world
      ensures world.Valid() && world.OnTime(b)
      ensures Requested(world.ctx, op, session, reply, old(world.mon), world.mon)
    {
      ghost var took;
      match op {
        case LoginOp => reply, took := world.CallLogin(wall);
        case StatusOp => reply, took := world.CallStatus(session, wall);
        case RestartOp => reply, took := world.CallRestart(session, wall);
      }
      NextIsRequested(world.ctx, op, session, wall, took, reply, old(world.mon));
    }

    /** One request under the live remaining budget; `sent` is its reply if it was sent at all. */
    method Request(op: Op, b: Budget?) returns (r: Result<Reply, Error>, ghost sent: Option<Reply>)
      requires world.Valid() && world.OnTime(b)
      modifies world, this`session
      ensures world.Valid() && world.OnTime(b)
      ensures old(world.PastEnd(b)) ==> sent.None?
      ensures sent.None? ==>
        && r == Err(HermesTimeout) && Quiet(old(world.mon), world.mon) && world.mon.expired && session == old(session)
      ensures sent.Some? ==> Requested(world.ctx, op, old(session), sent.value, old(world.mon), world.mon)
      ensures sent.Some? ==> session == if sent.value.Http? then sent.value.session else old(session)
      ensures r.Ok? ==> sent == Some(r.value)
      ensures sent.Some? ==> (r.Ok? <==> sent.value.Http? && !UnsafeRedirect(sent.value))
      ensures sent.Some? && r.Err? ==> r.error == RequestError(sent.value, r.error)
      ensures sent.Some? && sent.value.Http? ==>
        (r == Err(HermesProtocol) <==> 300 <= sent.value.status < 400 && !sent.value.sameOrigin)
      ensures sent == Some(Failed(TimedOut)) ==> r == Err(HermesTimeout)
      ensures sent == Some(Failed(Disconnected)) || sent == Some(Failed(OtherHttpError)) ==> r == Err(HermesHttp)
    {
      var wall := None;
      if b != null {
        var left := b.Remaining();
        if left <= 0.0 {
          return Err(HermesTimeout), None;
        }
        wall := Some(left);
      }
      var reply := Dispatch(op, wall, b);
      if reply.Failed? {
        return Err(ErrorOf(reply.fault)), Some(reply);
      }
      session := reply.session;
      if UnsafeRedirect(reply) {
        return Err(HermesProtocol), Some(reply);
      }
      return Ok(reply), Some(reply);
    }

    method LogIn(b: Budget?) returns (r: Result<(), Error>)
      requires world.Valid() && world.OnTime(b) && !Unpaused(world.mon)
      modifies world, this`session
      ensures world.Valid() && world.OnTime(b)
      ensures Visited(old(world.mon), world.mon, 1, 0) && Unaffected(old(world.mon), world.mon)
      ensures world.mon.health == old(world.mon.health) && world.mon.rejects == old(world.mon.rejects)
      ensures r.Ok? ==>
        && session && world.mon.permit == AfterLogin(old(world.mon.permit))
        && world.mon.logins == old(world.mon.logins) + 1 && LoggedInAgain(world.mon)
      ensures r.Err? ==> Explained(world.mon, r.error)
      ensures session ==> world.mon.logins == old(world.mon.logins) + 1 && SessionGranted(world.mon)
    {
      session := false;
      ghost var sent;
      var response;
      response, sent := Request(LoginOp, b);
      if response.Err? {
        return Err(response.error);
      }
      var reply := response.value;
      if reply.status != 200 || reply.body.None? || !reply.body.value.Obj?
         || Get(reply.body.value.entries, "ok") != Bool(true) || !session
      {
        return Err(HermesAuth);
      }
      assert LoginOk(reply);
      return Ok(());
    }

    method EnsureLogin(b: Budget?) returns (r: Result<(), Error>)
      requires world.Valid() && world.OnTime(b) && !Unpaused(world.mon)
      modifies world, this`session
      ensures world.Valid() && world.OnTime(b)
      ensures Visited(old(world.mon), world.mon, 1, 0) && Unaffected(old(world.mon), world.mon)
      ensures world.mon.health == old(world.mon.health) && world.mon.rejects == old(world.mon.rejects)
      ensures old(session) ==> r.Ok? && world.mon == old(world.mon)
      ensures r.Ok? ==>
        session && (world.mon.permit == old(world.mon.permit) || world.mon.permit == AfterLogin(old(world.mon.permit)))
      ensures r.Err? ==> Explained(world.mon, r.error)
    {
      r := Ok(());
      if !session {
        r := LogIn(b);
      }
    }

    method ParseHealth(reply: Reply) returns (r: Result<HealthResult, Error>)
      requires reply.Http?
      ensures r.Ok? <==> HealthOf(reply).Some?
      ensures r.Ok? ==> HealthOf(reply) == Some(r.value)
      ensures r == Err(HermesAuth) <==> reply.status == 401
      ensures r == Err(HermesProtocol) <==> reply.status == 200 && HealthOf(reply).None?
      ensures r.Err? && !UnsafeRedirect(reply) ==> FailureOf(StatusOp, reply) == Some(r.error)
    {
      if reply.status == 401 {
        return Err(HermesAuth);
      }
      if reply.status != 200 {
        return Err(HermesHttp);
      }
      if reply.body.None? || !reply.body.value.Obj? {
        return Err(HermesProtocol);
      }
      var body := reply.body.value.entries;
      var platforms := ParsePlatforms(Get(body, "gateway_platforms"));
      return Ok(HealthResult(true, Get(body, "gateway_running") == Bool(true), platforms));
    }

    /** One status read. */
    method ReadOnce(b: Budget?) returns (r: Result<Reply, Error>)
      requires world.Valid() && world.OnTime(b) && session && !Unpaused(world.mon)
      requires world.mon.rejects == 0 || (world.mon.rejects == 1 && LoggedInAgain(world.mon))
      modifies world, this`session
      ensures world.Valid() && world.OnTime(b)
      ensures Visited(old(world.mon), world.mon, 0, 1) && Unaffected(old(world.mon), world.mon)
      ensures r.Ok? ==> ReadAnswered(old(world.mon), world.mon, r.value)
      ensures r.Err? ==> Explained(world.mon, r.error) && world.mon.rejects <= 1
      ensures r.Err? ==> world.mon.health.None? || world.mon.health == old(world.mon.health)
    {
      ghost var sent;
      r, sent := Request(StatusOp, b);
    }

    /** A status read got a response that can be used. */
    static ghost predicate ReadAnswered(a: Monitor, b: Monitor, reply: Reply) {
      && reply.Http? && !UnsafeRedirect(reply) && b.last == Some((StatusOp, reply)) && b.health == HealthOf(reply)
      && b.rejects == a.rejects + (if Unauthorized(reply) then 1 else 0) && b.statusReads == a.statusReads + 1
    }

    /** After a 401: a new login and one more read. */
    method ReadAgain(b: Budget?) returns (r: Result<Reply, Error>)
      requires world.Valid() && world.OnTime(b) && !Unpaused(world.mon) && world.mon.rejects == 1
      requires world.mon.health.None?
      modifies world, this`session
      ensures world.Valid() && world.OnTime(b)
      ensures Visited(old(world.mon), world.mon, 1, 1) && Unaffected(old(world.mon), world.mon)
      ensures r.Ok? ==> ReadAnswered(old(world.mon), world.mon, r.value)
      ensures r.Err? ==> Explained(world.mon, r.error) && world.mon.rejects <= 1 && world.mon.health.None?
    {
      var again := LogIn(b);
      if again.Err? {
        return Err(again.error);
      }
      r := ReadOnce(b);
    }

    /** Log in if needed, read the status, log in again once on a 401. */
    method Status(b: Budget?) returns (r: Result<HealthResult, Error>)
      requires world.Valid() && world.OnTime(b) && !Unpaused(world.mon) && world.mon.rejects == 0
      modifies world, this`session
      ensures world.Valid() && world.OnTime(b)
      ensures Visited(old(world.mon), world.mon, 2, 2) && Unaffected(old(world.mon), world.mon)
      ensures r.Ok? ==> world.mon.health == Some(r.value) && r.value.statusOk
      ensures r.Err? ==> world.mon.health.None? || world.mon.health == old(world.mon.health)
      ensures r.Err? ==> Explained(world.mon, r.error)
      ensures r.Err? && world.mon.rejects == 2 ==> world.mon.statusReads == old(world.mon.statusReads) + 2
    {
      var ready := EnsureLogin(b);
      if ready.Err? {
        return Err(ready.error);
      }
      var response := ReadOnce(b);
      if response.Ok? && response.value.status == 401 {
        response := ReadAgain(b);
      }
      if response.Err? {
        return Err(response.error);
      }
      r := ParseHealth(response.value);
    }

    method CheckHealth(b: Budget?) returns (r: Result<HealthResult, Error>)
      requires world.Valid() && world.OnTime(b) && !Unpaused(world.mon) && world.mon.rejects == 0
      modifies world, this`session
      ensures world.Valid() && world.OnTime(b)
      ensures Checked(world.ctx, old(world.mon), world.mon, r)
    {
      r := Status(b);
      if r.Err? {
        world.Record(CheckRaised(r.error));
      }
    }

    /** One health check: at most two logins and two reads, and what it found. */
    static ghost predicate Checked(ctx: Context, a: Monitor, b: Monitor, r: Result<HealthResult, Error>) {
      && Harmless(a, b) && RailwayQuiet(a, b) && b.downs == a.downs && b.web == a.web
      && b.logins <= a.logins + 2 && b.statusReads <= a.statusReads + 2 && b.posts == a.posts
      && (r.Ok? ==> b.health == Some(r.value) && r.value.statusOk)
        && (r.Err? ==> (b.health.None? || b.health == a.health) && Raisable(r.error))
      && b.tried == a.tried + (if r.Err? then 1 else 0) && (r.Err? ==> b.rejects == 0)
      && b.raised == (if r.Err? then Some(r.error) else a.raised)
      && b.debt == (if r.Err? then Owes(true, ctx.interval) else a.debt)
      && (!a.authRaised ==> b.afterAuth == a.afterAuth && (b.authRaised <==> r == Err(HermesAuth)))
    }

    /** What an operation of the client can raise: its own errors, and what it does not catch. */
    static predicate Raisable(error: Error) {
      error in {HermesAuth, HermesTimeout, HermesProtocol, HermesHttp, Unexpected, Interrupt}
    }

    /** One restart request. */
    method PostOnce(b: Budget?) returns (r: Result<Reply, Error>)
      requires world.Valid() && world.OnTime(b) && session && !Unpaused(world.mon)
      requires (world.mon.permit.MayPost? && world.mon.rejects == 0)
        || (world.mon.permit.MayRepost? && world.mon.rejects == 1)
      modifies world, this`session
      ensures world.Valid() && world.OnTime(b)
      ensures Restarting(old(world.mon), world.mon, 0, 0, 1) && Unaffected(old(world.mon), world.mon)
      ensures r.Ok? ==> PostAnswered(old(world.mon), world.mon, r.value)
      ensures r.Err? ==> Explained(world.mon, r.error) && world.mon.rejects <= 1
    {
      ghost var sent;
      r, sent := Request(RestartOp, b);
    }

    /** A restart request got a response that can be used. */
    static ghost predicate PostAnswered(a: Monitor, b: Monitor, reply: Reply) {
      && reply.Http? && !UnsafeRedirect(reply) && b.last == Some((RestartOp, reply)) && b.posts == a.posts + 1
      && b.rejects == a.rejects + (if Unauthorized(reply) then 1 else 0)
      && (a.permit.MayPost? && Unauthorized(reply) ==> b.permit.Rejected?)
    }

    /** After a 401: a new login and one more request. */
    method PostAgain(b: Budget?) returns (r: Result<Reply, Error>)
      requires world.Valid() && world.OnTime(b) && !Unpaused(world.mon) && world.mon.rejects == 1
      requires world.mon.permit.Rejected?
      modifies world, this`session
      ensures world.Valid() && world.OnTime(b)
      ensures Restarting(old(world.mon), world.mon, 1, 0, 1) && Unaffected(old(world.mon), world.mon)
      ensures r.Ok? ==> PostAnswered(old(world.mon), world.mon, r.value)
      ensures r.Err? ==> Explained(world.mon, r.error) && world.mon.rejects <= 1
    {
      var again := LogIn(b);
      if again.Err? {
        return Err(again.error);
      }
      r := PostOnce(b);
    }

    /** The restart request, sent again once after a 401 and a successful login. */
    method PostRestart(b: Budget?) returns (r: Result<(), Error>)
      requires world.Valid() && world.OnTime(b) && session && world.mon.permit.MayPost?
      requires !Unpaused(world.mon) && world.mon.rejects == 0
      modifies world, this`session
      ensures world.Valid() && world.OnTime(b)
      ensures Restarting(old(world.mon), world.mon, 1, 0, 2) && Unaffected(old(world.mon), world.mon)
      ensures r.Ok? ==> world.mon.posts > old(world.mon.posts) && PostAccepted(world.mon)
      ensures r.Err? ==> Explained(world.mon, r.error)
      ensures r.Err? && world.mon.rejects == 2 ==> world.mon.posts == old(world.mon.posts) + 2
    {
      var response := PostOnce(b);
      if response.Ok? && response.value.status == 401 {
        response := PostAgain(b);
      }
      if response.Err? {
        return Err(response.error);
      }
      return RestartVerdict(response.value);
    }

    /** Requests of a gateway restart in progress, at most so many of each kind. */
    static ghost predicate Restarting(a: Monitor, b: Monitor, logins: nat, statusReads: nat, posts: nat) {
      && (a.lawful ==> b.lawful) && RailwayQuiet(a, b)
      && b.deployCalls == a.deployCalls && b.gatewayCalls == a.gatewayCalls && b.first == a.first
        && b.probes == a.probes
      && (a.verdict.None? ==> b.verdict.None?) && b.raised == a.raised && b.posts >= a.posts
      && b.logins <= a.logins + logins && b.statusReads <= a.statusReads + statusReads && b.posts <= a.posts + posts
      && b.authRaised == a.authRaised && (!a.authRaised ==> b.afterAuth == a.afterAuth)
    }

    /** Waits for the next poll. */
    method PollPause(b: Budget?)
      requires world.Valid() && world.OnTime(b)
      requires world.mon.debt == Owes(false, pollInterval)
      modifies world
      ensures world.Valid() && world.OnTime(b)
      ensures Visited(old(world.mon), world.mon, 0, 0)
      ensures world.mon.downs == old(world.mon.downs) && world.mon.debt.Free?
    {
      var d := pollInterval;
      if b != null {
        d := b.Clip(pollInterval);
      }
      var took := world.Sleep(d);
    }

    /** As many polls as the client was made with did not find the gateway healthy. */
    predicate AllPolled(m: Monitor) {
      m.downs == if pollAttempts < 0 then 0 else pollAttempts
    }

    /** Polls the status until the gateway is healthy; the client's errors only cost a poll. */
    method Poll(b: Budget?) returns (r: Result<bool, Error>)
      requires world.Valid() && world.OnTime(b) && Fits()
      requires world.mon.debt.Free? && world.mon.downs == 0 && world.mon.gatewayCalls > 0
      modifies world, this`session
      ensures world.Valid() && world.OnTime(b)
      ensures Visited(old(world.mon), world.mon, 2 * Polls(), 2 * Polls())
      ensures r.Ok? ==> r.value && world.mon.health.Some? && world.mon.health.value.Healthy()
      ensures old(world.PastEnd(b)) ==> r == Err(HermesTimeout)
      ensures r.Err? && r.error.IsHermes() ==>
        r.error == HermesTimeout && (world.mon.expired || AllPolled(world.mon))
      ensures r.Err? && !r.error.IsHermes() ==> Explained(world.mon, r.error)
    {
      for attempt := 0 to Polls()
        invariant world.Valid() && world.OnTime(b) && (attempt < Polls() ==> world.mon.debt.Free?)
        invariant world.mon.downs == attempt
        invariant old(world.PastEnd(b)) ==> attempt == 0 && world.PastEnd(b)
        invariant Visited(old(world.mon), world.mon, 2 * attempt, 2 * attempt)
      {
        var spent := Spent(world, b);
        if spent {
          return Err(HermesTimeout);
        }
        r := PollOnce(b, attempt == Polls() - 1);
        if r != Ok(false) {
          return;
        }
      }
      return Err(HermesTimeout);
    }

    /** The status of one poll: whether it read the gateway healthy. */
    method PollStatus(b: Budget?) returns (r: Result<bool, Error>)
      requires world.Valid() && world.OnTime(b) && Fits() && world.mon.debt.Free? && world.mon.gatewayCalls > 0
      modifies world, this`session
      ensures world.Valid() && world.OnTime(b)
      ensures Visited(old(world.mon), world.mon, 2, 2) && world.mon.downs == old(world.mon.downs)
      ensures world.mon.debt == Owes(false, pollInterval)
      ensures r.Ok? ==> RoundFound(world.ctx, world.mon, r.value)
      ensures r.Err? ==> !r.error.IsHermes() && Explained(world.mon, r.error)
    {
      world.Record(RoundStarted);
      var health := Status(b);
      if health.Err? && !health.error.IsHermes() {
        return Err(health.error);
      }
      return Ok(health.Ok? && health.value.Healthy());
    }

    /** One poll, and a pause unless it was the last. */
    method PollOnce(b: Budget?, isLast: bool) returns (r: Result<bool, Error>)
      requires world.Valid() && world.OnTime(b) && Fits() && world.mon.debt.Free? && world.mon.gatewayCalls > 0
      modifies world, this`session
      ensures world.Valid() && world.OnTime(b)
      ensures Visited(old(world.mon), world.mon, 2, 2)
      ensures r == Ok(true) ==> world.mon.health.Some? && world.mon.health.value.Healthy()
      ensures r == Ok(false) ==> world.mon.downs == old(world.mon.downs) + 1 && (!isLast ==> world.mon.debt.Free?)
      ensures r.Err? ==> !r.error.IsHermes() && Explained(world.mon, r.error)
    {
      var up :- PollStatus(b);
      world.Record(RoundEnded(up));
      if !up && !isLast {
        PollPause(b);
      }
      return Ok(up);
    }

    function Polls(): nat {
      if pollAttempts < 0 then 0 else pollAttempts
    }

    /** The whole restart operation: login, restart request, polling. */
    method RestartGateway(b: Budget?) returns (r: Result<bool, Error>)
      requires world.Valid() && world.OnTime(b) && Fits() && MayCall(world.ctx, world.mon)
      requires world.mon.permit.Classified? && world.mon.permit.cls == GATEWAY_ONLY_FAILURE
      requires world.mon.gatewayCalls == 0 && world.mon.probes >= 2
      modifies world, this`session
      ensures world.Valid() && world.OnTime(b)
      ensures Restarted(old(world.mon), world.mon, Polls(), r)
    {
      world.Record(GatewayCalled);
      r := Operate(b);
      if r.Err? {
        world.Record(RestartRaised(r.error));
      }
    }

    method Operate(b: Budget?) returns (r: Result<bool, Error>)
      requires world.Valid() && world.OnTime(b) && Fits() && world.mon.permit.MayPost?
      requires world.mon.debt.Free? && world.mon.rejects == 0 && world.mon.downs == 0 && world.mon.gatewayCalls > 0
      modifies world, this`session
      ensures world.Valid() && world.OnTime(b)
      ensures Restarting(old(world.mon), world.mon, 2 + 2 * Polls(), 2 * Polls(), 2)
      ensures r.Ok? ==> r.value && world.mon.posts > old(world.mon.posts)
      ensures r.Ok? ==> world.mon.health.Some? && world.mon.health.value.Healthy()
      ensures r.Err? ==>
        Explained(world.mon, r.error)
        || (r.error == HermesTimeout && AllPolled(world.mon) && world.mon.posts > old(world.mon.posts))
    {
      var ready := EnsureLogin(b);
      if ready.Err? {
        return Err(ready.error);
      }
      var posted := PostRestart(b);
      if posted.Err? {
        return Err(posted.error);
      }
      r := Poll(b);
    }

    /** One gateway restart call: at most 4 + 4P requests, two of them restart requests. */
    static ghost predicate Restarted(a: Monitor, b: Monitor, polls: nat, r: Result<bool, Error>) {
      && (a.lawful ==> b.lawful) && RailwayQuiet(a, b)
      && b.deployCalls == a.deployCalls && b.gatewayCalls == a.gatewayCalls + 1
      && b.first == a.first && b.probes == a.probes && b.verdict.None?
      && (r.Ok? ==> r.value && b.posts > a.posts && b.health.Some? && b.health.value.Healthy())
      && b.logins <= a.logins + 2 + 2 * polls && b.statusReads <= a.statusReads + 2 * polls && b.posts <= a.posts + 2
      && (!a.authRaised ==> b.afterAuth == a.afterAuth && (b.authRaised <==> r == Err(HermesAuth)))
      && b.raised == (if r.Err? then Some(r.error) else None)
    }
  }
}
