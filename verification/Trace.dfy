/** Everything one target's run does to the outside, as a trace of events and a monitor over it. */
module Trace {
  import opened Wrappers
  import opened Errors
  import opened Json
  import opened HttpPolicy
  import opened Responses
  import opened State
  import opened Replies

  type Duration = d: real | d >= 0.0 witness 0.0

  /** What is fixed during a run: whom it asks about, how it reads the answers, and its settings. */
  datatype Context = Context(
    ops: TextOps,
    scope: Scope,
    threshold: int,
    ignored: set<string>,
    selfhosted: bool,
    dryRun: bool,
    budgeted: bool,
    webui: bool,
    checks: nat,
    waits: nat,
    polls: nat,
    interval: real,
    pollInterval: real,
    retry: RetryPolicy)

  function StatusOf(ctx: Context, reply: Reply): Option<ServiceStatus> {
    match DataOf(reply)
    case None => None
    case Some(data) => ParseStatus(ctx.ops, data, ctx.scope)
  }

  // ----- events

  /**
   * Readings of the clock and of the date, the making of the budget, waits, requests (with the
   * wall they were given) and the run's own steps. `Railway(None, ...)` is a status read,
   * `Railway(Some(id), ...)` the restart mutation. A round is one look at a container that was
   * restarted, or one poll of a gateway that was.
   */
  datatype Event =
    | Tick(took: Duration, reading: real)
    | Dated(took: Duration, date: int)
    | Budgeted(end: real)
    | Slept(asked: real, took: Duration)
    | PauseSkipped
    | Railway(restart: Option<Json>, wall: Option<real>, took: Duration, reply: Reply)
    | Login(wall: Option<real>, took: Duration, reply: Reply)
    | StatusRead(session: bool, wall: Option<real>, took: Duration, reply: Reply)
    | RestartPost(session: bool, wall: Option<real>, took: Duration, reply: Reply)
    | Webui(took: Duration, reply: Reply)
    | ProbeStarted
    | Probed(status: ServiceStatus, health: HealthProbe, now: int, cls: Classification)
    | Judged(health: HealthProbe, cls: Classification)
    | DeployCalled(id: Json)
    | GatewayCalled
    | CheckRaised(error: Error)
    | RestartRaised(error: Error)
    | RoundStarted
    | RoundEnded(up: bool)

  /** Time an event took beyond what it was allowed to wait. */
  function Overhead(e: Event): real {
    match e
    case Tick(took, _) => took
    case Dated(took, _) => took
    case Slept(asked, took) => Max0(took - Max0(asked))
    case Railway(_, wall, took, _) => Overrun(wall, took)
    case Login(wall, took, _) => Overrun(wall, took)
    case StatusRead(_, wall, took, _) => Overrun(wall, took)
    case RestartPost(_, wall, took, _) => Overrun(wall, took)
    case Webui(took, _) => took
    case _ => 0.0
  }

  function Overrun(wall: Option<real>, took: Duration): real {
    if wall.None? then took else Max0(took - Max0(wall.value))
  }

  // ----- the monitor

  /** What the last event other than a clock reading allows next. */
  datatype Permit =
    | Nothing
    | Classified(cls: Classification, deployment: Option<Json>)
    | MayDeploy(id: Json)
    | MayPost
    | Rejected
    | MayRepost

  /** The pause owed after a round or a failed health check, before any clipping by the budget. */
  datatype Debt = Free | Owes(afterCheck: bool, raw: real)

  /**
   * What a run has done so far. `tried` counts the failed health checks since the run last
   * looked afresh, `rejects` the 401 replies since the client's operation began, `attempt` the
   * failed tries of the status read in progress, `downs` the rounds that ended without success.
   */
  datatype Monitor = Monitor(
    lawful: bool,
    permit: Permit,
    read: Option<ServiceStatus>,
    health: HealthProbe,
    tried: nat,
    date: Option<int>,
    web: Option<Reply>,
    last: Option<(Op, Reply)>,
    rejects: nat,
    raised: Option<Error>,
    first: Option<Classification>,
    verdict: Option<Classification>,
    probes: nat,
    deployCalls: nat,
    gatewayCalls: nat,
    downs: nat,
    railway: nat,
    attempt: nat,
    backoff: Option<real>,
    logins: nat,
    statusReads: nat,
    posts: nat,
    debt: Debt,
    authRaised: bool,
    afterAuth: nat,
    end: Option<real>,
    now: real,
    margin: Option<real>,
    expired: bool,
    overhead: real,
    asked: real)
  {
    function Hermes(): nat {
      logins + statusReads + posts
    }
  }

  const START := Monitor(
    lawful := true, permit := Nothing,
    read := None, health := None, tried := 0, date := None, web := None,
    last := None, rejects := 0, raised := None,
    first := None, verdict := None, probes := 0,
    deployCalls := 0, gatewayCalls := 0, downs := 0,
    railway := 0, attempt := 0, backoff := None, logins := 0, statusReads := 0, posts := 0,
    debt := Free, authRaised := false, afterAuth := 0,
    end := None, now := 0.0, margin := None, expired := false, overhead := 0.0, asked := 0.0)

  // ----- the budget is read before everything that may wait or change something

  /** The clock was read since the last other event, and one reading left time. */
  predicate InTime(ctx: Context, m: Monitor) {
    ctx.budgeted ==> m.end.Some? && m.margin.Some? && m.margin.value > 0.0
  }

  /** What the last clock reading left, if there is a budget. */
  function Left(m: Monitor): Option<real> {
    if m.end.None? then None else Some(m.end.value - m.now)
  }

  predicate MaySleep(ctx: Context, m: Monitor, asked: real) {
    ctx.budgeted ==> m.end.Some? && m.margin.Some? && asked <= Max0(m.end.value - m.now)
  }

  /** A Hermes request starts only when the last reading left time, and is given just that. */
  predicate MayRequest(ctx: Context, m: Monitor, wall: Option<real>) {
    InTime(ctx, m) && wall == Left(m) && (wall.Some? ==> wall.value > 0.0)
  }

  /** A mutation is called only when no reading ever was past the end. */
  predicate MayCall(ctx: Context, m: Monitor) {
    InTime(ctx, m) && !m.expired && !ctx.dryRun
  }

  /** What is left of a pause once the budget clips it. */
  function Clipped(m: Monitor, raw: real): real {
    Max0(if m.end.None? then raw else Min(raw, m.end.value - m.now))
  }

  predicate Timely(ctx: Context, m: Monitor, e: Event) {
    match e
    case Slept(asked, _) => MaySleep(ctx, m, asked)
    case PauseSkipped => MaySleep(ctx, m, 0.0) && (m.debt.Owes? ==> Clipped(m, m.debt.raw) == 0.0)
    case Railway(_, wall, _, _) => InTime(ctx, m) && wall == Left(m)
    case Login(wall, _, _) => MayRequest(ctx, m, wall)
    case StatusRead(_, wall, _, _) => MayRequest(ctx, m, wall)
    case RestartPost(_, wall, _, _) => MayRequest(ctx, m, wall)
    case Webui(_, _) => InTime(ctx, m)
    case DeployCalled(_) => MayCall(ctx, m)
    case GatewayCalled => MayCall(ctx, m)
    case Budgeted(_) => ctx.budgeted && m.end.None?
    case _ => true
  }

  // ----- what a conclusion must rest on

  /** What the wait after a container restart looks for in a status. */
  predicate Up(s: ServiceStatus) {
    s.instanceRunning && s.latestStatus == SUCCESS && !s.stopped
  }

  /** After a container restart, the next probe waits for an up container and a gateway that answers. */
  predicate MayProbe(m: Monitor) {
    m.deployCalls == 1 && m.gatewayCalls == 0 && m.verdict.None? ==>
      m.read.Some? && Up(m.read.value) && m.health.Some?
  }

  /** The health checks gave up only after the configured number of them, or once the budget was spent. */
  predicate GaveUp(ctx: Context, m: Monitor) {
    m.tried == ctx.checks || m.expired
  }

  predicate Unpaused(m: Monitor) {
    m.debt.Owes? && m.debt.afterCheck
  }

  /** The error the last Hermes request calls for; a 401 does so only when it came after a new login. */
  function LastFailure(m: Monitor): Option<Error> {
    if m.last.None? then None
    else if !m.last.value.0.LoginOp? && Unauthorized(m.last.value.1) && m.rejects != 2 then None
    else FailureOf(m.last.value.0, m.last.value.1)
  }

  /** An error of the Hermes client is what the last reply calls for, or a timeout once the budget was spent. */
  predicate Explained(m: Monitor, error: Error) {
    LastFailure(m) == Some(error) || (error == HermesTimeout && m.expired)
  }

  /** A round ends well when it found what it waits for, and badly only when it did look. */
  predicate RoundFound(ctx: Context, m: Monitor, up: bool) {
    if m.gatewayCalls == 0 then
      && (up <==> m.read.Some? && Up(m.read.value) && m.health.Some?)
      && (m.health.Some? || GaveUp(ctx, m))
    else
      && (up <==> m.health.Some? && m.health.value.Healthy())
      && (m.health.Some? || LastFailure(m).Some? || m.expired)
  }

  function OwnClass(ctx: Context, health: HealthProbe): Classification {
    ClassOf(health, ctx.ignored, ctx.ops.lower)
  }

  /** A self-hosted classification that rests on this health; only a healthy one leaves the web UI to be asked. */
  predicate JudgedOn(ctx: Context, health: HealthProbe, cls: Classification) {
    cls == OwnClass(ctx, health) || (OwnClass(ctx, health) == HEALTHY && cls == WEBUI_DOWN)
  }

  /** The classification a self-hosted probe reaches, the answer of the web UI included. */
  predicate WebJudged(ctx: Context, m: Monitor, cls: Classification) {
    var own := OwnClass(ctx, m.health);
    if own == HEALTHY && ctx.webui then
      if m.web.Some? then cls == (if WebOk(m.web.value) then HEALTHY else WEBUI_DOWN)
      else cls == WEBUI_DOWN && m.expired
    else cls == own
  }

  /** The rules a lawful trace keeps at every event. */
  predicate Allowed(ctx: Context, m: Monitor, e: Event) {
    Timely(ctx, m, e) && Founded(ctx, m, e)
  }

  /** The rules on what an event may follow. */
  predicate Founded(ctx: Context, m: Monitor, e: Event) {
    match e
    case ProbeStarted => MayProbe(m)
    case Probed(status, health, now, cls) =>
      && !ctx.selfhosted && m.read == Some(status) && m.health == health && m.date == Some(now)
      && (health.Some? || GaveUp(ctx, m))
      && Classify(status, health, now, ctx.threshold) == Some(cls)
    case Judged(health, cls) =>
      && ctx.selfhosted && m.health == health
      && (health.Some? || GaveUp(ctx, m) || m.raised == Some(HermesAuth))
      && WebJudged(ctx, m, cls)
    case DeployCalled(id) =>
      && !ctx.selfhosted && m.permit == Classified(CONTAINER_FAILURE, Some(id))
      && m.deployCalls == 0 && m.gatewayCalls == 0 && m.probes >= 2
    case Railway(None, _, _, _) => !ctx.selfhosted && m.backoff.None? && m.attempt <= ctx.retry.maxRetries
    case Railway(Some(id), _, _, _) => !ctx.selfhosted && m.permit == MayDeploy(id)
    case GatewayCalled =>
      m.permit.Classified? && m.permit.cls == GATEWAY_ONLY_FAILURE && m.gatewayCalls == 0 && m.probes >= 2
    case CheckRaised(error) => Explained(m, error)
    case RestartRaised(error) => Explained(m, error) || (error == HermesTimeout && m.downs == ctx.polls && m.posts > 0)
    case RoundStarted => m.debt.Free?
    case RoundEnded(up) => RoundFound(ctx, m, up)
    case Login(_, _, _) => !Unpaused(m)
    case StatusRead(session, _, _, _) => session && !Unpaused(m) && (m.rejects > 0 ==> LoggedInAgain(m))
    case RestartPost(session, _, _, _) => session && !Unpaused(m) && (m.permit.MayPost? || m.permit.MayRepost?)
    case Webui(_, _) => ctx.selfhosted && ctx.webui && m.web.None? && OwnClass(ctx, m.health) == HEALTHY
    case _ => true
  }

  /** The last Hermes request was a successful login. */
  predicate LoggedInAgain(m: Monitor) {
    m.last.Some? && m.last.value.0.LoginOp? && LoginOk(m.last.value.1)
  }

  // ----- how the monitor follows a trace

  function NextPermit(p: Permit, e: Event): Permit {
    match e
    case Tick(_, _) => p
    case Probed(status, _, _, cls) => Classified(cls, status.restartable)
    case Judged(_, cls) => Classified(cls, None)
    case DeployCalled(id) => MayDeploy(id)
    case GatewayCalled => MayPost
    case Login(_, _, reply) => if !LoginOk(reply) then Nothing else AfterLogin(p)
    case RestartPost(_, _, _, reply) => if p.MayPost? && Unauthorized(reply) then Rejected else Nothing
    case _ => Nothing
  }

  /** How a successful login changes what may follow. */
  function AfterLogin(p: Permit): Permit {
    if p.MayPost? then MayPost else if p.Rejected? || p.MayRepost? then MayRepost else Nothing
  }

  predicate IsHermesCall(e: Event) {
    e.Login? || e.StatusRead? || e.RestartPost? || e.Webui?
  }

  /** An authentication error surfaces from the Hermes client. */
  predicate RaisesAuth(e: Event) {
    e == CheckRaised(HermesAuth) || e == RestartRaised(HermesAuth)
  }

  predicate IsMutation(e: Event) {
    e.DeployCalled? || e.GatewayCalled? || (e.Railway? && e.restart.Some?) || e.RestartPost?
  }

  /** A step of the run after which pauses that are still owed do not matter any more. */
  predicate IsStep(e: Event) {
    e.ProbeStarted? || e.DeployCalled? || e.GatewayCalled?
  }

  /** What was known of the gateway does not count any more. */
  predicate Outdates(e: Event) {
    IsStep(e) || e.RoundStarted? || (e.Railway? && e.restart.None?)
  }

  /** A pause that lasts as long as it was meant to, or as the budget leaves. */
  predicate Pays(m: Monitor, e: Event, raw: real) {
    (e.Slept? && Max0(e.asked) == Clipped(m, raw)) || (e.PauseSkipped? && Clipped(m, raw) == 0.0)
  }

  function NextDebt(ctx: Context, m: Monitor, e: Event): Debt {
    if IsStep(e) || (m.debt.Owes? && Pays(m, e, m.debt.raw)) then Free
    else if e.CheckRaised? then Owes(true, ctx.interval)
    else if e.RoundStarted? && m.debt.Free? then
      Owes(false, if m.gatewayCalls > 0 then ctx.pollInterval else ctx.interval)
    else m.debt
  }

  /** The backoff owed between a status read that may be tried again and the next try. */
  function NextBackoff(ctx: Context, m: Monitor, e: Event): Option<real> {
    if IsStep(e) || e.RoundStarted? then None
    else if m.backoff.Some? then if e.Slept? && Max0(e.asked) == Clipped(m, m.backoff.value) then None else m.backoff
    else if e.Railway? && e.restart.None? && CanRetry(ctx.retry, e.reply) then Some(ctx.retry.BackoffFor(m.attempt))
    else None
  }

  function NextAttempt(ctx: Context, m: Monitor, e: Event): nat {
    if IsStep(e) || e.RoundStarted? then 0
    else if e.Railway? && e.restart.None? then if CanRetry(ctx.retry, e.reply) then m.attempt + 1 else 0
    else m.attempt
  }

  function NextLast(m: Monitor, e: Event): Option<(Op, Reply)> {
    match e
    case Login(_, _, reply) => Some((LoginOp, reply))
    case StatusRead(_, _, _, reply) => Some((StatusOp, reply))
    case RestartPost(_, _, _, reply) => Some((RestartOp, reply))
    case _ => if Outdates(e) || e.CheckRaised? then None else m.last
  }

  function NextRejects(m: Monitor, e: Event): nat {
    if Outdates(e) || e.CheckRaised? then 0
    else if (e.StatusRead? || e.RestartPost?) && Unauthorized(e.reply) then m.rejects + 1
    else m.rejects
  }

  /** The largest time left among the clock readings since the last other event. */
  function NextMargin(m: Monitor, e: Event): Option<real> {
    if !e.Tick? || m.end.None? then None
    else
      var left := m.end.value - e.reading;
      Some(if m.margin.Some? && m.margin.value > left then m.margin.value else left)
  }

  function Next(ctx: Context, m: Monitor, e: Event): Monitor {
    Monitor(
      lawful := m.lawful && Allowed(ctx, m, e),
      permit := NextPermit(m.permit, e),
      read := if e.ProbeStarted? || e.DeployCalled? then None
              else if e.Railway? && e.restart.None? then StatusOf(ctx, e.reply) else m.read,
      health := if Outdates(e) then None else if e.StatusRead? then HealthOf(e.reply) else m.health,
      tried := if Outdates(e) then 0 else if e.CheckRaised? then m.tried + 1 else m.tried,
      date := if e.ProbeStarted? then None else if e.Dated? then Some(e.date) else m.date,
      web := if e.ProbeStarted? then None else if e.Webui? then Some(e.reply) else m.web,
      last := NextLast(m, e),
      rejects := NextRejects(m, e),
      raised := if e.CheckRaised? || e.RestartRaised? then Some(e.error)
                else if e.ProbeStarted? || e.GatewayCalled? then None else m.raised,
      first := if (e.Probed? || e.Judged?) && m.first.None? then Some(e.cls) else m.first,
      verdict := if e.Probed? || e.Judged? then Some(e.cls) else if IsMutation(e) then None else m.verdict,
      probes := m.probes + if e.Probed? || e.Judged? then 1 else 0,
      deployCalls := m.deployCalls + if e.DeployCalled? then 1 else 0,
      gatewayCalls := m.gatewayCalls + if e.GatewayCalled? then 1 else 0,
      downs := if IsStep(e) then 0 else if e.RoundEnded? && !e.up then m.downs + 1 else m.downs,
      railway := m.railway + if e.Railway? then 1 else 0,
      attempt := NextAttempt(ctx, m, e),
      backoff := NextBackoff(ctx, m, e),
      logins := m.logins + if e.Login? then 1 else 0,
      statusReads := m.statusReads + if e.StatusRead? then 1 else 0,
      posts := m.posts + if e.RestartPost? then 1 else 0,
      debt := NextDebt(ctx, m, e),
      authRaised := m.authRaised || RaisesAuth(e),
      afterAuth := m.afterAuth + if m.authRaised && IsHermesCall(e) then 1 else 0,
      end := if e.Budgeted? then Some(e.end) else m.end,
      now := if e.Tick? then e.reading else m.now,
      margin := NextMargin(m, e),
      expired := m.expired || (e.Tick? && m.end.Some? && m.end.value <= e.reading),
      overhead := m.overhead + Overhead(e),
      asked := m.asked + if e.Slept? then Max0(e.asked) else 0.0)
  }

  function Observe(ctx: Context, t: seq<Event>): Monitor {
    if t == [] then START else Next(ctx, Observe(ctx, t[..|t| - 1]), t[|t| - 1])
  }

  lemma ObserveLast(ctx: Context, t: seq<Event>, e: Event)
    ensures Observe(ctx, t + [e]) == Next(ctx, Observe(ctx, t), e)
  {
    assert (t + [e])[..|t|] == t;
  }
}
