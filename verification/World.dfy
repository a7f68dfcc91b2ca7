/** The outside world of one target's run, and the absolute budget read from its clock. */
module World {
  import opened Wrappers
  import opened Json
  import opened HttpPolicy
  import opened Replies
  import opened Trace

  /** One step of the environment: how long it took, what was answered, what the wall clock read. */
  datatype Answer = Answer(took: Duration, reply: Reply, now: int)

  /**
   * The environment is an arbitrary script, one answer for each interaction. `trace` and `mon`
   * record what the run did to it.
   */
  class Outside {
    const ctx: Context
    const script: nat -> Answer
    var cursor: nat
    var clock: real
    ghost var trace: seq<Event>
    ghost var mon: Monitor

    /** The monitor adds up the trace; callers that need the fact ask for it with `Audit`. */
    ghost predicate Valid()
      reads this
    {
      forall c | c == ctx :: mon == Observe(c, trace)
    }

    lemma Audit()
      requires Valid()
      ensures mon == Observe(ctx, trace)
    {
      var m := Observe(ctx, trace);
    }

    /** There is a budget and the clock has reached its end. */
    ghost predicate PastEnd(b: Budget?)
      reads this
    {
      b != null && b.end <= clock
    }

    constructor (ctx: Context, script: nat -> Answer, clock: real)
      ensures this.ctx == ctx && this.script == script && this.clock == clock
      ensures trace == [] && mon == START && Valid()
    {
      this.ctx, this.script, this.cursor, this.clock := ctx, script, 0, clock;
      this.trace, this.mon := [], START;
    }

    /**
     * The budget is the one the monitor measures by, and the clock is past it by no more than
     * the overhead since it was made (and what a negative budget was short of at the start).
     */
    ghost predicate OnTime(b: Budget?)
      reads this
    {
      && ctx.budgeted == (b != null) && mon.end == (if b == null then None else Some(b.end))
      && (mon.expired ==> PastEnd(b))
      && (b != null ==>
            && b.world == this && b.base <= mon.overhead && b.slack >= 0.0
            && clock - b.end <= mon.overhead - b.base + b.slack)
    }

    /** The next answer; the clock moves by the time it took. */
    method Advance() returns (a: Answer)
      modifies this`cursor, this`clock
      ensures clock == old(clock) + a.took
    {
      a := script(cursor);
      cursor := cursor + 1;
      clock := clock + a.took;
    }

    ghost method Record(e: Event)
      requires Valid()
      modifies this`trace, this`mon
      ensures Valid() && trace == old(trace) + [e] && mon == Next(ctx, old(mon), e)
    {
      Audit();
      ObserveLast(ctx, trace, e);
      trace, mon := trace + [e], Next(ctx, mon, e);
    }

    /** `monotonic()`. */
    method Monotonic() returns (now: real, ghost took: Duration)
      requires Valid()
      modifies this
      ensures Valid() && now == clock == old(clock) + took
      ensures trace == old(trace) + [Tick(took, now)] && mon == Next(ctx, old(mon), Tick(took, now))
    {
      var a := Advance();
      now, took := clock, a.took;
      Record(Tick(took, now));
    }

    /** The current date and time. */
    method WallClock() returns (now: int, ghost took: Duration)
      requires Valid()
      modifies this
      ensures Valid() && clock == old(clock) + took
      ensures trace == old(trace) + [Dated(took, now)] && mon == Next(ctx, old(mon), Dated(took, now))
    {
      var a := Advance();
      now, took := a.now, a.took;
      Record(Dated(took, now));
    }

    method Sleep(asked: real) returns (ghost took: Duration)
      requires Valid()
      modifies this
      ensures Valid() && clock == old(clock) + took
      ensures trace == old(trace) + [Slept(asked, took)] && mon == Next(ctx, old(mon), Slept(asked, took))
    {
      var a := Advance();
      took := a.took;
      Record(Slept(asked, took));
    }

    method CallRailway(restart: Option<Json>, wall: Option<real>) returns (reply: Reply, ghost took: Duration)
      requires Valid()
      modifies this
      ensures Valid() && clock == old(clock) + took
      ensures trace == old(trace) + [Railway(restart, wall, took, reply)]
      ensures mon == Next(ctx, old(mon), Railway(restart, wall, took, reply))
    {
      var a := Advance();
      reply, took := a.reply, a.took;
      Record(Railway(restart, wall, took, reply));
    }

    method CallLogin(wall: Option<real>) returns (reply: Reply, ghost took: Duration)
      requires Valid()
      modifies this
      ensures Valid() && clock == old(clock) + took
      ensures trace == old(trace) + [Login(wall, took, reply)] && mon == Next(ctx, old(mon), Login(wall, took, reply))
    {
      var a := Advance();
      reply, took := a.reply, a.took;
      Record(Login(wall, took, reply));
    }

    method CallStatus(session: bool, wall: Option<real>) returns (reply: Reply, ghost took: Duration)
      requires Valid()
      modifies this
      ensures Valid() && clock == old(clock) + took
      ensures trace == old(trace) + [StatusRead(session, wall, took, reply)]
      ensures mon == Next(ctx, old(mon), StatusRead(session, wall, took, reply))
    {
      var a := Advance();
      reply, took := a.reply, a.took;
      Record(StatusRead(session, wall, took, reply));
    }

    method CallRestart(session: bool, wall: Option<real>) returns (reply: Reply, ghost took: Duration)
      requires Valid()
      modifies this
      ensures Valid() && clock == old(clock) + took
      ensures trace == old(trace) + [RestartPost(session, wall, took, reply)]
      ensures mon == Next(ctx, old(mon), RestartPost(session, wall, took, reply))
    {
      var a := Advance();
      reply, took := a.reply, a.took;
      Record(RestartPost(session, wall, took, reply));
    }

    method CallWebui() returns (reply: Reply, ghost took: Duration)
      requires Valid()
      modifies this
      ensures Valid() && clock == old(clock) + took
      ensures trace == old(trace) + [Webui(took, reply)] && mon == Next(ctx, old(mon), Webui(took, reply))
    {
      var a := Advance();
      reply, took := a.reply, a.took;
      Record(Webui(took, reply));
    }
  }

  /** An absolute time budget for one target's recovery. */
  class Budget {
    const world: Outside
    const end: real
    ghost const base: real
    ghost const slack: real

    constructor (world: Outside, total: real)
      requires world.Valid() && world.ctx.budgeted && world.mon.end.None? && !world.mon.expired
      modifies world
      ensures this.world == world && world.Valid()
      ensures Harmless(old(world.mon), world.mon) && RailwayQuiet(old(world.mon), world.mon)
      ensures HermesQuiet(old(world.mon), world.mon)
      ensures world.OnTime(this) && slack == Max0(-total)
      ensures world.clock - old(world.clock) == world.mon.overhead - old(world.mon.overhead) >= 0.0
      ensures base == world.mon.overhead && end == world.clock + total
    {
      var now, took := world.Monotonic();
      world.Record(Budgeted(now + total));
      this.world, this.end, this.base, this.slack := world, now + total, world.mon.overhead, Max0(-total);
    }

    /** Live seconds left. */
    method Remaining() returns (left: real)
      requires world.Valid()
      modifies world
      ensures world.Valid() && left == end - world.clock && world.clock >= old(world.clock)
      ensures Quiet(old(world.mon), world.mon) && OnlyTicks(old(world.trace), world.trace)
      ensures old(world.OnTime(this)) ==>
        world.OnTime(this) && Left(world.mon) == Some(left) && (left <= 0.0 ==> world.mon.expired)
      ensures old(world.OnTime(this)) ==> world.mon.margin.Some? && world.mon.margin.value >= left
      ensures old(world.OnTime(this) && InTime(world.ctx, world.mon)) ==> InTime(world.ctx, world.mon)
    {
      var now, took := world.Monotonic();
      left := end - now;
    }

    method Expired() returns (expired: bool)
      requires world.Valid()
      modifies world
      ensures world.Valid() && (expired <==> end <= world.clock)
      ensures Quiet(old(world.mon), world.mon) && OnlyTicks(old(world.trace), world.trace)
      ensures old(world.OnTime(this)) ==> world.OnTime(this) && Knows(world, expired)
      ensures world.clock >= old(world.clock)
    {
      var left := Remaining();
      expired := left <= 0.0;
    }

    /** A wait bounded by its own value and the remaining budget. */
    method Clip(interval: real) returns (d: real)
      requires world.Valid()
      modifies world
      ensures world.Valid() && d == Max0(Min(interval, end - world.clock)) && world.clock >= old(world.clock)
      ensures Quiet(old(world.mon), world.mon) && OnlyTicks(old(world.trace), world.trace)
      ensures old(world.OnTime(this)) ==>
        world.OnTime(this) && MaySleep(world.ctx, world.mon, d) && d == Clipped(world.mon, interval)
    {
      var left := Remaining();
      d := Max0(Min(interval, left));
    }
  }

  /** The monitor saw what a reading of the budget said. */
  ghost predicate Knows(world: Outside, spent: bool)
    reads world
  {
    if spent then world.mon.expired else InTime(world.ctx, world.mon) && !world.mon.expired
  }

  /** Whether there is a budget and it is spent. */
  method Spent(world: Outside, b: Budget?) returns (spent: bool)
    requires world.Valid() && world.OnTime(b)
    modifies world
    ensures world.Valid() && world.OnTime(b)
    ensures Quiet(old(world.mon), world.mon) && OnlyTicks(old(world.trace), world.trace)
    ensures spent <==> world.PastEnd(b)
    ensures Knows(world, spent)
    ensures world.clock >= old(world.clock)
  {
    spent := false;
    if b != null {
      spent := b.Expired();
    }
  }

  // ----- relations between what the monitor saw before and after an operation

  /** No mutation was called, and the rules were kept if they were kept before. */
  ghost predicate Harmless(a: Monitor, b: Monitor) {
    && b.deployCalls == a.deployCalls && b.gatewayCalls == a.gatewayCalls
    && b.verdict == a.verdict && b.first == a.first && b.probes == a.probes && (a.lawful ==> b.lawful)
  }

  /** Nothing was asked of Railway. */
  ghost predicate RailwayQuiet(a: Monitor, b: Monitor) {
    b.railway == a.railway && b.read == a.read
  }

  /** Nothing was asked of Hermes. */
  ghost predicate HermesQuiet(a: Monitor, b: Monitor) {
    && b.logins == a.logins && b.statusReads == a.statusReads && b.posts == a.posts
    && (b.health == a.health || b.health.None?) && (b.debt == a.debt || b.debt.Free?)
    && b.downs == a.downs && b.raised == a.raised && b.authRaised == a.authRaised && b.afterAuth == a.afterAuth
  }

  /** Only the clock was read. */
  ghost predicate Quiet(a: Monitor, b: Monitor) {
    && b == a.(now := b.now, margin := b.margin, expired := b.expired, overhead := b.overhead)
    && b.overhead >= a.overhead && (a.expired ==> b.expired)
  }

  /** Nothing is known of the gateway since the run last looked afresh. */
  ghost predicate Fresh(m: Monitor) {
    m.health.None? && m.tried == 0 && m.rejects == 0
  }

  ghost predicate OnlyTicks(old_: seq<Event>, new_: seq<Event>) {
    old_ <= new_ && forall k | |old_| <= k < |new_| :: new_[k].Tick?
  }
}
